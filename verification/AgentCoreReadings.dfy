/** What the clauses of a text come to, clause by clause and step by step. */
module AgentCoreReadings {
  import opened Wrappers
  import opened MissionValidator
  import opened AgentCoreState

  /** Clause `k` is the step. */
  predicate Is(clauses: seq<Option<Clause>>, k: nat, step: Step) {
    k < |clauses| && clauses[k] == Some(StepClause(step))
  }

  predicate IsStep(clauses: seq<Option<Clause>>, k: nat) {
    k < |clauses| && clauses[k].Some? && clauses[k].value.StepClause?
  }

  /** The steps are the clauses from `lo` on, one for one and in the order spoken. */
  predicate AreTheClauses(clauses: seq<Option<Clause>>, lo: nat, steps: seq<Step>) {
    forall k :: 0 <= k < |steps| ==> Is(clauses, lo + k, steps[k])
  }

  /** Every clause is a step. */
  predicate AllSteps(clauses: seq<Option<Clause>>) {
    forall k :: 0 <= k < |clauses| ==> IsStep(clauses, k)
  }

  /** Clause `m` leaves its parameter open, and every other clause is a step. */
  predicate OneMissing(clauses: seq<Option<Clause>>, m: nat) {
    && m < |clauses| && clauses[m].Some? && clauses[m].value.MissingClause?
    && forall k :: 0 <= k < |clauses| && k != m ==> IsStep(clauses, k)
  }

  predicate OnlyUnknown(clauses: seq<Option<Clause>>) {
    |clauses| == 1 && clauses[0] == Some(UnknownClause)
  }

  lemma {:induction false} StepsByIndex(clauses: seq<Option<Clause>>, lo: nat, hi: nat)
    requires lo <= hi <= |clauses| && forall k :: lo <= k < hi ==> IsStep(clauses, k)
    ensures |StepsOf(clauses, lo, hi)| == hi - lo && AreTheClauses(clauses, lo, StepsOf(clauses, lo, hi))
    decreases hi
  {
    if lo < hi {
      StepsByIndex(clauses, lo, hi - 1);
      assert IsStep(clauses, hi - 1);
      var front, steps := StepsOf(clauses, lo, hi - 1), StepsOf(clauses, lo, hi);
      forall k | 0 <= k < |steps| ensures Is(clauses, lo + k, steps[k]) {
        if k < |front| { assert Is(clauses, lo + k, front[k]); }
      }
    }
  }

  /** What is left open, and what is known before and behind it. */
  predicate Leaves(clauses: seq<Option<Clause>>, m: nat, i: Intent) {
    && OneMissing(clauses, m) && clauses[m].value == MissingClause(i.parameter, i.sign)
    && |i.prefix| == m && AreTheClauses(clauses, 0, i.prefix)
    && |i.suffix| == |clauses| - m - 1 && AreTheClauses(clauses, m + 1, i.suffix)
  }

  /** A text of at most three clauses. */
  predicate Short(r: Reading) {
    !r.empty && !r.cancel && |r.clauses| <= 3
  }

  lemma {:induction false} CompleteReading(r: Reading)
    ensures ParseText(r).Complete? <==> Short(r) && AllSteps(r.clauses)
    ensures ParseText(r).Complete? ==>
              |ParseText(r).steps| == |r.clauses| && AreTheClauses(r.clauses, 0, ParseText(r).steps)
  {
    hide StepsOf;
    if Short(r) && AllSteps(r.clauses) {
      forall k | 0 <= k < |r.clauses| ensures r.clauses[k].Some? && r.clauses[k].value.StepClause? {
        assert IsStep(r.clauses, k);
      }
      StepsByIndex(r.clauses, 0, |r.clauses|);
    } else if ParseText(r).Complete? {
      forall k | 0 <= k < |r.clauses| ensures IsStep(r.clauses, k) {
        OneOfSix(r.clauses, k);
      }
    }
  }

  /** A clause that is none of the other five is a step. */
  lemma OneOfSix(clauses: seq<Option<Clause>>, k: nat)
    requires k < |clauses| && clauses[k].Some?
    ensures || IsStep(clauses, k) || Has(clauses, k, (c: Clause) => c.MissingClause?)
            || Has(clauses, k, (c: Clause) => c.InvalidClause?) || Has(clauses, k, (c: Clause) => c.CancelClause?)
            || Has(clauses, k, (c: Clause) => c.UnknownClause?)
  {
  }

  lemma {:induction false} MissingReading(r: Reading)
    ensures ParseText(r).Missing? <==> Short(r) && exists m :: OneMissing(r.clauses, m)
    ensures ParseText(r).Missing? ==> exists m :: Leaves(r.clauses, m, ParseText(r).intent)
  {
    forall m | Short(r) && OneMissing(r.clauses, m) ensures ParseText(r).Missing? {
      LeavesTheRest(r, m);
    }
    if ParseText(r).Missing? {
      var m := First(r.clauses, 0, (c: Clause) => c.MissingClause?);
      forall k | 0 <= k < |r.clauses| && k != m ensures IsStep(r.clauses, k) {
        OneOfSix(r.clauses, k);
      }
      LeavesTheRest(r, m);
    }
  }

  lemma {:induction false} FirstMissing(clauses: seq<Option<Clause>>, m: nat)
    requires OneMissing(clauses, m)
    ensures First(clauses, 0, (c: Clause) => c.MissingClause?) == m
    ensures First(clauses, m + 1, (c: Clause) => c.MissingClause?) == |clauses|
    ensures First(clauses, 0, (c: Clause) => c.UnknownClause?) == |clauses|
    ensures First(clauses, 0, (c: Clause) => c.InvalidClause?) == |clauses|
    ensures First(clauses, 0, (c: Clause) => c.CancelClause?) == |clauses|
  {
    assert Has(clauses, m, (c: Clause) => c.MissingClause?);
    var k := First(clauses, 0, (c: Clause) => c.MissingClause?);
    assert k <= m;
    assert k < m ==> IsStep(clauses, k);
    var l := First(clauses, m + 1, (c: Clause) => c.MissingClause?);
    assert l < |clauses| ==> IsStep(clauses, l);
    var u := First(clauses, 0, (c: Clause) => c.UnknownClause?);
    assert u < |clauses| && u != m ==> IsStep(clauses, u);
    var i := First(clauses, 0, (c: Clause) => c.InvalidClause?);
    assert i < |clauses| && i != m ==> IsStep(clauses, i);
    var x := First(clauses, 0, (c: Clause) => c.CancelClause?);
    assert x < |clauses| && x != m ==> IsStep(clauses, x);
  }

  lemma {:induction false} LeavesTheRest(r: Reading, m: nat)
    requires Short(r) && OneMissing(r.clauses, m)
    ensures ParseText(r).Missing? && Leaves(r.clauses, m, ParseText(r).intent)
  {
    hide StepsOf;
    FirstMissing(r.clauses, m);
    var cs := r.clauses;
    forall k | 0 <= k < |cs| ensures cs[k].Some? {
      if k != m { assert IsStep(cs, k); }
    }
    StepsByIndex(cs, 0, m);
    StepsByIndex(cs, m + 1, |cs|);
  }

  lemma {:induction false} UnknownReading(r: Reading)
    ensures ParseText(r).Unknown? <==> !r.empty && !r.cancel && OnlyUnknown(r.clauses)
    ensures !ParseText(r).AskAgain? && (ParseText(r).CancelTask? <==> !r.empty && r.cancel)
  {
    hide StepsOf;
  }
}
