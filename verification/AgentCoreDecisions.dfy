/**
  Which decision a turn gets, told on the fields of the core and the reading of the turn: when a
  command is served, when it becomes a Mission, a cancel, a question or a planner's business, of
  which steps, and under which token.
 */
module AgentCoreDecisions {
  import opened Wrappers
  import opened MissionValidator
  import opened AgentCoreState
  import opened AgentCoreReadings

  // ---- the fence, on its fields

  /** The turn is a command of this envelope. */
  predicate Commands(t: Turn, e: Envelope) {
    t.envelope == Some(e) && ValidEnvelope(e) && !e.stop && !e.reading.stopClause
  }

  /** Another instance than the current one speaks. */
  predicate TakesOver(c: Core, e: Envelope) {
    c.current.Some? && c.current.value != e.instance
  }

  /** The fence lets the command through. */
  predicate Passes(c: Core, e: Envelope) {
    && !c.latched
    && (c.current == Some(e.instance) ==> c.lastSeq < e.seqNo)
    && (TakesOver(c, e) ==> e.instance !in c.retired && |c.retired| < 64)
  }

  /** The local generation of the command: one more, and another one when an instance takes over. */
  function NextGeneration(c: Core, e: Envelope): int {
    c.generation + (if TakesOver(c, e) && c.generation < MAX_UINT64 then 2 else 1)
  }

  /** The command passes and there are numbers left for it. */
  predicate IsServed(c: Core, e: Envelope) {
    Passes(c, e) && c.sourceSeq < MAX_UINT64 && NextGeneration(c, e) <= MAX_UINT64
  }

  /** The token of a served command. */
  function NewToken(c: Core, e: Envelope, s: Snapshot): Token {
    Token(c.agent, c.sourceSeq + 1, e.instance, e.seqNo, e.session, e.turn, NextGeneration(c, e), s)
  }

  /** The session has a question open that is not out of date and belongs to the instance. */
  predicate IsAsked(c: Core, e: Envelope, now: real) {
    && e.session in c.pending && now < c.pending[e.session].createdAt + c.policy.clarificationTimeout
    && !TakesOver(c, e)
  }

  // ---- answers, on the reading

  /** The text answers the question. */
  predicate Tells(r: Reading, i: Intent, s: Snapshot) {
    match i.parameter
    case Distance => r.distance.Quantity?
    case Angle => r.degrees.Quantity? && 0.0 <= r.degrees.value <= 360.0
    case Place => ValidLogicalId(r.place) && r.place in s.places
    case Map => ValidLogicalId(r.mapId)
  }

  /** The text is no answer of the kind asked for. */
  predicate TellsNothing(r: Reading, i: Intent) {
    match i.parameter
    case Distance => r.distance.NoMatch?
    case Angle => r.degrees.NoMatch?
    case Place => r.place == ""
    case Map => r.mapId == ""
  }

  /** The step that the answer means: the sign of the question and the amount of the answer, or its target. */
  predicate Means(step: Step, r: Reading, i: Intent, p: Policy) {
    match i.parameter
    case Distance =>
      r.distance.Quantity? && step == Step(1, Finite(i.sign as real * r.distance.value), Finite(0.0), "")
    case Angle =>
      r.degrees.Quantity?
      && step == Step(2, Finite(0.0),
                      Finite(if r.degrees.value == 360.0 then i.sign as real * p.runtimeRotateMax
                             else i.sign as real * r.wireAngle), "")
    case Place => step == Step(3, Finite(0.0), Finite(0.0), r.place)
    case Map => step == Step(4, Finite(0.0), Finite(0.0), r.mapId)
  }

  /** The steps are the known ones around the answer. */
  predicate Completes(steps: seq<Step>, r: Reading, i: Intent, p: Policy) {
    && |steps| == |i.prefix| + 1 + |i.suffix|
    && steps[..|i.prefix|] == i.prefix && steps[|i.prefix| + 1..] == i.suffix
    && Means(steps[|i.prefix|], r, i, p)
  }

  lemma AnswerMeans(r: Reading, i: Intent, p: Policy)
    ensures i.parameter.Distance? && r.distance.Quantity? ==> Means(AnswerOf(r, i, p), r, i, p)
    ensures i.parameter.Angle? && r.degrees.Quantity? ==> Means(AnswerOf(r, i, p), r, i, p)
    ensures i.parameter.Place? ==> Means(AnswerOf(r, i, p), r, i, p)
    ensures i.parameter.Map? ==> Means(AnswerOf(r, i, p), r, i, p)
  {
  }

  lemma Answering(r: Reading, i: Intent, s: Snapshot, p: Policy)
    ensures var a := AnswerPending(r, i, s, p);
            && (a.Complete? <==> Tells(r, i, s)) && (a.AskAgain? <==> TellsNothing(r, i))
            && (a.Complete? || a.AskAgain? || a.Invalid?)
            && (a.AskAgain? ==> a.intent == i)
            && (a.Complete? ==> Completes(a.steps, r, i, p))
  {
    var steps := i.prefix + [AnswerOf(r, i, p)] + i.suffix;
    assert steps[..|i.prefix|] == i.prefix && steps[|i.prefix| + 1..] == i.suffix;
    if AnswerPending(r, i, s, p).Complete? {
      assert AnswerPending(r, i, s, p).steps == steps;
      assert steps[|i.prefix|] == AnswerOf(r, i, p);
      AnswerMeans(r, i, p);
    }
  }

  lemma OneCompletion(one: seq<Step>, two: seq<Step>, r: Reading, i: Intent, p: Policy)
    requires Completes(one, r, i, p) && Completes(two, r, i, p)
    ensures one == two
  {
    assert one == one[..|i.prefix|] + [one[|i.prefix|]] + one[|i.prefix| + 1..];
    assert two == two[..|i.prefix|] + [two[|i.prefix|]] + two[|i.prefix| + 1..];
  }

  lemma OneReading(one: seq<Step>, two: seq<Step>, clauses: seq<Option<Clause>>, lo: nat)
    requires |one| == |two| && AreTheClauses(clauses, lo, one) && AreTheClauses(clauses, lo, two)
    ensures one == two
  {
    forall k | 0 <= k < |one| ensures one[k] == two[k] {
      assert Is(clauses, lo + k, one[k]) && Is(clauses, lo + k, two[k]);
    }
  }

  // ---- a served command

  /** The other sessions with a question open. */
  function AskedElsewhere(c: Core, e: Envelope, now: real): set<string> {
    if TakesOver(c, e) then {}
    else set s | s in c.pending && now < c.pending[s].createdAt + c.policy.clarificationTimeout && s != e.session
  }

  /** The core once a served command has its numbers. */
  ghost predicate Ready(c: Core, e: Envelope, now: real, h: Core) {
    && h.agent == c.agent && h.policy == c.policy && h.sourceSeq == c.sourceSeq + 1
    && h.generation == NextGeneration(c, e)
    && (e.session in h.pending <==> IsAsked(c, e, now))
    && (e.session in h.pending ==> h.pending[e.session] == c.pending[e.session])
    && h.pending.Keys - {e.session} == AskedElsewhere(c, e, now) && h.asked == c.asked
    && (forall s <- AskedElsewhere(c, e, now) :: s in c.pending && s in h.pending && h.pending[s] == c.pending[s])
  }

  /** What the fence leaves of the questions. */
  lemma FencedQuestions(c: Core, e: Envelope, now: real)
    requires Passes(c, e)
    ensures var f := c.ExpirePending(now).Fence(e).0;
            && (e.session in f.pending <==> IsAsked(c, e, now))
            && (e.session in f.pending ==> f.pending[e.session] == c.pending[e.session])
            && f.pending.Keys - {e.session} == AskedElsewhere(c, e, now) && f.asked == c.asked
            && (forall s <- AskedElsewhere(c, e, now) :: s in c.pending && s in f.pending && f.pending[s] == c.pending[s])
  {
    var f := c.ExpirePending(now).Fence(e).0;
    assert f.pending == if TakesOver(c, e) then map[] else c.ExpirePending(now).pending;
    hide Core.Fence;
  }

  lemma FencedFields(c: Core, e: Envelope, now: real)
    requires Passes(c, e)
    ensures var (f, refusal) := c.ExpirePending(now).Fence(e);
            && refusal.None? && f.agent == c.agent && f.policy == c.policy && f.sourceSeq == c.sourceSeq
            && f.generation + 1 == NextGeneration(c, e)
  {
  }

  lemma ServingReadies(c: Core, t: Turn, e: Envelope) returns (h: Core)
    requires Commands(t, e) && IsServed(c, e)
    ensures Ready(c, e, t.now, h) && c.HandleTurn(t) == h.Command(e, t.snapshot, t.commitNow)
  {
    hide ValidEnvelope, Core.Command, Core.Fence, Core.ExpirePending, AskedElsewhere, IsAsked, NextGeneration;
    FencedFields(c, e, t.now);
    FencedQuestions(c, e, t.now);
    var f := c.ExpirePending(t.now).Fence(e).0;
    h := f.(admitted := f.admitted + [(e.instance, e.seqNo)]).Allocate().value;
  }

  /** A turn that is not a served command is never given a Mission, a cancel, a question or a planner. */
  lemma UnservedTurns(c: Core, t: Turn)
    requires forall e :: Commands(t, e) ==> !IsServed(c, e)
    ensures var d := c.HandleTurn(t).1; d.StopDecision? || d.Ignored? || d.ReplyDecision?
  {
    hide ValidEnvelope, Core.Command;
    if t.envelope.Some? && ValidEnvelope(t.envelope.value) {
      var e := t.envelope.value;
      assert Commands(t, e) <==> !e.stop && !e.reading.stopClause;
    }
  }

  // ---- what a served command is given

  /** The command has a snapshot to be judged by and is no cancel. */
  predicate IsJudged(c: Core, e: Envelope, offered: Option<Snapshot>) {
    IsServed(c, e) && SnapshotVerdict(offered).Accepted? && !e.reading.cancel
  }

  /** The text says nothing of its own, so it is taken for an answer if one is awaited. */
  predicate IsAnswer(c: Core, e: Envelope, now: real) {
    !e.reading.empty && OnlyUnknown(e.reading.clauses) && IsAsked(c, e, now)
  }

  /** The decision of a judged command is that of what its text is understood as. */
  lemma JudgingDecides(h: Core, e: Envelope, s: Snapshot, now: real)
    requires SnapshotVerdict(Some(s)).Accepted? && !e.reading.cancel
    ensures h.Command(e, Some(s), now) == h.UseUp(e.session).Decide(h.Understand(e, s), e, h.TokenFor(e, s), now)
  {
    hide SnapshotVerdict, Core.Decide, Core.Understand, Core.UseUp, Core.TokenFor;
  }

  lemma Understanding(h: Core, e: Envelope, s: Snapshot)
    requires !e.reading.cancel
    ensures var r := e.reading; var parse := h.Understand(e, s);
            if !r.empty && OnlyUnknown(r.clauses) then
              if e.session in h.pending then
                var i := h.pending[e.session].intent;
                && (parse.Complete? <==> Tells(r, i, s)) && (parse.AskAgain? <==> TellsNothing(r, i))
                && !parse.Missing? && !parse.Unknown? && !parse.CancelTask?
                && (parse.AskAgain? ==> parse.intent == i)
                && (parse.Complete? ==> Completes(parse.steps, r, i, h.policy))
              else parse.Unknown?
            else
              && !parse.Unknown? && !parse.AskAgain? && !parse.CancelTask?
              && (parse.Complete? <==> Short(r) && AllSteps(r.clauses))
              && (parse.Complete? ==> |parse.steps| == |r.clauses| && AreTheClauses(r.clauses, 0, parse.steps))
              && (parse.Missing? <==> Short(r) && exists m :: OneMissing(r.clauses, m))
              && (parse.Missing? ==> exists m :: Leaves(r.clauses, m, parse.intent))
  {
    hide ParseText, AnswerPending, Tells, TellsNothing, Completes, OneMissing, Leaves, AreTheClauses;
    CompleteReading(e.reading);
    MissingReading(e.reading);
    UnknownReading(e.reading);
    if e.session in h.pending {
      Answering(e.reading, h.pending[e.session].intent, s, h.policy);
    }
  }

  lemma TokenIsNew(c: Core, e: Envelope, s: Snapshot, now: real, h: Core)
    requires Ready(c, e, now, h)
    ensures h.TokenFor(e, s) == NewToken(c, e, s)
  {
  }

  lemma Deciding(c: Core, parse: Parse, e: Envelope, t: Token, now: real)
    ensures var d := c.Decide(parse, e, t, now).1;
            && (d.CancelDecision? <==> parse.CancelTask?)
            && (d.PlannerNeeded? <==> parse.Unknown?) && (d.PlannerNeeded? ==> d.token == t)
            && (d.MissionDecision? <==> parse.Complete? && Validate(parse.steps, t, c.policy).Accepted?)
            && (d.MissionDecision? ==> d == MissionDecision(parse.steps, t))
            && (d.ClarifyDecision? ==> parse.Missing? || parse.AskAgain?)
            && !d.StopDecision? && !d.Ignored?
  {
    hide Validate, SiblingVerdict;
  }

  /** The decisions that a served command can get, and when. */
  ghost predicate Gets(c: Core, e: Envelope, offered: Option<Snapshot>, now: real, d: Decision) {
    var r := e.reading;
    var judged := SnapshotVerdict(offered).Accepted? && !r.cancel;
    var answers := IsAnswer(c, e, now);
    && (d.CancelDecision? <==> r.cancel)
    && (d.CancelDecision? ==> d == CancelDecision(c.sourceSeq + 1, e.session))
    && (d.PlannerNeeded? <==> judged && !r.empty && OnlyUnknown(r.clauses) && !answers)
    && (d.PlannerNeeded? && judged ==> d.token == NewToken(c, e, offered.value))
    && (d.MissionDecision? <==> judged && exists steps :: IsUnderstood(c, e, offered.value, now, steps)
                                             && Validate(steps, NewToken(c, e, offered.value), c.policy).Accepted?)
    && (d.MissionDecision? && judged ==>
          d.token == NewToken(c, e, offered.value) && IsUnderstood(c, e, offered.value, now, d.steps))
    && !d.StopDecision? && !d.Ignored?
  }

  /** The steps are what the text means: the steps around the answer it gives, or its own clauses one for one. */
  predicate IsUnderstood(c: Core, e: Envelope, s: Snapshot, now: real, steps: seq<Step>) {
    var r := e.reading;
    if IsAnswer(c, e, now) then
      var i := c.pending[e.session].intent;
      Tells(r, i, s) && Completes(steps, r, i, c.policy)
    else Short(r) && |steps| == |r.clauses| && AreTheClauses(r.clauses, 0, steps)
  }

  /** No two sequences of steps are both what the text means, and there is one exactly when the parse is complete. */
  lemma UnderstoodOnce(c: Core, e: Envelope, s: Snapshot, now: real, h: Core)
    requires Ready(c, e, now, h) && !e.reading.cancel
    ensures var parse := h.Understand(e, s);
            && (parse.Complete? ==> IsUnderstood(c, e, s, now, parse.steps))
            && (forall steps :: IsUnderstood(c, e, s, now, steps) ==> parse == Complete(steps))
  {
    hide Core.Understand, Completes, Tells;
    Understanding(h, e, s);
    var parse, r := h.Understand(e, s), e.reading;
    forall steps | IsUnderstood(c, e, s, now, steps) ensures parse == Complete(steps) {
      if IsAnswer(c, e, now) {
        OneCompletion(steps, parse.steps, r, c.pending[e.session].intent, c.policy);
      } else {
        assert OnlyUnknown(r.clauses) ==> !IsStep(r.clauses, 0);
        forall k | 0 <= k < |r.clauses| ensures IsStep(r.clauses, k) {
          assert Is(r.clauses, 0 + k, steps[k]);
        }
        assert parse.Complete?;
        OneReading(steps, parse.steps, r.clauses, 0);
      }
    }
  }

  /**
    In every state, a served command is decided as a cancel, a planner's business or a Mission
    exactly when its reading, the snapshot and the open question say so. The Mission's steps are
    the clauses of the text one for one and in order, or the steps known before around the answer;
    it and the planner are given the same fresh token.
   */
  lemma ServedCommandGets(c: Core, t: Turn, e: Envelope)
    requires Commands(t, e) && IsServed(c, e)
    ensures Gets(c, e, t.snapshot, t.now, c.HandleTurn(t).1)
  {
    hide Core.HandleTurn, Core.Understand, Core.Decide, ValidEnvelope, SnapshotVerdict, Validate, IsUnderstood,
      Core.UseUp, Core.TokenFor, NewToken;
    var h := ServingReadies(c, t, e);
    if !e.reading.cancel && SnapshotVerdict(t.snapshot).Accepted? {
      assert t.snapshot.Some? by { AcceptedIsOffered(t.snapshot); }
      var s := t.snapshot.value;
      JudgingDecides(h, e, s, t.commitNow);
      Understanding(h, e, s);
      UnderstoodOnce(c, e, s, t.now, h);
      TokenIsNew(c, e, s, t.now, h);
      UsingUpKeepsPolicy(h, e.session);
      Deciding(h.UseUp(e.session), h.Understand(e, s), e, h.TokenFor(e, s), t.commitNow);
    }
  }

  lemma AcceptedIsOffered(offered: Option<Snapshot>)
    ensures SnapshotVerdict(offered).Accepted? ==> offered.Some?
  {
  }

  lemma UsingUpKeepsPolicy(h: Core, session: string)
    ensures h.UseUp(session).policy == h.policy
  {
  }

  // ---- questions

  /** The text leaves this open: one clause's parameter, or still what was asked for. */
  ghost predicate IsOpen(c: Core, e: Envelope, now: real, i: Intent) {
    if IsAnswer(c, e, now) then i == c.pending[e.session].intent && TellsNothing(e.reading, i)
    else Short(e.reading) && exists m :: Leaves(e.reading.clauses, m, i)
  }

  lemma OneOpen(clauses: seq<Option<Clause>>, m: nat, i: Intent, n: nat, j: Intent)
    requires Leaves(clauses, m, i) && Leaves(clauses, n, j)
    ensures i == j
  {
    assert m != n ==> IsStep(clauses, n);
    OneReading(i.prefix, j.prefix, clauses, 0);
    OneReading(i.suffix, j.suffix, clauses, m + 1);
  }

  lemma OpenOnce(c: Core, e: Envelope, s: Snapshot, now: real, h: Core)
    requires Ready(c, e, now, h) && !e.reading.cancel
    ensures var parse := h.Understand(e, s);
            && (parse.Missing? || parse.AskAgain? ==> IsOpen(c, e, now, parse.intent))
            && (forall i :: IsOpen(c, e, now, i) ==> (parse.Missing? || parse.AskAgain?) && parse.intent == i)
  {
    hide Core.Understand, Completes, Tells, TellsNothing, Leaves;
    Understanding(h, e, s);
    var parse, r := h.Understand(e, s), e.reading;
    forall i | IsOpen(c, e, now, i) ensures (parse.Missing? || parse.AskAgain?) && parse.intent == i {
      if !IsAnswer(c, e, now) {
        var m :| Leaves(r.clauses, m, i);
        MissingIsNotUnknown(r.clauses, m, i);
        var n :| Leaves(r.clauses, n, parse.intent);
        OneOpen(r.clauses, m, i, n, parse.intent);
      }
    }
  }

  lemma MissingIsNotUnknown(clauses: seq<Option<Clause>>, m: nat, i: Intent)
    requires Leaves(clauses, m, i)
    ensures OneMissing(clauses, m) && !OnlyUnknown(clauses)
  {
  }

  /** Asking stores the question, exactly when its known steps pass and there is room for it. */
  lemma AskingStores(c: Core, i: Intent, e: Envelope, t: Token, now: real)
    requires e.session !in c.pending
    ensures var (d, x) := c.Ask(i, e, t, now);
            if SiblingVerdict(i.prefix, i.suffix, t, c.policy).Accepted? && |c.pending.Keys| < c.policy.clarificationCapacity
            then x == ClarifyDecision(e.session, i.parameter)
                 && d.pending == c.pending[e.session := Pending(i, now, t, c.asked)]
            else x.ReplyDecision? && d.pending == c.pending
  {
    hide SiblingVerdict;
    assert c.pending - {e.session} == c.pending;
  }

  /** The question that a served command leaves behind, and the questions of the others. */
  ghost predicate Asks(c: Core, t: Turn, e: Envelope, d: Core, x: Decision) {
    var elsewhere := AskedElsewhere(c, e, t.now);
    && (x.ClarifyDecision? <==>
          && SnapshotVerdict(t.snapshot).Accepted? && !e.reading.cancel && |elsewhere| < c.policy.clarificationCapacity
          && exists i :: IsOpen(c, e, t.now, i)
                         && SiblingVerdict(i.prefix, i.suffix, NewToken(c, e, t.snapshot.value), c.policy).Accepted?)
    && (x.ClarifyDecision? && t.snapshot.Some? ==>
          && e.session in d.pending
          && var p := d.pending[e.session];
             && x == ClarifyDecision(e.session, p.intent.parameter) && IsOpen(c, e, t.now, p.intent)
             && p == Pending(p.intent, t.commitNow, NewToken(c, e, t.snapshot.value), c.asked))
    && (!x.ClarifyDecision? ==> e.session !in d.pending)
    && d.pending.Keys - {e.session} == elsewhere
    && (forall s <- elsewhere :: s in c.pending && s in d.pending && d.pending[s] == c.pending[s])
  }

  lemma DecidingLeavesQuestions(c: Core, parse: Parse, e: Envelope, t: Token, now: real)
    ensures var (d, x) := c.Decide(parse, e, t, now);
            if parse.Missing? || parse.AskAgain? then (d, x) == c.Ask(parse.intent, e, t, now)
            else !x.ClarifyDecision? && d.pending == c.pending
  {
    hide Validate, SiblingVerdict, Core.Ask;
  }

  lemma UsedUp(c: Core, e: Envelope, now: real, h: Core)
    requires Ready(c, e, now, h)
    ensures var u := h.UseUp(e.session);
            && u.pending.Keys == AskedElsewhere(c, e, now) && e.session !in u.pending
            && (forall s <- AskedElsewhere(c, e, now) :: s in c.pending && s in u.pending && u.pending[s] == c.pending[s])
            && u.policy == c.policy && u.asked == c.asked
  {
  }

  lemma AskedAfter(c: Core, t: Turn, e: Envelope, u: Core, d: Core, x: Decision, i: Intent)
    requires t.snapshot.Some? && SnapshotVerdict(t.snapshot).Accepted? && !e.reading.cancel && IsOpen(c, e, t.now, i)
    requires forall j :: IsOpen(c, e, t.now, j) ==> j == i
    requires u.pending.Keys == AskedElsewhere(c, e, t.now) && e.session !in u.pending && u.policy == c.policy
    requires forall s <- AskedElsewhere(c, e, t.now) :: s in c.pending && s in u.pending && u.pending[s] == c.pending[s]
    requires var token := NewToken(c, e, t.snapshot.value); var p := Pending(i, t.commitNow, token, c.asked);
             if SiblingVerdict(i.prefix, i.suffix, token, u.policy).Accepted? && |u.pending.Keys| < u.policy.clarificationCapacity
             then x == ClarifyDecision(e.session, i.parameter) && d.pending == u.pending[e.session := p]
             else x.ReplyDecision? && d.pending == u.pending
    ensures Asks(c, t, e, d, x)
  {
    hide SnapshotVerdict, SiblingVerdict, IsOpen, NewToken, AskedElsewhere;
    if x.ClarifyDecision? {
      assert d.pending.Keys == u.pending.Keys + {e.session};
      assert d.pending.Keys - {e.session} == u.pending.Keys;
      assert IsOpen(c, e, t.now, d.pending[e.session].intent);
    } else {
      assert e.session !in d.pending;
      assert d.pending.Keys - {e.session} == u.pending.Keys;
    }
  }

  lemma NotAskedAfter(c: Core, t: Turn, e: Envelope, u: Core, d: Core, x: Decision)
    requires SnapshotVerdict(t.snapshot).Accepted? && !e.reading.cancel ==> forall i :: !IsOpen(c, e, t.now, i)
    requires u.pending.Keys == AskedElsewhere(c, e, t.now) && e.session !in u.pending
    requires forall s <- AskedElsewhere(c, e, t.now) :: s in c.pending && s in u.pending && u.pending[s] == c.pending[s]
    requires !x.ClarifyDecision? && d.pending == u.pending
    ensures Asks(c, t, e, d, x)
  {
    hide SnapshotVerdict, SiblingVerdict, IsOpen, NewToken, AskedElsewhere;
  }

  /**
    In every state, a served command asks a question exactly when its text leaves one parameter
    open, the steps it knows pass their check and there is room; the question keeps the steps of
    the clauses before and behind the open one. Its session's earlier question is gone, and those
    of the others stay exactly until they are out of date or another instance takes over.
   */
  lemma ServedCommandAsks(c: Core, t: Turn, e: Envelope)
    requires Commands(t, e) && IsServed(c, e)
    ensures var (d, x) := c.HandleTurn(t); Asks(c, t, e, d, x)
  {
    hide Core.HandleTurn, Core.Understand, Core.Decide, ValidEnvelope, SnapshotVerdict, SiblingVerdict, IsOpen,
      Core.UseUp, Core.TokenFor, NewToken, Core.Ask, AskedElsewhere, Asks;
    var h := ServingReadies(c, t, e);
    UsedUp(c, e, t.now, h);
    var u := h.UseUp(e.session);
    var (d, x) := c.HandleTurn(t);
    if !e.reading.cancel && SnapshotVerdict(t.snapshot).Accepted? {
      assert t.snapshot.Some? by { AcceptedIsOffered(t.snapshot); }
      var s := t.snapshot.value;
      JudgingDecides(h, e, s, t.commitNow);
      OpenOnce(c, e, s, t.now, h);
      TokenIsNew(c, e, s, t.now, h);
      var parse, token := h.Understand(e, s), h.TokenFor(e, s);
      DecidingLeavesQuestions(u, parse, e, token, t.commitNow);
      if parse.Missing? || parse.AskAgain? {
        AskingStores(u, parse.intent, e, token, t.commitNow);
        AskedAfter(c, t, e, u, d, x, parse.intent);
      } else {
        NotAskedAfter(c, t, e, u, d, x);
      }
    } else {
      NotAskedAfter(c, t, e, u, d, x);
    }
  }

  // ---- step by step

  lemma DecidedIsServed(c: Core, t: Turn)
    requires var d := c.HandleTurn(t).1; d.MissionDecision? || d.ClarifyDecision?
    ensures t.envelope.Some? && Commands(t, t.envelope.value) && IsServed(c, t.envelope.value)
  {
    hide Core.HandleTurn, ValidEnvelope, IsServed;
    if !(t.envelope.Some? && Commands(t, t.envelope.value) && IsServed(c, t.envelope.value)) {
      assert forall e :: Commands(t, e) ==> t.envelope == Some(e);
      UnservedTurns(c, t);
    }
  }

  /** A Mission that answers no question consists of the clauses' steps, one for one and in the order spoken. */
  lemma MissionIsTheClauses(c: Core, t: Turn)
    requires c.HandleTurn(t).1.MissionDecision? && t.envelope.Some? && !IsAnswer(c, t.envelope.value, t.now)
    ensures var steps := c.HandleTurn(t).1.steps; var clauses := t.envelope.value.reading.clauses;
            |steps| == |clauses| && forall k :: 0 <= k < |steps| ==> clauses[k] == Some(StepClause(steps[k]))
  {
    hide Core.HandleTurn, ValidEnvelope, IsServed, SnapshotVerdict, Validate, NewToken, IsAnswer, Short;
    DecidedIsServed(c, t);
    ServedCommandGets(c, t, t.envelope.value);
    AcceptedIsOffered(t.snapshot);
    var steps, clauses := c.HandleTurn(t).1.steps, t.envelope.value.reading.clauses;
    forall k | 0 <= k < |steps| ensures clauses[k] == Some(StepClause(steps[k])) {
      assert Is(clauses, 0 + k, steps[k]);
    }
  }

  /**
    A question about clause `m` keeps the steps of the clauses before it and of those behind it,
    one for one and in the order spoken.
   */
  lemma QuestionKeepsTheClauses(c: Core, t: Turn) returns (m: nat)
    requires c.HandleTurn(t).1.ClarifyDecision? && t.envelope.Some? && !IsAnswer(c, t.envelope.value, t.now)
    ensures var d := c.HandleTurn(t).0; var clauses := t.envelope.value.reading.clauses;
            && t.envelope.value.session in d.pending
            && var i := d.pending[t.envelope.value.session].intent;
               && m < |clauses| && clauses[m] == Some(MissingClause(i.parameter, i.sign))
               && |i.prefix| == m && (forall k :: 0 <= k < m ==> clauses[k] == Some(StepClause(i.prefix[k])))
               && |i.suffix| == |clauses| - m - 1
               && (forall k :: 0 <= k < |i.suffix| ==> clauses[m + 1 + k] == Some(StepClause(i.suffix[k])))
  {
    hide Core.HandleTurn, ValidEnvelope, IsServed, SnapshotVerdict, SiblingVerdict, NewToken, IsAnswer, Short, AskedElsewhere,
      OneMissing;
    DecidedIsServed(c, t);
    var e := t.envelope.value;
    ServedCommandAsks(c, t, e);
    AcceptedIsOffered(t.snapshot);
    var i, clauses := c.HandleTurn(t).0.pending[e.session].intent, e.reading.clauses;
    m :| Leaves(clauses, m, i);
    MissingIsThere(clauses, m);
    forall k | 0 <= k < |i.prefix| ensures clauses[k] == Some(StepClause(i.prefix[k])) {
      assert Is(clauses, 0 + k, i.prefix[k]);
    }
    forall k | 0 <= k < |i.suffix| ensures clauses[m + 1 + k] == Some(StepClause(i.suffix[k])) {
      assert Is(clauses, m + 1 + k, i.suffix[k]);
    }
  }

  lemma MissingIsThere(clauses: seq<Option<Clause>>, m: nat)
    requires OneMissing(clauses, m)
    ensures m < |clauses| && clauses[m].Some?
  {
  }
}
