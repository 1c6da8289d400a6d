/** What the node is given in the planner's name: what the planner answered, and nothing else. */
module AgentEngineAnswers {
  import opened Wrappers
  import opened AgentEngineState
  import opened AgentEngineRuns
  import opened AgentEngineTheorems

  /** The outcome that an answer deserves; a second wish to read the snapshot is only talked about. */
  predicate Says(answer: Said, kind: Kind) {
    match answer.response
    case Answer(what) => kind == Ordinary(what)
    case ReadSnapshot => if answer.request.round == 1 then kind == Unavailable else kind == Ordinary(Speak)
  }

  predicate AnsweredAt(answers: seq<Said>, k: nat, r: Request, kind: Kind) {
    k < |answers| && answers[k].request == r && Says(answers[k], kind)
  }

  /** The planner gave this request an answer that deserves this outcome. */
  ghost predicate Answered(answers: seq<Said>, r: Request, kind: Kind) {
    exists k: nat :: AnsweredAt(answers, k, r, kind)
  }

  /** What a worker carries is what the planner answered. */
  ghost predicate Carries(w: Worker, answers: seq<Said>) {
    match w
    case Releasing(r, response) => Said(r, response) in answers
    case Answering(r, response) => Said(r, response) in answers
    case Continuing(r, _) => r.round == 1 && Said(r, ReadSnapshot) in answers
    case Restoring(r, _) => r.round == 1 && Said(r, ReadSnapshot) in answers
    case Committing(r, kind) => Answered(answers, r, kind)
    case _ => true
  }

  ghost predicate Founded(o: Outcome, answers: seq<Said>) {
    o.request.Some? ==> Answered(answers, o.request.value, o.kind)
  }

  ghost predicate AnswersHold(s: System) {
    && (forall i :: 0 <= i < |s.workers| ==> Carries(s.workers[i], s.answers))
    && (forall i :: 0 <= i < |s.e.minted| ==> Founded(s.e.minted[i].outcome, s.answers))
    && (forall i :: 0 <= i < |s.deliveries| ==> Founded(s.deliveries[i].outcome, s.answers))
  }

  lemma HereIsTheAnswer(answers: seq<Said>, a: Said, kind: Kind)
    requires a in answers && Says(a, kind)
    ensures Answered(answers, a.request, kind)
  {
    var k: nat :| k < |answers| && answers[k] == a;
    assert AnsweredAt(answers, k, a.request, kind);
  }

  /** An answer more leaves all of them founded. */
  lemma AnswersStay(answers: seq<Said>, a: Said, r: Request, kind: Kind)
    requires Answered(answers, r, kind)
    ensures Answered(answers + [a], r, kind)
  {
    var k: nat :| AnsweredAt(answers, k, r, kind);
    assert AnsweredAt(answers + [a], k, r, kind);
  }

  lemma DeliveringHolds(s: System, lease: nat)
    requires AnswersHold(s)
    ensures AnswersHold(Deliver(s, lease))
  {
    hide Carries, Founded;
  }

  lemma MainHolds(s: System, section: Section, rest: seq<Section>)
    requires AnswersHold(s)
    ensures AnswersHold(MainStep(s, section, rest))
  {
    if section.Delivering? {
      DeliveringHolds(s, s.main.lease);
    } else {
      hide Answered;
    }
  }

  lemma PlannerAnswers(s: System, i: nat, r: Request, response: Response)
    requires AnswersHold(s) && i < |s.workers|
    ensures AnswersHold(Put(s, i, Releasing(r, response)).(answers := s.answers + [Said(r, response)]))
  {
    var a := Said(r, response);
    forall q, kind | Answered(s.answers, q, kind) ensures Answered(s.answers + [a], q, kind) {
      AnswersStay(s.answers, a, q, kind);
    }
    hide Answered;
  }

  lemma WorkerHolds(s: System, i: nat, response: Response)
    requires AnswersHold(s) && i < |s.workers|
    ensures AnswersHold(WorkerStep(s, i, s.workers[i], response))
  {
    var w := s.workers[i];
    assert Carries(w, s.answers);
    match w
    case Waiting(r) => PlannerAnswers(s, i, r, response);
    case Answering(r, answer) =>
      if answer.Answer? {
        HereIsTheAnswer(s.answers, Said(r, answer), Ordinary(answer.what));
      } else if r.round != 1 {
        HereIsTheAnswer(s.answers, Said(r, answer), Ordinary(Speak));
      }
      hide Answered;
    case Restoring(r, _) =>
      HereIsTheAnswer(s.answers, Said(r, ReadSnapshot), Unavailable);
      hide Answered;
    case Handing(_, lease) => DeliveringHolds(s, lease); hide Answered;
    case _ => hide Answered;
  }

  lemma {:induction false} AnswersAlwaysHold(steps: seq<Step>, n: nat)
    requires n <= |steps|
    ensures AnswersHold(Run(steps, n))
  {
    hide MainStep, WorkerStep, AnswersHold;
    if n == 0 {
      NothingAnswered();
    } else {
      AnswersAlwaysHold(steps, n - 1);
      var s := Run(steps, n - 1);
      match steps[n - 1]
      case Begin(_) => MainProgramDoesNotMatter(s, Next(s, steps[n - 1]).main);
      case Proceed => if s.main.program != [] { MainHolds(s, s.main.program[0], s.main.program[1..]); }
      case Work(i, response) => if i < |s.workers| { WorkerHolds(s, i, response); }
    }
  }

  lemma NothingAnswered()
    ensures AnswersHold(BEGIN)
  {
  }

  lemma MainProgramDoesNotMatter(s: System, m: Main)
    requires AnswersHold(s)
    ensures AnswersHold(s.(main := m))
  {
  }

  /**
    In every run, an outcome delivered in the name of a planner request is what the planner
    answered to that very request: the effect it named, or mere words for a second wish to read
    the snapshot. A first such wish never reaches the node as an outcome of its own.
   */
  lemma {:induction false} DeliveriesSayWhatThePlannerSaid(steps: seq<Step>, i: nat)
    requires i < |Run(steps, |steps|).deliveries| && Run(steps, |steps|).deliveries[i].outcome.request.Some?
    ensures var s := Run(steps, |steps|); var o := s.deliveries[i].outcome;
            exists k: nat :: k < |s.answers| && s.answers[k].request == o.request.value
                             && (if s.answers[k].response.Answer? then o.kind == Ordinary(s.answers[k].response.what)
                                 else s.answers[k].request.round != 1 && o.kind == Ordinary(Speak))
  {
    hide Run, Next;
    AnswersAlwaysHold(steps, |steps|);
    PlannerIsNeverUnavailable(steps, i);
    var s := Run(steps, |steps|);
    var o := s.deliveries[i].outcome;
    assert Founded(o, s.answers);
    var k: nat :| AnsweredAt(s.answers, k, o.request.value, o.kind);
    assert k < |s.answers|;
  }

  // ---- an undisturbed answer

  /** `k` steps of worker `i`. */
  function Working(s: System, i: nat, response: Response, k: nat): System {
    if k == 0 then s else Next(Working(s, i, response, k - 1), Work(i, response))
  }

  /** An undisturbed planner answer to a request that is still the current one is delivered, as what it says. */
  lemma {:induction false} UndisturbedAnswerIsDelivered(s: System, i: nat, r: Request, what: Effect)
    requires i < |s.workers| && s.workers[i] == Waiting(r) && s.p.Delivers(r) && s.e.Current(r) && s.main.program == []
    ensures var t := Working(s, i, Answer(what), 5);
            && |t.deliveries| == |s.deliveries| + 1
            && t.deliveries[|s.deliveries|].outcome == Outcome(Ordinary(what), r.generation, Some(r))
            && t.e.active.None? && t.p.active.None?
  {
    var s1 := Put(s, i, Releasing(r, Answer(what))).(answers := s.answers + [Said(r, Answer(what))]);
    assert Working(s, i, Answer(what), 1) == s1;
    var s2 := Put(s1, i, Answering(r, Answer(what))).(p := s.p.Release(r));
    assert Working(s, i, Answer(what), 2) == s2;
    var s3 := Put(s2, i, Committing(r, Ordinary(what)));
    assert Working(s, i, Answer(what), 3) == s3;
    var e := s.e.(active := None).Mint(Outcome(Ordinary(what), r.generation, Some(r)));
    var s4 := Put(s3, i, Handing(r, |s.e.minted|)).(e := e);
    assert Working(s, i, Answer(what), 4) == s4;
  }
}
