/** What the pipeline can answer when the pump drives it from the audio engine. */
module VadRuns {
  import opened Wrappers
  import opened DspState
  import opened DspRuns
  import opened VadSession
  import AudioEngineRuns
  import AudioLockstep

  function SequenceNumber(k: nat): nat {
    (k + 1) % TWO_64
  }

  /** The inputs of a run of pumps: the captures' generations, the next sequence numbers, any adapter answers. */
  function Inputs(generations: seq<nat>, replies: seq<Reply>): (inputs: seq<Input>)
    requires |generations| == |replies|
    ensures |inputs| == |generations|
  {
    seq(|generations|, k requires 0 <= k < |generations| => DrivenInput(generations[k], SequenceNumber(k), replies[k]))
  }

  predicate NonDecreasing(g: seq<nat>) {
    forall i, j :: 0 <= i <= j < |g| ==> g[i] <= g[j]
  }

  /** The adapter failed on an earlier input, before `k`, of the given generation. */
  predicate FailedBefore(generations: seq<nat>, replies: seq<Reply>, k: nat, g: nat)
    requires k <= |generations| == |replies|
  {
    exists j :: 0 <= j < k && generations[j] == g && !Accepted(replies[j])
  }

  /** The pipeline after `k` driven inputs. */
  predicate Driven(p: Pipeline, generations: seq<nat>, replies: seq<Reply>, k: nat)
    requires k <= |generations| == |replies|
  {
    && p.configurationValid
    && (p.hasGeneration <==> 0 < k)
    && (0 < k ==>
          && p.generation == generations[k - 1]
          && (p.quarantined <==> FailedBefore(generations, replies, k, p.generation))
          && (!p.quarantined ==> p.expected == SequenceNumber(k)))
  }

  /** The status the pump gets for input `k`. */
  function Answer(generations: seq<nat>, replies: seq<Reply>, k: nat): Status
    requires k < |generations| == |replies|
  {
    if FailedBefore(generations, replies, k, generations[k]) then Rejected
    else if Accepted(replies[k]) then Cleaned
    else AdapterFailure
  }

  lemma NextSequence(k: nat)
    ensures SequenceNumber(k + 1) == (SequenceNumber(k) + 1) % TWO_64
  {
  }

  lemma DrivenStep(p: Pipeline, generations: seq<nat>, replies: seq<Reply>, k: nat)
    requires k < |generations| == |replies| && NonDecreasing(generations)
    requires BetweenFrames(p) && Driven(p, generations, replies, k)
    ensures var i := DrivenInput(generations[k], SequenceNumber(k), replies[k]);
            && p.Process(i).1.status == Answer(generations, replies, k)
            && Driven(Step(p, i), generations, replies, k + 1)
  {
    NextSequence(k);
    var g := generations[k];
    if 0 < k && generations[k - 1] < g {
      assert !FailedBefore(generations, replies, k, g);
    }
    assert FailedBefore(generations, replies, k + 1, g) <==>
             FailedBefore(generations, replies, k, g) || !Accepted(replies[k]);
  }

  lemma {:induction false} DrivenRun(generations: seq<nat>, replies: seq<Reply>, k: nat)
    requires k <= |generations| == |replies| && NonDecreasing(generations)
    ensures Driven(After(Fresh(true), Inputs(generations, replies)[..k]), generations, replies, k)
  {
    hide Driven, Step;
    if k == 0 {
      NotYetDriven(generations, replies);
    } else {
      DrivenRun(generations, replies, k - 1);
      DrivenStep(After(Fresh(true), Inputs(generations, replies)[..k - 1]), generations, replies, k - 1);
      OneMore(Fresh(true), Inputs(generations, replies), k - 1);
    }
  }

  lemma NotYetDriven(generations: seq<nat>, replies: seq<Reply>)
    requires |generations| == |replies|
    ensures Driven(Fresh(true), generations, replies, 0)
  {
  }

  // ---- the session drives exactly these inputs

  /** The session and the pipeline after some pumps. */
  datatype Joint = Joint(session: State, dsp: Pipeline)

  function PumpAll(offers: seq<Offer>, n: nat): (j: Joint)
    requires n <= |offers|
    ensures BetweenFrames(j.dsp)
  {
    if n == 0 then Joint(NEW_SESSION, Fresh(true))
    else
      var j := PumpAll(offers, n - 1);
      PumpKeepsBoundary(j, offers[n - 1]);
      var (s, p, _) := PumpState(j.session, j.dsp, offers[n - 1]);
      Joint(s, p)
  }

  lemma PumpKeepsBoundary(j: Joint, o: Offer)
    requires BetweenFrames(j.dsp)
    ensures BetweenFrames(PumpState(j.session, j.dsp, o).1)
  {
    if o.Both? {
      ProcessKeepsBoundary(j.dsp, DrivenInput(o.generation, j.session.nextSequence, o.reply));
    }
  }

  /** The captures handed over by the first `n` pumps, in order: their generations. */
  function Generations(offers: seq<Offer>, n: nat): seq<nat>
    requires n <= |offers|
  {
    if n == 0 then []
    else Generations(offers, n - 1) + if offers[n - 1].Both? then [offers[n - 1].generation] else []
  }

  /** The adapter's answers to them. */
  function Replies(offers: seq<Offer>, n: nat): (r: seq<Reply>)
    requires n <= |offers|
    ensures |r| == |Generations(offers, n)|
  {
    if n == 0 then []
    else Replies(offers, n - 1) + if offers[n - 1].Both? then [offers[n - 1].reply] else []
  }

  lemma OneMoreInput(generations: seq<nat>, replies: seq<Reply>, g: nat, r: Reply)
    requires |generations| == |replies|
    ensures Inputs(generations + [g], replies + [r])
         == Inputs(generations, replies) + [DrivenInput(g, SequenceNumber(|generations|), r)]
  {
  }

  /** Whatever is offered, the session drives the pipeline with exactly the captures handed over, numbered from one. */
  lemma {:induction false} PumpsDriveThePipeline(offers: seq<Offer>, n: nat)
    requires n <= |offers|
    ensures var j := PumpAll(offers, n);
            && j.session.inputs == Inputs(Generations(offers, n), Replies(offers, n))
            && j.session.nextSequence == SequenceNumber(|j.session.inputs|)
            && j.dsp == After(Fresh(true), j.session.inputs)
  {
    hide PumpState, Inputs, SequenceNumber, Step, After, PumpAll;
    if n == 0 {
      NothingDriven(offers);
    } else {
      PumpsDriveThePipeline(offers, n - 1);
      var j, o := PumpAll(offers, n - 1), offers[n - 1];
      PumpDrives(j, o);
      OnePumpMore(offers, n);
      if o.Both? {
        NextSequence(|j.session.inputs|);
        OneMoreInput(Generations(offers, n - 1), Replies(offers, n - 1), o.generation, o.reply);
      } else {
        assert Generations(offers, n) == Generations(offers, n - 1) && Replies(offers, n) == Replies(offers, n - 1);
      }
    }
  }

  lemma OnePumpMore(offers: seq<Offer>, n: nat)
    requires 0 < n <= |offers|
    ensures var j := PumpAll(offers, n - 1); var (s, p, _) := PumpState(j.session, j.dsp, offers[n - 1]);
            PumpAll(offers, n) == Joint(s, p)
  {
    hide PumpState;
  }

  lemma {:induction false} NothingDriven(offers: seq<Offer>)
    ensures Inputs([], []) == [] && SequenceNumber(0) == 1
    ensures PumpAll(offers, 0) == Joint(NEW_SESSION, Fresh(true)) && After(Fresh(true), []) == Fresh(true)
  {
  }

  /** One pump drives the pipeline with one input if it is offered a pair, and not at all otherwise. */
  lemma PumpDrives(j: Joint, o: Offer)
    requires BetweenFrames(j.dsp)
    ensures var (s, p, _) := PumpState(j.session, j.dsp, o);
            if o.Both? then
              var i := DrivenInput(o.generation, j.session.nextSequence, o.reply);
              && s.inputs == j.session.inputs + [i] && s.nextSequence == (j.session.nextSequence + 1) % TWO_64
              && p == Step(j.dsp, i)
              && (j.dsp == After(Fresh(true), j.session.inputs) ==> p == After(Fresh(true), s.inputs))
            else s.inputs == j.session.inputs && s.nextSequence == j.session.nextSequence && p == j.dsp
  {
    hide Pipeline.Process;
    if o.Both? {
      var inputs := j.session.inputs + [DrivenInput(o.generation, j.session.nextSequence, o.reply)];
      assert inputs[..|inputs| - 1] == j.session.inputs;
    }
  }

  function CaptureGenerations(pairs: seq<AudioEngineRuns.Pair>): seq<nat> {
    seq(|pairs|, i requires 0 <= i < |pairs| => pairs[i].capture.generation)
  }

  /** The status that the pipeline returns to pump `n`, which has been offered a pair. */
  function PumpStatus(offers: seq<Offer>, n: nat): Status
    requires n < |offers| && offers[n].Both?
  {
    var j := PumpAll(offers, n);
    j.dsp.Process(DrivenInput(offers[n].generation, j.session.nextSequence, offers[n].reply)).1.status
  }

  lemma {:induction false} GenerationsGrow(offers: seq<Offer>, n: nat, m: nat)
    requires n <= m <= |offers|
    ensures Generations(offers, n) <= Generations(offers, m) && Replies(offers, n) <= Replies(offers, m)
  {
    if n < m {
      GenerationsGrow(offers, n, m - 1);
    }
  }

  lemma PrefixInputs(generations: seq<nat>, replies: seq<Reply>, k: nat)
    requires k <= |generations| == |replies|
    ensures Inputs(generations, replies)[..k] == Inputs(generations[..k], replies[..k])
  {
  }

  /**
    Driven by pumps that hand over the pairs of any run of the engine, the pipeline cleans or
    reports an adapter failure, and after a failure refuses the rest of that generation as
    quarantined. No reordering, staleness, delay or discontinuity is ever reported.
   */
  lemma {:induction false} PumpedPipelineAnswers(steps: seq<AudioEngineRuns.Step>, offers: seq<Offer>, n: nat)
    requires n < |offers| && offers[n].Both?
    requires Generations(offers, |offers|)
          == CaptureGenerations(AudioEngineRuns.Run(AudioEngineRuns.BEGIN, steps, |steps|).h.pairs)
    ensures var k := |Generations(offers, n)|;
            && k < |Generations(offers, |offers|)|
            && PumpStatus(offers, n) == Answer(Generations(offers, |offers|), Replies(offers, |offers|), k)
            && (PumpStatus(offers, n).Rejected? ==>
                  PumpAll(offers, n).dsp.quarantined && PumpAll(offers, n).dsp.generation == offers[n].generation)
  {
    hide Driven, Answer, Inputs, SequenceNumber, PumpAll, After, Step, AudioEngineRuns.Run, AudioLockstep.Ordered;
    var generations, replies := Generations(offers, |offers|), Replies(offers, |offers|);
    var k := |Generations(offers, n)|;
    RunGenerationsNeverGoBack(steps);
    GenerationsGrow(offers, n, n + 1);
    GenerationsGrow(offers, n + 1, |offers|);
    assert generations[k] == Generations(offers, n + 1)[k] && replies[k] == Replies(offers, n + 1)[k];
    PumpsDriveThePipeline(offers, n);
    PrefixInputs(generations, replies, k);
    assert generations[..k] == Generations(offers, n) && replies[..k] == Replies(offers, n);
    DrivenRun(generations, replies, k);
    DrivenStep(PumpAll(offers, n).dsp, generations, replies, k);
    RejectedIsQuarantined(PumpAll(offers, n).dsp, generations, replies, k);
  }

  lemma RejectedIsQuarantined(p: Pipeline, generations: seq<nat>, replies: seq<Reply>, k: nat)
    requires k < |generations| == |replies| && NonDecreasing(generations) && Driven(p, generations, replies, k)
    ensures Answer(generations, replies, k).Rejected? ==> p.quarantined && p.generation == generations[k]
  {
    if Answer(generations, replies, k).Rejected? {
      assert generations[k - 1] == generations[k];
    }
  }

  lemma {:induction false} RunGenerationsNeverGoBack(steps: seq<AudioEngineRuns.Step>)
    ensures NonDecreasing(CaptureGenerations(AudioEngineRuns.Run(AudioEngineRuns.BEGIN, steps, |steps|).h.pairs))
  {
    hide AudioEngineRuns.Run;
    AudioLockstep.GenerationsNeverGoBack(steps, |steps|);
  }

  /** What has been passed on is what was cleaned, but for the warm-up. */
  predicate Withheld(s: State) {
    if s.active then READINESS_WARMUP_FRAMES <= s.warmup <= |s.cleaned| && s.accepted == s.cleaned[s.warmup..]
    else s.accepted == [] && s.warmup == |s.cleaned|
  }

  lemma PumpWithholds(j: Joint, o: Offer)
    requires BetweenFrames(j.dsp) && Withheld(j.session)
    ensures Withheld(PumpState(j.session, j.dsp, o).0)
  {
    hide Pipeline.Process;
    var s, t := j.session, PumpState(j.session, j.dsp, o).0;
    if s.active && t.cleaned != s.cleaned {
      assert t.cleaned == s.cleaned + [t.cleaned[|s.cleaned|]];
    }
  }

  /** Warm-up withholds the first cleaned frames and nothing else: what is passed on is the rest, in order. */
  lemma {:induction false} WarmupWithholdsAPrefix(offers: seq<Offer>, n: nat)
    requires n <= |offers|
    ensures Withheld(PumpAll(offers, n).session)
  {
    hide PumpState;
    if 0 < n {
      WarmupWithholdsAPrefix(offers, n - 1);
      PumpWithholds(PumpAll(offers, n - 1), offers[n - 1]);
    }
  }
}
