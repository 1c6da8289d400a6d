/** What the session passes on, frame by frame and sample by sample, against what the pipeline answered. */
module VadStreams {
  import opened Wrappers
  import opened Pcm16
  import opened ResampleFilter
  import opened DspState
  import opened DspRuns
  import opened DspStreams
  import opened VadSession
  import opened VadRuns

  /** The places are in order and are exactly the inputs that the pipeline cleans. */
  ghost predicate AreTheCleaned(inputs: seq<Input>, places: seq<nat>) {
    && (forall a, b :: 0 <= a < b < |places| ==> places[a] < places[b])
    && (forall a :: 0 <= a < |places| ==> places[a] < |inputs| && CleanedAt(Fresh(true), inputs, places[a]))
    && (forall k: nat :: k < |inputs| && CleanedAt(Fresh(true), inputs, k) ==> k in places)
  }

  /** Each frame is the pipeline's answer to the input at its place, under that input's stamps. */
  ghost predicate AreTheAnswers(inputs: seq<Input>, places: seq<nat>, cleaned: seq<CleanedFrame>) {
    && |cleaned| == |places|
    && forall a :: 0 <= a < |places| && places[a] < |inputs| ==>
         && cleaned[a].generation == inputs[places[a]].generation && cleaned[a].sequence == inputs[places[a]].sequence
         && cleaned[a].samples == ResultAt(Fresh(true), inputs, places[a]).cleaned
  }

  lemma EarlierAnswersStay(inputs: seq<Input>, i: Input, k: nat)
    requires k < |inputs|
    ensures ResultAt(Fresh(true), inputs + [i], k) == ResultAt(Fresh(true), inputs, k)
  {
    assert (inputs + [i])[..k] == inputs[..k];
  }

  /** One input more, and one frame more if it is cleaned. */
  lemma {:induction false} OneInputMore(
      inputs: seq<Input>, i: Input, places: seq<nat>, cleaned: seq<CleanedFrame>, f: CleanedFrame)
    requires AreTheCleaned(inputs, places) && AreTheAnswers(inputs, places, cleaned)
    ensures var r := After(Fresh(true), inputs).Process(i).1;
            if r.status.Cleaned? then
              && AreTheCleaned(inputs + [i], places + [|inputs|])
              && (f == CleanedFrame(i.generation, i.sequence, r.cleaned) ==>
                    AreTheAnswers(inputs + [i], places + [|inputs|], cleaned + [f]))
            else AreTheCleaned(inputs + [i], places) && AreTheAnswers(inputs + [i], places, cleaned)
  {
    hide Pipeline.Process, After;
    forall k: nat | k < |inputs| ensures ResultAt(Fresh(true), inputs + [i], k) == ResultAt(Fresh(true), inputs, k) {
      EarlierAnswersStay(inputs, i, k);
    }
    assert (inputs + [i])[..|inputs|] == inputs;
    assert ResultAt(Fresh(true), inputs + [i], |inputs|) == After(Fresh(true), inputs).Process(i).1;
    hide ResultAt;
    var after := places + [|inputs|];
    assert after[|places|] == |inputs| && forall k <- places :: k in after;
  }

  /** What one pump adds to the frames cleaned. */
  lemma PumpCleans(j: Joint, o: Offer)
    requires BetweenFrames(j.dsp)
    ensures var s := PumpState(j.session, j.dsp, o).0;
            if o.Both? then
              var i := DrivenInput(o.generation, j.session.nextSequence, o.reply);
              var r := j.dsp.Process(i).1;
              && s.inputs == j.session.inputs + [i]
              && s.cleaned == if r.status.Cleaned?
                              then j.session.cleaned + [CleanedFrame(i.generation, i.sequence, r.cleaned)]
                              else j.session.cleaned
            else s.inputs == j.session.inputs && s.cleaned == j.session.cleaned
  {
    hide Pipeline.Process;
  }

  /**
    After any run of pumps, the frames that the session calls cleaned are, in order and one for one,
    the inputs that the pipeline cleans: each with that input's generation and sequence number, and
    with the samples that the pipeline answers to it.
   */
  lemma {:induction false} CleanedFramesAreTheAnswers(offers: seq<Offer>, n: nat) returns (places: seq<nat>)
    requires n <= |offers|
    ensures var s := PumpAll(offers, n).session;
            AreTheCleaned(s.inputs, places) && AreTheAnswers(s.inputs, places, s.cleaned)
  {
    hide PumpState, Pipeline.Process, After, AreTheCleaned, AreTheAnswers;
    if n == 0 {
      places := [];
      NothingCleaned();
    } else {
      places := CleanedFramesAreTheAnswers(offers, n - 1);
      PumpsDriveThePipeline(offers, n - 1);
      var j, o := PumpAll(offers, n - 1), offers[n - 1];
      PumpCleans(j, o);
      if o.Both? {
        var i := DrivenInput(o.generation, j.session.nextSequence, o.reply);
        var r := j.dsp.Process(i).1;
        OneInputMore(j.session.inputs, i, places, j.session.cleaned, CleanedFrame(i.generation, i.sequence, r.cleaned));
        if r.status.Cleaned? {
          places := places + [|j.session.inputs|];
        }
      }
    }
  }

  lemma NothingCleaned()
    ensures AreTheCleaned([], []) && AreTheAnswers([], [], [])
  {
  }

  // ---- sample by sample

  /** The samples of the frames of generation `g`, in order. */
  function Samples(frames: seq<CleanedFrame>, g: nat): seq<Sample> {
    if frames == [] then []
    else
      var last := frames[|frames| - 1];
      Samples(frames[..|frames| - 1], g) + if last.generation == g then last.samples else []
  }

  /** How many of the frames are of generation `g`. */
  function Count(frames: seq<CleanedFrame>, g: nat): nat {
    if frames == [] then 0
    else Count(frames[..|frames| - 1], g) + if frames[|frames| - 1].generation == g then 1 else 0
  }

  lemma {:induction false} SamplesInTwo(front: seq<CleanedFrame>, back: seq<CleanedFrame>, g: nat)
    ensures Samples(front + back, g) == Samples(front, g) + Samples(back, g)
  {
    if back == [] {
      assert front + back == front;
    } else {
      var last := back[|back| - 1];
      assert (front + back)[..|front + back| - 1] == front + back[..|back| - 1];
      SamplesInTwo(front, back[..|back| - 1], g);
    }
  }

  predicate FullFrames(frames: seq<CleanedFrame>) {
    forall f <- frames :: |f.samples| == OUTPUT_SAMPLES
  }

  lemma {:induction false} SamplesPerFrame(frames: seq<CleanedFrame>, g: nat)
    requires FullFrames(frames)
    ensures |Samples(frames, g)| == 160 * Count(frames, g)
  {
    if frames != [] {
      assert frames[|frames| - 1] in frames;
      SamplesPerFrame(frames[..|frames| - 1], g);
    }
  }

  /** After any run of pumps the cleaned samples of each generation are the pipeline's output for it. */
  lemma {:induction false} CleanedSamplesAreTheOutput(offers: seq<Offer>, n: nat, g: nat)
    requires n <= |offers|
    ensures var s := PumpAll(offers, n).session;
            Samples(s.cleaned, g) == Output(Fresh(true), s.inputs, g) && FullFrames(s.cleaned)
  {
    hide PumpState, Pipeline.Process, After;
    if 0 < n {
      CleanedSamplesAreTheOutput(offers, n - 1, g);
      PumpsDriveThePipeline(offers, n - 1);
      var j, o := PumpAll(offers, n - 1), offers[n - 1];
      PumpCleans(j, o);
      if o.Both? {
        var i := DrivenInput(o.generation, j.session.nextSequence, o.reply);
        ProcessKeepsBoundary(j.dsp, i);
        OneFrameMore(j, i, g);
      }
    }
  }

  lemma {:induction false} OneFrameMore(j: Joint, i: Input, g: nat)
    requires BetweenFrames(j.dsp) && j.dsp == After(Fresh(true), j.session.inputs)
    requires Samples(j.session.cleaned, g) == Output(Fresh(true), j.session.inputs, g)
    ensures var r := j.dsp.Process(i).1; var inputs := j.session.inputs + [i];
            Output(Fresh(true), inputs, g)
            == Samples(if r.status.Cleaned? then j.session.cleaned + [CleanedFrame(i.generation, i.sequence, r.cleaned)]
                       else j.session.cleaned, g)
  {
    hide Pipeline.Process, After;
    var r := j.dsp.Process(i).1;
    var f := CleanedFrame(i.generation, i.sequence, r.cleaned);
    assert (j.session.inputs + [i])[..|j.session.inputs|] == j.session.inputs;
    assert (j.session.cleaned + [f])[..|j.session.cleaned|] == j.session.cleaned;
  }

  /**
    What the session passes on of a generation is the batch filter of everything the pipeline
    accepted of that generation, less the 160 samples of each of its frames withheld for the warm-up.
   */
  lemma {:induction false} PassedOnIsBatch(offers: seq<Offer>, n: nat, g: nat)
    requires n <= |offers|
    ensures var s := PumpAll(offers, n).session; var heard := Heard(Fresh(true), s.inputs, g);
            && s.warmup <= |s.cleaned|
            && var batch := if heard == [] then [] else Batch(heard[0], heard);
               var withheld := 160 * Count(s.cleaned[..s.warmup], g);
               withheld <= |batch| && Samples(s.accepted, g) == batch[withheld..]
  {
    hide PumpAll, Heard, Batch, Output;
    var s := PumpAll(offers, n).session;
    WarmupWithholdsAPrefix(offers, n);
    CleanedSamplesAreTheOutput(offers, n, g);
    StreamedOutputIsBatch(s.inputs, true, g);
    var front, back := s.cleaned[..s.warmup], s.cleaned[s.warmup..];
    assert s.cleaned == front + back;
    SamplesInTwo(front, back, g);
    SamplesPerFrame(front, g);
    assert s.accepted == back;
  }

  // ---- what one pump answers

  /**
    After any run of pumps, the next one fails exactly without a reference, when the pipeline does
    not clean its pair, or when the publisher refuses to open once three frames have been cleaned;
    every failure aborts once. The publisher opens on the third or a later cleaned frame, and only
    what is cleaned once it is open is passed on.
   */
  lemma {:induction false} PumpOutcome(offers: seq<Offer>, n: nat)
    requires n < |offers|
    ensures var j := PumpAll(offers, n); var o := offers[n]; var (s, _, r) := PumpState(j.session, j.dsp, o);
            var cleaned := o.Both? && PumpStatus(offers, n).Cleaned?;
            && |s.cleaned| == |j.session.cleaned| + (if cleaned then 1 else 0)
            && (s.active <==> j.session.active || (cleaned && o.activates && 3 <= |s.cleaned|))
            && (r.Failed? <==> || o.NoReference? || (o.Both? && !cleaned)
                               || (cleaned && !j.session.active && 3 <= |s.cleaned| && !o.activates))
            && s.aborts == j.session.aborts + (if r.Failed? then 1 else 0)
            && s.accepted == j.session.accepted
                             + (if cleaned && j.session.active then [s.cleaned[|s.cleaned| - 1]] else [])
  {
    hide PumpAll, Pipeline.Process;
    WarmupWithholdsAPrefix(offers, n);
  }
}
