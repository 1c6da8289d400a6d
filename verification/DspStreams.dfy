/**
  What a run's output is made of: each generation's output is the batch filter of that
  generation's accepted frames, and the state depends on the newest generation alone.
 */
module DspStreams {
  import opened Pcm16
  import opened ResampleFilter
  import opened DspState
  import opened DspRuns

  // ---- non-interference

  function Newest(inputs: seq<Input>): nat {
    if inputs == [] then 0
    else
      var g := Newest(inputs[..|inputs| - 1]);
      var last := inputs[|inputs| - 1].generation;
      if g < last then last else g
  }

  function Only(inputs: seq<Input>, g: nat): seq<Input> {
    if inputs == [] then []
    else
      var front := Only(inputs[..|inputs| - 1], g);
      var last := inputs[|inputs| - 1];
      if last.generation == g then front + [last] else front
  }

  /** Equal but for how often the adapter has been reset. */
  predicate Same(p: Pipeline, q: Pipeline) {
    p == q.(adapterResets := p.adapterResets)
  }

  lemma SameStep(p: Pipeline, q: Pipeline, i: Input)
    requires BetweenFrames(p) && BetweenFrames(q) && Same(p, q)
    ensures Same(Step(p, i), Step(q, i)) && p.Process(i).1 == q.Process(i).1
  {
    hide PushFirst, DelayAllowed;
    assert q == p.(adapterResets := q.adapterResets);
    var p', q' := p.Enter(i), q.Enter(i);
    assert q' == p'.(adapterResets := q'.adapterResets);
    if Accepted(i.reply) {
      SameClean(p', q', i.sequence, i.reply.cleaned.value);
    }
  }

  lemma SameClean(p: Pipeline, q: Pipeline, sequence: nat, samples: seq<Sample>)
    requires BetweenFrames(p) && BetweenFrames(q) && Same(p, q) && |samples| == INPUT_SAMPLES
    ensures Same(p.Clean(sequence, samples).0, q.Clean(sequence, samples).0)
    ensures p.Clean(sequence, samples).1 == q.Clean(sequence, samples).1
  {
    assert p.FilterAt(samples[0]) == q.FilterAt(samples[0]);
  }

  /** A newer generation finds the pipeline as good as fresh. */
  lemma NewGenerationStartsFresh(p: Pipeline, i: Input)
    requires BetweenFrames(p) && p.configurationValid && p.hasGeneration && p.generation < i.generation
    ensures Same(Step(p, i), Step(Fresh(true), i)) && p.Process(i).1 == Fresh(true).Process(i).1
  {
    assert Same(p.Enter(i), Fresh(true).Enter(i));
  }

  lemma {:induction false} GenerationIsNewest(inputs: seq<Input>)
    requires inputs != []
    ensures var p := After(Fresh(true), inputs); p.configurationValid && p.hasGeneration && p.generation == Newest(inputs)
  {
    var front := inputs[..|inputs| - 1];
    if front != [] {
      GenerationIsNewest(front);
    }
  }

  lemma {:induction false} OlderThanAll(inputs: seq<Input>, g: nat)
    requires inputs == [] || Newest(inputs) < g
    ensures Only(inputs, g) == []
  {
    if inputs != [] {
      OlderThanAll(inputs[..|inputs| - 1], g);
    }
  }

  /** The state after a run is the state after the frames of its newest generation alone. */
  lemma {:induction false} StateDependsOnNewestOnly(inputs: seq<Input>)
    ensures Same(After(Fresh(true), inputs), After(Fresh(true), Only(inputs, Newest(inputs))))
  {
    if inputs != [] {
      var front, i := inputs[..|inputs| - 1], inputs[|inputs| - 1];
      StateDependsOnNewestOnly(front);
      LastStepDependsOnNewestOnly(front, i);
    }
  }

  lemma {:induction false} LastStepDependsOnNewestOnly(front: seq<Input>, i: Input)
    requires Same(After(Fresh(true), front), After(Fresh(true), Only(front, Newest(front))))
    ensures Same(After(Fresh(true), front + [i]), After(Fresh(true), Only(front + [i], Newest(front + [i]))))
    ensures Newest(front) <= i.generation ==>
              After(Fresh(true), front).Process(i).1
              == After(Fresh(true), Only(front, i.generation)).Process(i).1
  {
    var inputs, p := front + [i], After(Fresh(true), front);
    assert inputs[..|front|] == front;
    if front == [] {
      assert Only(inputs, i.generation) == [i];
    } else {
      GenerationIsNewest(front);
      if i.generation < Newest(front) {
        StaleFrameIsInert(p, i);
      } else if i.generation == Newest(front) {
        var own := Only(front, i.generation);
        SameStep(p, After(Fresh(true), own), i);
        assert (own + [i])[..|own|] == own;
      } else {
        OlderThanAll(front, i.generation);
        NewGenerationStartsFresh(p, i);
        assert Only(inputs, i.generation) == [i];
        assert [i][..0] == [];
      }
    }
  }

  /** An input no older than the rest is answered as if only its own generation had ever been seen. */
  lemma {:induction false} AnswerDependsOnOwnGeneration(inputs: seq<Input>, i: Input)
    requires Newest(inputs) <= i.generation
    ensures After(Fresh(true), inputs).Process(i).1 == After(Fresh(true), Only(inputs, i.generation)).Process(i).1
  {
    StateDependsOnNewestOnly(inputs);
    LastStepDependsOnNewestOnly(inputs, i);
  }

  // ---- streaming is batch

  /** The adapter's samples of the cleaned frames of generation `g`, in order. */
  function Heard(p: Pipeline, inputs: seq<Input>, g: nat): seq<Sample>
    requires BetweenFrames(p)
  {
    if inputs == [] then []
    else
      var n := |inputs| - 1;
      var earlier := Heard(p, inputs[..n], g);
      if inputs[n].generation == g && After(p, inputs[..n]).Process(inputs[n]).1.status.Cleaned?
      then earlier + inputs[n].reply.cleaned.value
      else earlier
  }

  /** The output samples for the cleaned frames of generation `g`, in order. */
  function Output(p: Pipeline, inputs: seq<Input>, g: nat): seq<Sample>
    requires BetweenFrames(p)
  {
    if inputs == [] then []
    else
      var n := |inputs| - 1;
      var earlier := Output(p, inputs[..n], g);
      if inputs[n].generation == g && After(p, inputs[..n]).Process(inputs[n]).1.status.Cleaned?
      then earlier + After(p, inputs[..n]).Process(inputs[n]).1.cleaned
      else earlier
  }

  /** The filter state of an open generation is the state after everything it has heard. */
  ghost predicate Tracks(p: Pipeline, g: nat, heard: seq<Sample>, out: seq<Sample>) {
    && BetweenFrames(p)
    && (heard == [] ==> out == [])
    && (heard != [] ==> out == Batch(heard[0], heard) && p.hasGeneration && g <= p.generation)
    && (p.hasGeneration && p.generation == g && !p.quarantined ==>
          && p.initialized == (heard != [])
          && (heard != [] ==> FilterIs(p, heard, out)))
    && (!p.hasGeneration ==> !p.initialized)
    && (p.hasGeneration ==> p.configurationValid)
  }

  ghost predicate FilterIs(p: Pipeline, heard: seq<Sample>, out: seq<Sample>)
    requires heard != []
  {
    HasConsumed(Filter(p.history, p.phase, out), heard[0], heard)
  }

  /** What is already in the output does not influence what the filter adds to it. */
  lemma {:induction false} OutputOnlyGrows(h: seq<Sample>, phase: nat, out: seq<Sample>, samples: seq<Sample>, n: nat)
    requires |h| == HISTORY && phase < 3 && n <= |samples|
    ensures var f := PushFirst(Filter(h, phase, []), samples, n);
            PushFirst(Filter(h, phase, out), samples, n) == Filter(f.history, f.phase, out + f.out)
  {
    if 0 < n {
      OutputOnlyGrows(h, phase, out, samples, n - 1);
    } else {
      assert out + [] == out;
    }
  }

  /** A cleaned frame extends what was heard and appends exactly its batch output. */
  lemma CleaningTracks(p: Pipeline, i: Input, heard: seq<Sample>, out: seq<Sample>)
    requires Tracks(p, i.generation, heard, out) && p.Process(i).1.status.Cleaned?
    ensures Tracks(Step(p, i), i.generation, heard + i.reply.cleaned.value, out + p.Process(i).1.cleaned)
  {
    var frame := i.reply.cleaned.value;
    var q := p.Enter(i);
    var first := if heard == [] then frame[0] else heard[0];
    assert HasConsumed(Filter(q.FilterAt(frame[0]).history, 0, out), first, heard);
    StreamingIsBatch(Filter(q.FilterAt(frame[0]).history, 0, out), first, heard, frame, |frame|);
    OutputOnlyGrows(q.FilterAt(frame[0]).history, 0, out, frame, |frame|);
    assert frame[..|frame|] == frame;
    assert (heard + frame)[0] == first;
  }

  lemma OthersTrack(p: Pipeline, i: Input, g: nat, heard: seq<Sample>, out: seq<Sample>)
    requires Tracks(p, g, heard, out) && !(i.generation == g && p.Process(i).1.status.Cleaned?)
    ensures Tracks(Step(p, i), g, heard, out)
  {
    ProcessKeepsBoundary(p, i);
  }

  lemma {:induction false} RunTracks(inputs: seq<Input>, valid: bool, g: nat)
    ensures var p := Fresh(valid); Tracks(After(p, inputs), g, Heard(p, inputs, g), Output(p, inputs, g))
  {
    var p := Fresh(valid);
    if inputs != [] {
      var n := |inputs| - 1;
      var front, i := inputs[..n], inputs[n];
      RunTracks(front, valid, g);
      if i.generation == g && After(p, front).Process(i).1.status.Cleaned? {
        CleaningTracks(After(p, front), i, Heard(p, front, g), Output(p, front, g));
      } else {
        OthersTrack(After(p, front), i, g, Heard(p, front, g), Output(p, front, g));
      }
    }
  }

  /**
    In every run, and for every generation, the concatenated output is the batch filter of the
    concatenated accepted frames, whatever was refused or interleaved.
   */
  lemma {:induction false} StreamedOutputIsBatch(inputs: seq<Input>, valid: bool, g: nat)
    ensures var p := Fresh(valid);
            var heard := Heard(p, inputs, g);
            Output(p, inputs, g) == if heard == [] then [] else Batch(heard[0], heard)
  {
    RunTracks(inputs, valid, g);
  }
}
