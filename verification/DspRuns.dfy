/** What holds over every run of inputs, whatever their generations, sequences and adapter answers. */
module DspRuns {
  import opened Pcm16
  import opened ResampleFilter
  import opened DspState

  /** The state between two frames: the decimation phase is always back at zero. */
  predicate BetweenFrames(p: Pipeline) {
    |p.history| == HISTORY && p.phase == 0
  }

  lemma CleanKeepsBoundary(p: Pipeline, sequence: nat, samples: seq<Sample>)
    requires BetweenFrames(p) && |samples| == INPUT_SAMPLES
    ensures BetweenFrames(p.Clean(sequence, samples).0)
    ensures |p.Clean(sequence, samples).1.cleaned| == OUTPUT_SAMPLES
  {
    FramesEndOnBoundary(p.FilterAt(samples[0]), samples, |samples|);
  }

  lemma {:induction false} FramesEndOnBoundary(f: Filter, samples: seq<Sample>, n: nat)
    requires WellFormed(f) && n <= |samples|
    ensures PushFirst(f, samples, n).phase == (f.phase + n) % 3
    ensures |PushFirst(f, samples, n).out| == |f.out| + (f.phase + n) / 3
  {
    if 0 < n {
      FramesEndOnBoundary(f, samples, n - 1);
    }
  }

  lemma ProcessKeepsBoundary(p: Pipeline, i: Input)
    requires BetweenFrames(p)
    ensures BetweenFrames(p.Process(i).0)
    ensures p.Process(i).1.status.Cleaned? ==> |p.Process(i).1.cleaned| == OUTPUT_SAMPLES
  {
    if p.Process(i).1.status.Cleaned? {
      CleanKeepsBoundary(p.Enter(i), i.sequence, i.reply.cleaned.value);
    }
  }

  function Step(p: Pipeline, i: Input): (q: Pipeline)
    requires BetweenFrames(p)
    ensures BetweenFrames(q)
  {
    ProcessKeepsBoundary(p, i);
    p.Process(i).0
  }

  /** The state after a run of inputs. */
  function After(p: Pipeline, inputs: seq<Input>): (q: Pipeline)
    requires BetweenFrames(p)
    ensures BetweenFrames(q)
  {
    if inputs == [] then p else Step(After(p, inputs[..|inputs| - 1]), inputs[|inputs| - 1])
  }

  lemma {:induction false} OneMore(p: Pipeline, inputs: seq<Input>, k: nat)
    requires BetweenFrames(p) && k < |inputs|
    ensures After(p, inputs[..k + 1]) == Step(After(p, inputs[..k]), inputs[k])
  {
    hide Step;
    assert inputs[..k + 1][..k] == inputs[..k];
  }

  /** The answer to the `k`-th input of a run. */
  function ResultAt(p: Pipeline, inputs: seq<Input>, k: nat): Result
    requires BetweenFrames(p) && k < |inputs|
  {
    After(p, inputs[..k]).Process(inputs[k]).1
  }

  predicate CleanedAt(p: Pipeline, inputs: seq<Input>, k: nat)
    requires BetweenFrames(p) && k < |inputs|
  {
    ResultAt(p, inputs, k).status.Cleaned?
  }

  // ---- quarantine

  /** Nothing of generation `g` or older can be cleaned any more. */
  predicate Shut(p: Pipeline, g: nat) {
    !p.configurationValid || (p.hasGeneration && (g < p.generation || (g == p.generation && p.quarantined)))
  }

  lemma RefusalShuts(p: Pipeline, i: Input)
    requires BetweenFrames(p) && !p.Process(i).1.status.Cleaned?
    ensures Shut(Step(p, i), i.generation)
  {
  }

  lemma ShutStaysShut(p: Pipeline, i: Input, g: nat)
    requires BetweenFrames(p) && Shut(p, g)
    ensures Shut(Step(p, i), g)
    ensures i.generation <= g ==> !p.Process(i).1.status.Cleaned?
  {
  }

  lemma {:induction false} ShutForever(p: Pipeline, inputs: seq<Input>, from: nat, to: nat, g: nat)
    requires BetweenFrames(p) && from <= to <= |inputs| && Shut(After(p, inputs[..from]), g)
    ensures Shut(After(p, inputs[..to]), g)
  {
    hide After, Step, Shut, Pipeline.Process;
    if from < to {
      ShutForever(p, inputs, from, to - 1, g);
      ShutStaysShut(After(p, inputs[..to - 1]), inputs[to - 1], g);
      OneMore(p, inputs, to - 1);
    }
  }

  /** Once input `k` has shut generation `g`, no later input of that generation is cleaned. */
  lemma {:induction false} ShutAnswersNoMore(p: Pipeline, inputs: seq<Input>, k: nat, m: nat, g: nat)
    requires BetweenFrames(p) && k < m < |inputs| && Shut(Step(After(p, inputs[..k]), inputs[k]), g)
    requires inputs[m].generation <= g
    ensures !CleanedAt(p, inputs, m)
  {
    hide After, Step, Shut, Pipeline.Process;
    OneMore(p, inputs, k);
    ShutForever(p, inputs, k + 1, m, g);
    ShutStaysShut(After(p, inputs[..m]), inputs[m], g);
  }

  /** After any refusal nothing of that generation or an older one is ever cleaned again. */
  lemma RefusalIsFinal(p: Pipeline, inputs: seq<Input>, k: nat, m: nat)
    requires BetweenFrames(p) && k < m < |inputs|
    requires !CleanedAt(p, inputs, k) && inputs[m].generation <= inputs[k].generation
    ensures !CleanedAt(p, inputs, m)
  {
    hide After, Step, Shut, Pipeline.Process;
    RefusalShuts(After(p, inputs[..k]), inputs[k]);
    ShutAnswersNoMore(p, inputs, k, m, inputs[k].generation);
  }

  /** An input of a newer generation ends the older ones, whatever its answer. */
  lemma NewerShutsOlder(p: Pipeline, i: Input, g: nat)
    requires BetweenFrames(p) && g < i.generation
    ensures Shut(Step(p, i), g)
  {
  }

  /** A frame older than the current generation changes nothing. */
  lemma StaleFrameIsInert(p: Pipeline, i: Input)
    requires BetweenFrames(p) && p.configurationValid && p.hasGeneration && i.generation < p.generation
    ensures Step(p, i) == p && p.Process(i).1 == Result(Rejected, NO_OUTPUT)
  {
  }

  // ---- sequence numbers

  lemma CleanedSets(p: Pipeline, i: Input)
    requires BetweenFrames(p) && p.Process(i).1.status.Cleaned?
    ensures var q := Step(p, i);
            && q.configurationValid && q.hasGeneration && q.generation == i.generation && !q.quarantined
            && q.expected == (i.sequence + 1) % TWO_64
    ensures p.hasGeneration && p.generation == i.generation ==> i.sequence == p.expected
  {
  }

  /** No input between `k` and `m` of the generation of input `k` is cleaned. */
  ghost predicate NoneCleanedBetween(p: Pipeline, inputs: seq<Input>, k: nat, m: nat)
    requires BetweenFrames(p) && k < m <= |inputs|
  {
    forall j :: k < j < m && inputs[j].generation == inputs[k].generation ==> !CleanedAt(p, inputs, j)
  }

  lemma StaleAfterCleaned(p: Pipeline, i: Input, j: Input)
    requires BetweenFrames(p) && p.Process(i).1.status.Cleaned? && j.generation < i.generation
    ensures Step(Step(p, i), j) == Step(p, i)
  {
    CleanedSets(p, i);
    StaleFrameIsInert(Step(p, i), j);
  }

  /** What lies between two cleaned frames of one generation is older than both. */
  lemma OnlyOlderBetween(p: Pipeline, inputs: seq<Input>, k: nat, n: nat, m: nat)
    requires BetweenFrames(p) && k < n < m < |inputs| && inputs[k].generation == inputs[m].generation
    requires CleanedAt(p, inputs, m) && NoneCleanedBetween(p, inputs, k, m)
    ensures inputs[n].generation < inputs[k].generation
  {
    hide After, Step, Shut, Pipeline.Process;
    if inputs[k].generation == inputs[n].generation {
      RefusalIsFinal(p, inputs, n, m);
    } else if inputs[k].generation < inputs[n].generation {
      NewerShutsOlder(After(p, inputs[..n]), inputs[n], inputs[k].generation);
      ShutAnswersNoMore(p, inputs, n, m, inputs[k].generation);
    }
  }

  /** Between two successive cleaned frames of one generation the state does not move. */
  lemma {:induction false} ExpectationKept(p: Pipeline, inputs: seq<Input>, k: nat, n: nat, m: nat)
    requires BetweenFrames(p) && k < n <= m < |inputs| && inputs[k].generation == inputs[m].generation
    requires CleanedAt(p, inputs, k) && CleanedAt(p, inputs, m)
    requires NoneCleanedBetween(p, inputs, k, m)
    ensures After(p, inputs[..n]) == Step(After(p, inputs[..k]), inputs[k])
  {
    hide After, Step, NoneCleanedBetween, Pipeline.Process;
    OneMore(p, inputs, n - 1);
    if k + 1 < n {
      ExpectationKept(p, inputs, k, n - 1, m);
      OnlyOlderBetween(p, inputs, k, n - 1, m);
      StaleAfterCleaned(After(p, inputs[..k]), inputs[k], inputs[n - 1]);
    }
  }

  lemma NextCleanedFollows(p: Pipeline, i: Input, j: Input)
    requires BetweenFrames(p) && p.Process(i).1.status.Cleaned? && Step(p, i).Process(j).1.status.Cleaned?
    requires i.generation == j.generation
    ensures j.sequence == (i.sequence + 1) % TWO_64
  {
    CleanedSets(p, i);
    CleanedSets(Step(p, i), j);
  }

  /** Successive cleaned frames of a generation carry successive 64-bit sequence numbers. */
  lemma SequencesAreConsecutive(p: Pipeline, inputs: seq<Input>, k: nat, m: nat)
    requires BetweenFrames(p) && k < m < |inputs| && inputs[k].generation == inputs[m].generation
    requires CleanedAt(p, inputs, k) && CleanedAt(p, inputs, m)
    requires NoneCleanedBetween(p, inputs, k, m)
    ensures inputs[m].sequence == (inputs[k].sequence + 1) % TWO_64
  {
    hide After, Step, Pipeline.Process;
    ExpectationKept(p, inputs, k, m, m);
    NextCleanedFollows(After(p, inputs[..k]), inputs[k], inputs[m]);
  }
}
