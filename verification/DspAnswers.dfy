/** How every input of every run is answered, told by the inputs before it alone. */
module DspAnswers {
  import opened Wrappers
  import opened Pcm16
  import opened ResampleFilter
  import opened DspState
  import opened DspRuns

  /** An earlier input was of a newer generation. */
  predicate Overtaken(inputs: seq<Input>, k: nat)
    requires k < |inputs|
  {
    exists j :: 0 <= j < k && inputs[k].generation < inputs[j].generation
  }

  /** An earlier input of generation `g`, before `k`, was not cleaned. */
  ghost predicate RefusedBefore(inputs: seq<Input>, k: nat, g: nat)
    requires k <= |inputs|
  {
    exists j :: 0 <= j < k && inputs[j].generation == g && !CleanedAt(Fresh(true), inputs, j)
  }

  /** Input `j` is the last one of generation `g` before `k`. */
  predicate LastOf(inputs: seq<Input>, j: nat, k: nat, g: nat)
    requires k <= |inputs|
  {
    j < k && inputs[j].generation == g && forall m :: j < m < k ==> inputs[m].generation != g
  }

  /** The input carries the sequence number after that of the last one of its generation, if there was one. */
  ghost predicate InSequence(inputs: seq<Input>, k: nat, g: nat, sequence: nat)
    requires k <= |inputs|
  {
    forall j: nat :: LastOf(inputs, j, k, g) ==> sequence == (inputs[j].sequence + 1) % TWO_64
  }

  /** What the adapter needs to say for a frame to be cleaned. */
  predicate Served(r: Reply) {
    r.renderAccepted && r.delayAccepted && r.cleaned.Some? && |r.cleaned.value| == 480
  }

  /** The answer that input `k` deserves. */
  ghost function Deserved(inputs: seq<Input>, k: nat): Status
    requires k < |inputs|
  {
    var i := inputs[k];
    if Overtaken(inputs, k) then Rejected
    else if i.delay.NotFinite? || i.delay.milliseconds < 40.0 || 250.0 < i.delay.milliseconds then InvalidDelay
    else if RefusedBefore(inputs, k, i.generation) then Rejected
    else if !i.discontinuity.Continuous? then Discontinuous
    else if !InSequence(inputs, k, i.generation, i.sequence) then ReorderedFrame
    else if !Served(i.reply) then AdapterFailure
    else Cleaned
  }

  /** The sequences an input of generation `g` may carry are exactly the expected one, if the pipeline expects one. */
  ghost predicate Expects(p: Pipeline, inputs: seq<Input>, k: nat)
    requires k <= |inputs|
  {
    forall sequence: nat :: InSequence(inputs, k, p.generation, sequence) <==> sequence == p.expected
  }

  /** The pipeline after `k` inputs. */
  ghost predicate Recalls(p: Pipeline, inputs: seq<Input>, k: nat)
    requires k <= |inputs|
  {
    && p.configurationValid && (p.hasGeneration <==> 0 < k)
    && (0 < k ==>
          && (forall j :: 0 <= j < k ==> inputs[j].generation <= p.generation)
          && (exists j :: 0 <= j < k && inputs[j].generation == p.generation)
          && (p.quarantined <==> RefusedBefore(inputs, k, p.generation))
          && (!p.quarantined ==> Expects(p, inputs, k)))
  }

  lemma {:induction false} AnswerIsDeserved(p: Pipeline, inputs: seq<Input>, k: nat)
    requires k < |inputs| && BetweenFrames(p) && Recalls(p, inputs, k)
    ensures p.Process(inputs[k]).1.status == Deserved(inputs, k)
  {
    hide PushFirst, CleanedAt;
    var i := inputs[k];
    if k == 0 || p.generation < i.generation {
      FirstOfItsGeneration(inputs, k, i.generation, i.sequence);
    }
  }

  lemma {:induction false} FirstOfItsGeneration(inputs: seq<Input>, k: nat, g: nat, sequence: nat)
    requires k <= |inputs| && forall j :: 0 <= j < k ==> inputs[j].generation != g
    ensures !RefusedBefore(inputs, k, g) && InSequence(inputs, k, g, sequence)
  {
    hide CleanedAt;
  }

  /** What one input does to the generation, the quarantine and the expectation. */
  lemma ProcessMoves(p: Pipeline, i: Input)
    requires BetweenFrames(p) && p.configurationValid
    ensures var (q, r) := p.Process(i);
            && q.configurationValid && q.hasGeneration
            && (if p.hasGeneration && i.generation < p.generation then q == p && !r.status.Cleaned?
                else
                  && q.generation == i.generation
                  && (q.quarantined <==> !r.status.Cleaned?)
                  && (p.hasGeneration && p.generation == i.generation && p.quarantined ==> !r.status.Cleaned?)
                  && (r.status.Cleaned? ==> q.expected == (i.sequence + 1) % TWO_64))
  {
  }

  lemma {:induction false} OneInputMore(p: Pipeline, inputs: seq<Input>, k: nat)
    requires k < |inputs| && BetweenFrames(p) && p == After(Fresh(true), inputs[..k]) && Recalls(p, inputs, k)
    ensures Recalls(Step(p, inputs[k]), inputs, k + 1)
  {
    hide Pipeline.Process, After, Expects, InSequence;
    var i, q := inputs[k], Step(p, inputs[k]);
    ProcessMoves(p, i);
    assert CleanedAt(Fresh(true), inputs, k) <==> p.Process(i).1.status.Cleaned?;
    hide CleanedAt;
    if p.hasGeneration && i.generation < p.generation {
      OthersKeepTheSequence(p, inputs, k);
    } else {
      assert i.generation == q.generation;
      assert p.hasGeneration && p.generation < i.generation ==> !RefusedBefore(inputs, k, i.generation);
      assert RefusedBefore(inputs, k + 1, i.generation)
        <==> RefusedBefore(inputs, k, i.generation) || !CleanedAt(Fresh(true), inputs, k);
      if !q.quarantined {
        OwnSetsTheSequence(q, inputs, k);
      }
    }
  }

  lemma {:induction false} LastIsKept(inputs: seq<Input>, j: nat, k: nat, g: nat)
    requires k < |inputs|
    ensures inputs[k].generation != g ==> (LastOf(inputs, j, k + 1, g) <==> LastOf(inputs, j, k, g))
    ensures inputs[k].generation == g ==> (LastOf(inputs, j, k + 1, g) <==> j == k)
  {
  }

  lemma {:induction false} SequenceIsKept(inputs: seq<Input>, k: nat, n: nat, g: nat, sequence: nat)
    requires k < |inputs| && inputs[k].generation != g && n == k + 1
    ensures InSequence(inputs, n, g, sequence) <==> InSequence(inputs, k, g, sequence)
  {
    hide LastOf;
    forall j: nat ensures LastOf(inputs, j, n, g) <==> LastOf(inputs, j, k, g) {
      LastIsKept(inputs, j, k, g);
    }
  }

  lemma {:induction false} OthersKeepTheSequence(p: Pipeline, inputs: seq<Input>, k: nat)
    requires k < |inputs| && inputs[k].generation != p.generation
    ensures Expects(p, inputs, k + 1) <==> Expects(p, inputs, k)
  {
    hide InSequence;
    var g, n := p.generation, k + 1;
    forall sequence: nat ensures InSequence(inputs, n, g, sequence) <==> InSequence(inputs, k, g, sequence) {
      SequenceIsKept(inputs, k, n, g, sequence);
    }
  }

  lemma {:induction false} OwnSetsTheSequence(q: Pipeline, inputs: seq<Input>, k: nat)
    requires k < |inputs| && inputs[k].generation == q.generation && q.expected == (inputs[k].sequence + 1) % TWO_64
    ensures Expects(q, inputs, k + 1)
  {
    hide LastOf;
    var g, n := q.generation, k + 1;
    forall sequence: nat ensures InSequence(inputs, n, g, sequence) <==> sequence == q.expected {
      forall j: nat ensures LastOf(inputs, j, n, g) <==> j == k {
        LastIsKept(inputs, j, k, g);
      }
    }
  }

  lemma {:induction false} RunRecalls(inputs: seq<Input>, k: nat)
    requires k <= |inputs|
    ensures Recalls(After(Fresh(true), inputs[..k]), inputs, k)
  {
    hide Step, Pipeline.Process;
    if 0 < k {
      RunRecalls(inputs, k - 1);
      OneInputMore(After(Fresh(true), inputs[..k - 1]), inputs, k - 1);
      OneMore(Fresh(true), inputs, k - 1);
    }
  }

  /**
    In every run of a validly configured pipeline each input gets exactly the answer that the
    inputs before it and its own adapter answers deserve. In particular it is cleaned exactly when
    no newer generation and no refusal in its own came before it, its delay is between 40 and 250
    milliseconds, it is continuous and next in sequence, and the adapter serves it.
   */
  lemma {:induction false} EveryAnswerIsDeserved(inputs: seq<Input>, k: nat)
    requires k < |inputs|
    ensures ResultAt(Fresh(true), inputs, k).status == Deserved(inputs, k)
    ensures CleanedAt(Fresh(true), inputs, k) <==>
              var i := inputs[k];
              && !Overtaken(inputs, k) && !RefusedBefore(inputs, k, i.generation)
              && i.delay.Finite? && 40.0 <= i.delay.milliseconds <= 250.0 && i.discontinuity.Continuous?
              && InSequence(inputs, k, i.generation, i.sequence) && Served(i.reply)
  {
    hide Pipeline.Process, After, InSequence, RefusedBefore, Recalls;
    RunRecalls(inputs, k);
    AnswerIsDeserved(After(Fresh(true), inputs[..k]), inputs, k);
  }

  /** An invalid configuration is never served. */
  lemma {:induction false} InvalidConfigurationNeverServes(inputs: seq<Input>, k: nat)
    requires k < |inputs|
    ensures ResultAt(Fresh(false), inputs, k).status.InvalidConfiguration?
  {
    StaysInvalid(inputs, k);
  }

  lemma {:induction false} StaysInvalid(inputs: seq<Input>, k: nat)
    requires k <= |inputs|
    ensures !After(Fresh(false), inputs[..k]).configurationValid
  {
    if 0 < k {
      StaysInvalid(inputs, k - 1);
      OneMore(Fresh(false), inputs, k - 1);
    }
  }
}
