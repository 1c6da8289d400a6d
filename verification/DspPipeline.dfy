/** The pipeline object: its fields, the history array shifted in place, and the nested sample loops. */
module DspPipeline {
  import opened Wrappers
  import opened Pcm16
  import opened ResampleFilter
  import opened DspState

  class SampleHistory {
    const data: array<Sample>

    ghost predicate Valid()
      reads this, data
    {
      data.Length == HISTORY
    }

    constructor ()
      ensures Valid() && fresh(data) && data[..] == SILENT_HISTORY
    {
      data := new Sample[HISTORY](_ => 0);
    }

    method Fill(v: Sample)
      requires Valid()
      modifies data
      ensures data[..] == [v, v, v, v, v, v]
    {
      for i := 0 to data.Length
        invariant forall k :: 0 <= k < i ==> data[k] == v
      {
        data[i] := v;
      }
    }

    /** The history's share of the filter sum. */
    method Accumulate(start: int) returns (filtered: int)
      requires Valid()
      ensures filtered == start + Dot(data[..], HISTORY)
    {
      filtered := start;
      for index := 0 to data.Length
        invariant filtered == start + Dot(data[..], index)
      {
        filtered := filtered + data[index] * TAPS[index + 1];
      }
    }

    method Shift(sample: Sample)
      requires Valid()
      modifies data
      ensures data[..] == [sample] + old(data[..])[..HISTORY - 1]
    {
      var index := data.Length - 1;
      while index > 0
        invariant 0 <= index < data.Length
        invariant forall k :: 0 <= k <= index ==> data[k] == old(data[k])
        invariant forall k :: index < k < data.Length ==> data[k] == old(data[k - 1])
      {
        data[index] := data[index - 1];
        index := index - 1;
      }
      data[0] := sample;
    }
  }

  class Pipeline {
    const configurationValid: bool
    const history: SampleHistory
    var hasGeneration: bool
    var generation: nat
    var quarantined: bool
    var expectedSequence: nat
    var phase: nat
    var initialized: bool
    ghost var adapterResets: nat

    ghost predicate Valid()
      reads this, history, history.data
    {
      history.Valid() && phase < 3
    }

    ghost function View(): DspState.Pipeline
      reads this, history, history.data
    {
      DspState.Pipeline(configurationValid, hasGeneration, generation, quarantined, expectedSequence, phase,
                        history.data[..], initialized, adapterResets)
    }

    constructor (configurationValid: bool)
      ensures Valid() && fresh(history) && fresh(history.data) && View() == Fresh(configurationValid)
    {
      this.configurationValid := configurationValid;
      history := new SampleHistory();
      hasGeneration, generation, quarantined, expectedSequence := false, 0, false, 0;
      phase, initialized, adapterResets := 0, false, 0;
    }

    method ResetProcessingState()
      requires Valid()
      modifies this, history.data
      ensures Valid() && View() == old(View()).ResetProcessing()
    {
      adapterResets := adapterResets + 1;
      expectedSequence := 0;
      phase := 0;
      history.Fill(0);
      initialized := false;
    }

    method Reject(quarantine: bool)
      requires Valid()
      modifies this, history.data
      ensures Valid() && View() == old(View()).Reject(quarantine)
    {
      ResetProcessingState();
      quarantined := quarantined || (quarantine && hasGeneration);
    }

    method Enter(i: Input)
      requires Valid()
      modifies this, history.data
      ensures Valid() && View() == old(View()).Enter(i)
    {
      if !hasGeneration || i.generation > generation {
        if hasGeneration {
          ResetProcessingState();
        }
        hasGeneration := true;
        generation := i.generation;
        quarantined := false;
        expectedSequence := i.sequence;
      }
    }

    /** One sample: filters it against the history, shifts the history, and yields a value on every third. */
    method Feed(sample: Sample, ghost out: seq<Sample>) returns (emitted: Option<Sample>)
      requires Valid()
      modifies this`phase, history.data
      ensures Valid()
      ensures Push(Filter(old(history.data[..]), old(phase), out), sample)
           == Filter(history.data[..], phase, if emitted.Some? then out + [emitted.value] else out)
      ensures emitted.Some? <==> old(phase) == 2
      ensures phase == (old(phase) + 1) % 3
    {
      var filtered := history.Accumulate(sample * TAPS[0]);
      history.Shift(sample);
      emitted := if phase == 2 then Some(Saturate(Round(filtered))) else None;
      phase := (phase + 1) % 3;
    }

    /** The sample loop: a frame of 480 samples yields exactly 160 and ends on a decimation boundary. */
    method FilterFrame(samples: seq<Sample>) returns (cleaned: seq<Sample>)
      requires Valid() && |samples| == INPUT_SAMPLES && phase == 0
      modifies this`phase, history.data
      ensures Valid() && phase == 0 && |cleaned| == OUTPUT_SAMPLES
      ensures PushFirst(Filter(old(history.data[..]), 0, []), samples, |samples|) == Filter(history.data[..], 0, cleaned)
    {
      var output := new Sample[OUTPUT_SAMPLES];
      var outputIndex := 0;
      ghost var start := Filter(history.data[..], 0, []);
      for i := 0 to INPUT_SAMPLES
        invariant Valid()
        invariant outputIndex == i / 3 && phase == i % 3
        invariant PushFirst(start, samples, i) == Filter(history.data[..], phase, output[..outputIndex])
      {
        NextThird(i);
        ghost var out := output[..outputIndex];
        var emitted := Feed(samples[i], out);
        if emitted.Some? {
          output[outputIndex] := emitted.value;
          outputIndex := outputIndex + 1;
          assert output[..outputIndex] == out + [emitted.value];
        }
      }
      cleaned := output[..];
      assert output[..outputIndex] == cleaned;
    }

    method Clean(sequence: nat, samples: seq<Sample>) returns (cleaned: seq<Sample>)
      requires Valid() && |samples| == INPUT_SAMPLES && phase == 0
      modifies this, history.data
      ensures Valid() && (View(), Result(Cleaned, cleaned)) == old(View()).Clean(sequence, samples)
      ensures |cleaned| == OUTPUT_SAMPLES && phase == 0
    {
      if !initialized {
        history.Fill(samples[0]);
        initialized := true;
      }
      cleaned := FilterFrame(samples);
      expectedSequence := (sequence + 1) % TWO_64;
    }

    lemma NextThird(i: nat)
      ensures (i + 1) % 3 == (i % 3 + 1) % 3
      ensures (i + 1) / 3 == if i % 3 == 2 then i / 3 + 1 else i / 3
    {
    }

    method Process(i: Input) returns (r: Result)
      requires Valid() && phase == 0
      modifies this, history.data
      ensures Valid() && (View(), r) == old(View()).Process(i)
      ensures phase == 0
    {
      if !configurationValid {
        Reject(false);
        return Result(InvalidConfiguration, NO_OUTPUT);
      }
      if hasGeneration && i.generation < generation {
        return Result(Rejected, NO_OUTPUT);
      }
      Enter(i);
      if !DelayAllowed(i.delay) {
        Reject(true);
        return Result(InvalidDelay, NO_OUTPUT);
      }
      if quarantined {
        return Result(Rejected, NO_OUTPUT);
      }
      if i.discontinuity != Continuous {
        Reject(true);
        return Result(Discontinuous, NO_OUTPUT);
      }
      if i.sequence != expectedSequence {
        Reject(true);
        return Result(ReorderedFrame, NO_OUTPUT);
      }
      if !Accepted(i.reply) {
        Reject(true);
        return Result(AdapterFailure, NO_OUTPUT);
      }
      var cleaned := Clean(i.sequence, i.reply.cleaned.value);
      return Result(Cleaned, cleaned);
    }
  }
}
