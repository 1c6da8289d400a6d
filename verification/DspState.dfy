/**
  The fail-closed pipeline around the filter: which frames it cleans, which it refuses, and what
  it forgets. The external adapter answers arbitrarily; its answers travel with the input.
 */
module DspState {
  import opened Wrappers
  import opened Pcm16
  import opened ResampleFilter

  const INPUT_SAMPLES: nat := 480
  const OUTPUT_SAMPLES: nat := 160
  const TWO_64: nat := 0x1_0000_0000_0000_0000
  const SILENT_HISTORY: seq<Sample> := [0, 0, 0, 0, 0, 0]

  datatype Discontinuity = Continuous | Xrun | RingOverflow | Unrecoverable

  datatype Delay = NotFinite | Finite(milliseconds: real)

  /** What the adapter answers, in the order it is asked; a false answer ends the questions. */
  datatype Reply = Reply(renderAccepted: bool, delayAccepted: bool, cleaned: Option<seq<Sample>>)

  datatype Input = Input(generation: nat, sequence: nat, delay: Delay, discontinuity: Discontinuity, reply: Reply)

  datatype Status =
    | Cleaned | InvalidConfiguration | InvalidDelay | Discontinuous | ReorderedFrame | AdapterFailure | Rejected

  /** The samples are meaningful for a cleaned frame only; any other result carries silence. */
  datatype Result = Result(status: Status, cleaned: seq<Sample>)

  const NO_OUTPUT: seq<Sample> := []

  predicate DelayAllowed(d: Delay) {
    d.Finite? && 40.0 <= d.milliseconds <= 250.0
  }

  /** The adapter accepted all three requests and handed back a frame of the fixed size. */
  predicate Accepted(r: Reply) {
    r.renderAccepted && r.delayAccepted && r.cleaned.Some? && |r.cleaned.value| == INPUT_SAMPLES
  }

  datatype Pipeline = Pipeline(
    configurationValid: bool,
    hasGeneration: bool,
    generation: nat,
    quarantined: bool,
    expected: nat,
    phase: nat,
    history: seq<Sample>,
    initialized: bool,
    adapterResets: nat
  ) {
    function ResetProcessing(): Pipeline {
      this.(expected := 0, phase := 0, history := SILENT_HISTORY, initialized := false,
            adapterResets := adapterResets + 1)
    }

    function Reject(quarantine: bool): Pipeline {
      this.ResetProcessing().(quarantined := quarantined || (quarantine && hasGeneration))
    }

    /** Moves on to the input's generation when it is newer than the current one. */
    function Enter(i: Input): Pipeline {
      if hasGeneration && i.generation <= generation then this
      else (if hasGeneration then ResetProcessing() else this)
           .(hasGeneration := true, generation := i.generation, quarantined := false, expected := i.sequence)
    }

    /** The filter as it stands when a frame starting with `first` arrives. */
    function FilterAt(first: Sample): Filter {
      Filter(if initialized then history else [first, first, first, first, first, first], phase, [])
    }

    function Clean(sequence: nat, samples: seq<Sample>): (Pipeline, Result)
      requires |samples| == INPUT_SAMPLES && |history| == HISTORY && phase < 3
    {
      var f := PushFirst(FilterAt(samples[0]), samples, |samples|);
      (this.(history := f.history, phase := f.phase, initialized := true, expected := (sequence + 1) % TWO_64),
       Result(Cleaned, f.out))
    }

    function Process(i: Input): (Pipeline, Result)
      requires |history| == HISTORY && phase < 3
    {
      if !configurationValid then (Reject(false), Result(InvalidConfiguration, NO_OUTPUT))
      else if hasGeneration && i.generation < generation then (this, Result(Rejected, NO_OUTPUT))
      else
        var p := Enter(i);
        if !DelayAllowed(i.delay) then (p.Reject(true), Result(InvalidDelay, NO_OUTPUT))
        else if p.quarantined then (p, Result(Rejected, NO_OUTPUT))
        else if !i.discontinuity.Continuous? then (p.Reject(true), Result(Discontinuous, NO_OUTPUT))
        else if i.sequence != p.expected then (p.Reject(true), Result(ReorderedFrame, NO_OUTPUT))
        else if !Accepted(i.reply) then (p.Reject(true), Result(AdapterFailure, NO_OUTPUT))
        else p.Clean(i.sequence, i.reply.cleaned.value)
    }
  }

  function Fresh(configurationValid: bool): Pipeline {
    Pipeline(configurationValid, false, 0, false, 0, 0, SILENT_HISTORY, false, 0)
  }
}
