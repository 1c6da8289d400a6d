/** One pump of the continuous session: a capture, its reference, one pipeline call, and what becomes of the result. */
module VadSession {
  import opened Wrappers
  import opened Pcm16
  import DspState
  import opened DspPipeline

  const READINESS_WARMUP_FRAMES: nat := 3
  const ASSUMED_DELAY := DspState.Finite(100.0)

  /** What the engine and the outside world offer one pump. */
  datatype Offer =
    | NoCapture
    | NoReference
    | Both(generation: nat, reply: DspState.Reply, activates: bool)

  datatype PumpResult = Capturing | Failed

  datatype CleanedFrame = CleanedFrame(generation: nat, sequence: nat, samples: seq<Sample>)

  /** The counters of a session, and its history: inputs driven, frames cleaned, frames passed on. */
  datatype State = State(
    nextSequence: nat,
    warmup: nat,
    active: bool,
    aborts: nat,
    inputs: seq<DspState.Input>,
    cleaned: seq<CleanedFrame>,
    accepted: seq<CleanedFrame>)

  const NEW_SESSION := State(1, 0, false, 0, [], [], [])

  function DrivenInput(generation: nat, sequence: nat, reply: DspState.Reply): DspState.Input {
    DspState.Input(generation, sequence, ASSUMED_DELAY, DspState.Continuous, reply)
  }

  /** A cleaned frame warms the session up, opens the publisher, or is passed on. */
  function Deliver(s: State, f: CleanedFrame, activates: bool): (State, PumpResult) {
    if s.active then (s.(accepted := s.accepted + [f]), Capturing)
    else
      var t := s.(warmup := s.warmup + 1);
      if t.warmup < READINESS_WARMUP_FRAMES then (t, Capturing)
      else if !activates then (t.(aborts := t.aborts + 1), Failed)
      else (t.(active := true), Capturing)
  }

  function PumpState(s: State, p: DspState.Pipeline, o: Offer): (State, DspState.Pipeline, PumpResult)
    requires |p.history| == 6 && p.phase == 0
  {
    match o
    case NoCapture => (s, p, Capturing)
    case NoReference => (s.(aborts := s.aborts + 1), p, Failed)
    case Both(generation, reply, activates) =>
      var i := DrivenInput(generation, s.nextSequence, reply);
      var (p', r) := p.Process(i);
      var t := s.(nextSequence := (s.nextSequence + 1) % DspState.TWO_64, inputs := s.inputs + [i]);
      if !r.status.Cleaned? then (t.(aborts := t.aborts + 1), p', Failed)
      else
        var f := CleanedFrame(generation, s.nextSequence, r.cleaned);
        var (u, result) := Deliver(t.(cleaned := t.cleaned + [f]), f, activates);
        (u, p', result)
  }

  class Session {
    const dsp: Pipeline
    var state: State

    ghost predicate Valid()
      reads this, dsp, dsp.history, dsp.history.data
    {
      dsp.Valid() && dsp.phase == 0
    }

    constructor ()
      ensures Valid() && state == NEW_SESSION && dsp.View() == DspState.Fresh(true)
      ensures fresh(dsp) && fresh(dsp.history) && fresh(dsp.history.data)
    {
      dsp := new Pipeline(true);
      state := NEW_SESSION;
    }

    method Stop()
      modifies this
      ensures state == old(state).(aborts := old(state).aborts + 1)
    {
      state := state.(aborts := state.aborts + 1);
    }

    method Pump(o: Offer) returns (result: PumpResult)
      requires Valid()
      modifies this, dsp, dsp.history.data
      ensures Valid() && (state, dsp.View(), result) == PumpState(old(state), old(dsp.View()), o)
    {
      if o.NoCapture? {
        return Capturing;
      }
      if o.NoReference? {
        Stop();
        return Failed;
      }
      var i := DrivenInput(o.generation, state.nextSequence, o.reply);
      state := state.(nextSequence := (state.nextSequence + 1) % DspState.TWO_64, inputs := state.inputs + [i]);
      var r := dsp.Process(i);
      if r.status != DspState.Cleaned {
        Stop();
        return Failed;
      }
      var frame := CleanedFrame(i.generation, i.sequence, r.cleaned);
      state := state.(cleaned := state.cleaned + [frame]);
      if !state.active {
        state := state.(warmup := state.warmup + 1);
        if state.warmup < READINESS_WARMUP_FRAMES {
          return Capturing;
        }
        if !o.activates {
          Stop();
          return Failed;
        }
        state := state.(active := true);
        return Capturing;
      }
      state := state.(accepted := state.accepted + [frame]);
      return Capturing;
    }
  }
}
