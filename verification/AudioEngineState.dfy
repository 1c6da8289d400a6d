/**
  The state of the real-time audio engine and the effect of each of its atomic actions. The
  rings are bounded queues: the single-producer rings of capacity N hold N - 1 items, the
  capture ring overwrites its oldest frame when full and reports what it lost at the next pop.
 */
module AudioEngineState {
  import opened Wrappers
  import opened Pcm16
  import opened AudioFade

  const RING_CAPACITY: nat := 8
  const PLAYBACK_RING_CAPACITY: nat := 2048

  datatype Reason =
    | CaptureInputOverflow | External | StreamLifecycle | ActiveOutputXrun
    | FrameSize | ReferenceOverflow | CallbackException

  /** The seven reason counters, as the number of times each reason has been counted. */
  type Tally = multiset<Reason>

  /** Requests published by any thread, and how many of them the callback has acted on. */
  datatype Requests = Requests(requested: nat, observed: nat)

  /** A moment, told by how many requests of each kind had been published. */
  datatype Stamp = Stamp(discontinuities: nat, fences: nat)

  /** A playback packet. `asked` is the moment at which its generation was read. */
  datatype Packet = Packet(generation: nat, scope: nat, samples: seq<Sample>, asked: Stamp, acted: Stamp)

  datatype Write = Write(scope: nat, generation: nat, count: nat)

  /** A capture or reference frame, with the ordinal of the callback that published it. */
  datatype Frame = Frame(generation: nat, samples: seq<Sample>, call: nat)

  datatype Engine = Engine(
    generation: nat,
    playbackGeneration: nat,
    capturing: bool,
    active: bool,
    breaks: Requests,       // discontinuity requests
    fences: Requests,       // playback fence requests
    fade: Fade,
    playback: seq<Packet>,
    writes: seq<Write>,
    references: seq<Frame>,
    captures: seq<Frame>,
    unreported: nat,        // overwritten captures the consumer has not been told of
    tally: Tally,
    discontinuities: nat,
    produced: nat,
    delivered: nat,
    reportedDrops: nat
  ) {
    function Now(): Stamp {
      Stamp(breaks.requested, fences.requested)
    }

    predicate CanPushReference() {
      |references| < RING_CAPACITY - 1
    }

    function PublishBreak(): Engine {
      this.(breaks := breaks.(requested := breaks.requested + 1))
    }

    function PublishFence(): Engine {
      this.(fences := fences.(requested := fences.requested + 1))
    }

    /** commit_pending_discontinuities, in three parts: the two generations, then the rest. */
    function AdvanceGeneration(n: nat): Engine {
      this.(generation := generation + n)
    }

    function AdvancePlayback(n: nat): Engine {
      this.(playbackGeneration := playbackGeneration + n)
    }

    function ObserveBreaks(requested: nat): Engine
      requires breaks.observed <= requested
    {
      this.(active := false, discontinuities := discontinuities + (requested - breaks.observed),
            breaks := breaks.(observed := requested))
    }

    function ObserveFences(requested: nat): Engine {
      this.(active := false, fences := fences.(observed := requested))
    }

    /** commit_capture_discontinuity */
    function BreakCapture(r: Reason): Engine {
      this.(tally := tally + multiset{r}, generation := generation + 1, discontinuities := discontinuities + 1)
    }

    function PushCapture(f: Frame): Engine {
      if |captures| < RING_CAPACITY then this.(captures := captures + [f], produced := produced + 1)
      else this.(captures := captures[1..] + [f], unreported := unreported + 1, produced := produced + 1)
    }

    function PopCapture(): (Engine, Option<Frame>) {
      if captures == [] then (this, None)
      else (this.(captures := captures[1..], unreported := 0, reportedDrops := reportedDrops + unreported),
            Some(captures[0]))
    }

    function PopReference(): (Engine, Option<Frame>) {
      if references == [] then (this, None)
      else (this.(references := references[1..]), Some(references[0]))
    }

    function PopPlayback(): (Engine, Option<Packet>) {
      if playback == [] then (this, None)
      else (this.(playback := playback[1..]), Some(playback[0]))
    }
  }

  const START := Engine(1, 1, true, false, Requests(0, 0), Requests(0, 0), NO_FADE, [], [], [], [], 0,
                        multiset{}, 0, 0, 0, 0)
}
