/**
  The shared state of the continuous recognizer and its critical sections. Every function of
  `Provider` below is the effect of one critical section, or of one atomic access, of the
  producer, the finisher, the shutdown caller or the worker; nothing interleaves inside one.
 */
module SenseVoiceState {
  import opened Wrappers

  type Sample = int

  /** Samples in one cleaned 10 ms frame at 16 kHz. */
  const FRAME_SAMPLES: nat := 160

  datatype Frame = Frame(generation: nat, sequence: nat, valid: nat, samples: seq<Sample>)

  function Zeros(n: nat): (z: seq<Sample>)
    ensures |z| == n
  {
    seq(n, _ => 0)
  }

  const DEFAULT_FRAME: Frame := Frame(0, 0, FRAME_SAMPLES, Zeros(FRAME_SAMPLES))

  /** A frame the utterance buffer accepts, whatever room is left. */
  predicate WellSized(f: Frame) {
    0 < f.valid <= FRAME_SAMPLES
  }

  /** The samples a frame contributes: its first `valid` ones. */
  function FramePcm(f: Frame): seq<Sample> {
    if f.valid <= |f.samples| then f.samples[..f.valid] else []
  }

  /** What the worker finds to do when it wakes up. */
  datatype Work = Sleep | Stop | ReportOverflow(frame: Frame) | Process(frame: Frame) | FinishUtterance

  /** Private to the worker; cleared at every turn boundary. */
  datatype Turn = Turn(admitted: nat, lastEndpoint: nat, wakeSent: bool, lastFrame: Option<Frame>)

  datatype Overflow = Overflow(quarantined: bool, pending: bool, failureEmitted: bool, frame: Frame)

  datatype Finish = Finish(requested: bool, handled: bool, duplicate: bool)

  const NEW_TURN := Turn(0, 0, false, None)
  const NO_FINISH := Finish(false, false, false)

  datatype Provider = Provider(
    capacity: nat,
    queue: seq<Frame>,
    pcm: seq<Sample>,
    stopRequested: bool,
    stopping: bool,
    armed: bool,
    hasSink: bool,
    turn: Turn,
    overflow: Overflow,
    finish: Finish
  ) {
    // ---- producer and controller threads

    function ProcessFrame(f: Frame): Provider {
      if stopping then this
      else if finish.requested then this.(finish := finish.(duplicate := true))
      else if |queue| == capacity then
        this.(hasSink := true, armed := false, queue := [],
              overflow := overflow.(quarantined := true, pending := true, frame := f))
      else this.(hasSink := true, queue := queue + [f])
    }

    function FinishInput(): Provider {
      if stopping then this
      else if !armed || finish.requested || finish.handled then
        if armed && (finish.requested || finish.handled)
        then this.(finish := finish.(duplicate := true)) else this
      else this.(finish := finish.(requested := true, handled := false))
    }

    function RequestStop(): Provider {
      this.(stopRequested := true)
    }

    function Shutdown(): Provider {
      this.(stopping := true, armed := false, queue := [], overflow := overflow.(pending := false),
            hasSink := false, finish := Finish(false, true, false))
    }

    // ---- worker thread

    predicate HasWork() {
      stopping || queue != [] || overflow.pending || (finish.requested && !finish.handled) || finish.duplicate
    }

    function TakeWork(): (Provider, Work) {
      if !HasWork() then (this, Sleep)
      else if stopping && queue == [] && !overflow.pending then (this, Stop)
      else if overflow.pending then (this, ReportOverflow(overflow.frame))
      else if queue != [] then (this.(queue := queue[1..]), Process(queue[0]))
      else if finish.requested && !finish.handled then
        if armed then (this.(finish := finish.(handled := true)), FinishUtterance)
        // the block falls through to processing a default-constructed frame
        else (this.(finish := finish.(handled := true, requested := false)), Process(DEFAULT_FRAME))
      else (this.(finish := finish.(duplicate := false)), FinishUtterance)
    }

    predicate IsArmed() {
      armed && !stopping
    }

    /** Whether an event handed to the sink now is delivered. */
    predicate Delivers() {
      !stopping && hasSink
    }

    function Retire(): Provider {
      this.(armed := false, queue := [])
    }

    function ResetTurn(): Provider {
      if stopping then this
      else this.(armed := true, pcm := [], turn := NEW_TURN, finish := NO_FINISH,
                 overflow := Overflow(false, false, false, overflow.frame),
                 hasSink := hasSink && queue != [])
    }

    function ClaimOverflow(fallback: Frame): (Provider, Option<Frame>) {
      if !overflow.quarantined || overflow.failureEmitted || stopping then (this, None)
      else (this.(overflow := overflow.(failureEmitted := true, pending := false)),
            Some(if overflow.pending then overflow.frame else fallback))
    }

    function FinishEndpoint(endpoint: nat): Provider
      requires endpoint <= |pcm|
    {
      this.(armed := false, queue := [], pcm := pcm[..endpoint])
    }

    function Admit(f: Frame): Provider {
      this.(turn := turn.(admitted := turn.admitted + 1, lastFrame := Some(f)))
    }

    /** The buffer holds `capacity` full frames. */
    predicate Fits(f: Frame) {
      |pcm| + f.valid <= capacity * FRAME_SAMPLES
    }

    function CopyFrame(f: Frame): (Provider, bool) {
      if !WellSized(f) || !Fits(f) then (this, false)
      else (this.(pcm := pcm + FramePcm(f)), true)
    }

    function ReadFinish(): (Provider, Option<Frame>, bool) {
      (this.(finish := finish.(duplicate := false)), turn.lastFrame, finish.duplicate)
    }
  }

  /** The configured bound: zero means the default, and the default is also the maximum. */
  const DEFAULT_MAXIMUM_UTTERANCE_FRAMES: nat := 1500

  function MaximumUtteranceFrames(configured: nat): (n: nat)
    ensures 1 <= n <= DEFAULT_MAXIMUM_UTTERANCE_FRAMES
    ensures 1 <= configured <= DEFAULT_MAXIMUM_UTTERANCE_FRAMES ==> n == configured
  {
    if configured == 0 || DEFAULT_MAXIMUM_UTTERANCE_FRAMES < configured
    then DEFAULT_MAXIMUM_UTTERANCE_FRAMES else configured
  }

  function Fresh(capacity: nat): Provider {
    Provider(capacity, [], [], false, false, true, false, NEW_TURN,
             Overflow(false, false, false, DEFAULT_FRAME), NO_FINISH)
  }
}
