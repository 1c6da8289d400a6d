/**
  Every interleaving of the audio callback, one playback producer, the capture consumer, the
  reader of playback accounting and any number of control threads, one atomic access at a time.
 */
module AudioEngineRuns {
  import opened Wrappers
  import opened Pcm16
  import opened AudioFade
  import opened AudioEngineState

  /** What the audio device hands to one callback. `throws` stands for a failing hook at its boundary. */
  datatype Call = Call(capture: seq<Sample>, hasOutput: bool, frameCount: nat,
                       inputOverflow: bool, outputUnderflow: bool, throws: bool)

  /** What a callback has read by the time it renders: phase, generation, playback generation. */
  datatype Context = Context(call: Call, capturing: bool, generation: nat, playbackGeneration: nat)

  /** The packet a final frame plays, and the moments at which the two kinds of request were checked. */
  datatype Source = Source(packet: Packet, breaksSeen: nat, fencesSeen: nat)

  datatype Final = Final(samples: seq<Sample>, source: Option<Source>, toDevice: bool)

  datatype CommitAt =
    | Loading
    | AddingGeneration(requested: nat)
    | AddingPlayback(requested: nat)
    | Observing(requested: nat)

  datatype JudgeAt =
    | ReadingActive
    | ReadingPhase(activeXrun: bool)
    | ReadingRoom(activeXrun: bool, capturing: bool)
    | Marking(reason: Reason)
    | Publishing
    | BreakingCapture
    | Silencing
    | ReadingGeneration(capturing: bool)
    | ReadingPlayback(capturing: bool, generation: nat)

  datatype RenderAt =
    | Popping(attempt: nat)
    | Rendering(found: Option<Packet>)
    | CheckingBreaks(rendered: seq<Sample>, packet: Packet)
    | CheckingFences(rendered: seq<Sample>, packet: Packet, breaksSeen: nat)

  datatype FinishAt =
    | Emitting
    | RecheckingBreaks(write: Write)
    | RecheckingFences(write: Write)
    | Accounting(write: Write)
    | LosingAccount
    | Referencing
    | LosingReference

  /** Where the callback is: committing discontinuities or fences, judging its status, rendering, publishing. */
  datatype Pc =
    | Outside
    | Breaking(call: Call, entering: bool, commitAt: CommitAt)
    | Fencing(call: Call, commitAt: CommitAt)
    | Judging(call: Call, judgeAt: JudgeAt)
    | Running(k: Context, renderAt: RenderAt)
    | Finishing(k: Context, final: Final, finishAt: FinishAt)
    | Capturing(k: Context)

  datatype Producer = Idle | Pushing(packet: Packet) | Complaining

  /** Whether the rings were level when the capture was accepted, and whether the generation has moved since. */
  datatype Window = Window(level: bool, moved: bool)

  datatype Consumer =
    | Resting
    | Popped(capture: Frame)
    | Expecting(capture: Frame, expected: nat)
    | Draining(capture: Frame)
    | Asking(capture: Frame, w: Window)
    | Fetching(capture: Frame, w: Window, expected: nat, attempt: nat)
    | Confirming(capture: Frame, w: Window, expected: nat, attempt: nat, reference: Frame)

  datatype Pair = Pair(capture: Frame, reference: Frame, w: Window)

  /** A stale capture, what was dropped with it, and whether the rings were level before. */
  datatype Drained = Drained(capture: Frame, reference: Option<Frame>, level: bool)

  /** One pass of the renderer: its callback, the gain it read, a new fade request if there was one, the fade it met. */
  datatype Pass = Pass(call: nat, gain: nat, request: Option<nat>, fade: Fade)

  /**
    What has happened: final frames by callback, playback emitted and accounted, pairs handed over,
    what the device handed in by callback, and the passes of the renderer.
   */
  datatype History = History(
    finals: map<nat, Final>,
    emitted: seq<Write>,
    accounted: seq<Write>,
    taken: nat,
    pairs: seq<Pair>,
    drained: seq<Drained>,
    inputs: map<nat, seq<Sample>>,
    passes: seq<Pass>)

  datatype System = System(
    e: Engine,
    pc: Pc,
    calls: nat,            // the ordinal of the current callback
    marking: nat,          // control threads between counting a reason and publishing their request
    producer: Producer,
    consumer: Consumer,
    h: History)

  datatype Step =
    | Callback(call: Call, gain: nat, fade: Option<nat>)
    | Produce(samples: seq<Sample>, scope: nat)
    | Consume
    | TakeWrite
    | MarkBreak(reason: Reason)
    | PublishBreak
    | PublishFence
    | SetPhase(capturing: bool)
    | MarkInactive

  const BEGIN := System(START, Outside, 0, 0, Idle, Resting, History(map[], [], [], 0, [], [], map[], []))

  function Next(s: System, step: Step): System {
    match step
    case Callback(call, gain, fade) => CallbackStep(s, call, gain, fade)
    case Produce(samples, scope) => ProducerStep(s, samples, scope)
    case Consume => ConsumerStep(s)
    case _ => ControlStep(s, step)
  }

  /** The control threads, and the reader of playback accounting. */
  function ControlStep(s: System, step: Step): System {
    match step
    case TakeWrite =>
      if s.e.writes == [] then s
      else s.(e := s.e.(writes := s.e.writes[1..]), h := s.h.(taken := s.h.taken + 1))
    case MarkBreak(reason) =>
      if reason.CaptureInputOverflow? then s else s.(e := s.e.(tally := s.e.tally + multiset{reason}), marking := s.marking + 1)
    case PublishBreak => if s.marking == 0 then s else s.(e := s.e.PublishBreak(), marking := s.marking - 1)
    case PublishFence => s.(e := s.e.PublishFence())
    case SetPhase(capturing) => s.(e := s.e.(capturing := capturing))
    case MarkInactive => s.(e := s.e.(active := false))
    case _ => s
  }

  function Run(s: System, steps: seq<Step>, n: nat): System
    requires n <= |steps|
  {
    if n == 0 then s else Next(Run(s, steps, n - 1), steps[n - 1])
  }

  // ---- the playback producer

  function ProducerStep(s: System, samples: seq<Sample>, scope: nat): System {
    match s.producer
    case Idle =>
      if 0 < |samples| <= FRAME_SAMPLES
      then s.(producer := Pushing(Packet(s.e.playbackGeneration, scope, samples, s.e.Now(), Acted(s)))) else s
    case Pushing(packet) =>
      if |s.e.playback| < PLAYBACK_RING_CAPACITY - 1
      then s.(e := s.e.(playback := s.e.playback + [packet]), producer := Idle)
      else s.(producer := Complaining)
    case Complaining => s.(e := s.e.PublishFence(), producer := Idle)
  }

  /** The requests that the playback generation reflects. */
  function Acted(s: System): Stamp {
    Stamp(if s.pc.Breaking? && s.pc.commitAt.Observing? then s.pc.commitAt.requested else s.e.breaks.observed,
          if s.pc.Fencing? && s.pc.commitAt.Observing? then s.pc.commitAt.requested else s.e.fences.observed)
  }

  // ---- the callback

  predicate InWindow(c: Consumer) {
    c.Asking? || c.Fetching? || c.Confirming?
  }

  /** The generation moves: any capture accepted but not yet paired has lost its generation. */
  function Moved(s: System): System {
    if InWindow(s.consumer) then s.(consumer := s.consumer.(w := s.consumer.w.(moved := true))) else s
  }

  function CallbackStep(s: System, call: Call, gain: nat, fade: Option<nat>): System {
    match s.pc
    case Outside =>
      s.(calls := s.calls + 1, pc := Breaking(call, true, Loading),
         h := s.h.(inputs := s.h.inputs[s.calls + 1 := call.capture]))
    case Breaking(call, entering, at) => BreakStep(s, call, entering, at)
    case Fencing(call, at) => FenceStep(s, call, at)
    case Judging(call, at) => JudgeStep(s, call, at)
    case Running(k, at) => RenderStep(s, k, at, gain, fade)
    case Finishing(k, final, at) => FinishStep(s, k, final, at)
    case Capturing(k) => s.(e := s.e.PushCapture(Frame(k.generation, k.call.capture, s.calls)), pc := Outside)
  }

  /** commit_pending_discontinuities, on entry and again on each failure path. */
  function BreakStep(s: System, call: Call, entering: bool, at: CommitAt): System {
    var next := if entering then Fencing(call, Loading) else Judging(call, Silencing);
    match at
    case Loading =>
      var requested := s.e.breaks.requested;
      s.(pc := if requested == s.e.breaks.observed then next else Breaking(call, entering, AddingGeneration(requested)))
    case AddingGeneration(requested) =>
      if requested < s.e.breaks.observed then s
      else Moved(s).(e := s.e.AdvanceGeneration(requested - s.e.breaks.observed),
                     pc := Breaking(call, entering, AddingPlayback(requested)))
    case AddingPlayback(requested) =>
      if requested < s.e.breaks.observed then s
      else s.(e := s.e.AdvancePlayback(requested - s.e.breaks.observed),
              pc := Breaking(call, entering, Observing(requested)))
    case Observing(requested) =>
      if requested < s.e.breaks.observed then s else s.(e := s.e.ObserveBreaks(requested), pc := next)
  }

  /** commit_pending_playback_fences */
  function FenceStep(s: System, call: Call, at: CommitAt): System {
    match at
    case Loading =>
      var requested := s.e.fences.requested;
      s.(pc := if requested == s.e.fences.observed then Judging(call, ReadingActive)
               else Fencing(call, AddingPlayback(requested)))
    case AddingGeneration(requested) => s
    case AddingPlayback(requested) =>
      if requested < s.e.fences.observed then s
      else s.(e := s.e.AdvancePlayback(requested - s.e.fences.observed), pc := Fencing(call, Observing(requested)))
    case Observing(requested) => s.(e := s.e.ObserveFences(requested), pc := Judging(call, ReadingActive))
  }

  /** From the status flags to either a failure path or the two generation reads. */
  function JudgeStep(s: System, call: Call, at: JudgeAt): System {
    match at
    case ReadingActive => s.(pc := Judging(call, ReadingPhase(call.outputUnderflow && s.e.active)))
    case ReadingPhase(activeXrun) => s.(pc := Judging(call, ReadingRoom(activeXrun, s.e.capturing)))
    case ReadingRoom(activeXrun, capturing) =>
      s.(pc := Judging(call, Judge(call, activeXrun, capturing, capturing && !s.e.CanPushReference())))
    case Marking(reason) => s.(e := s.e.(tally := s.e.tally + multiset{reason}), pc := Judging(call, Publishing))
    case Publishing => s.(e := s.e.PublishBreak(), pc := Breaking(call, false, Loading))
    case BreakingCapture => Moved(s).(e := s.e.BreakCapture(CaptureInputOverflow), pc := Judging(call, Silencing))
    case Silencing =>
      s.(h := s.h.(finals := s.h.finals[s.calls := Final(Zeros(call.frameCount), None, call.hasOutput)]), pc := Outside)
    case ReadingGeneration(capturing) => s.(pc := Judging(call, ReadingPlayback(capturing, s.e.generation)))
    case ReadingPlayback(capturing, generation) =>
      s.(pc := if call.throws then Judging(call, Marking(CallbackException))
               else Running(Context(call, capturing, generation, s.e.playbackGeneration), Popping(0)))
  }

  function Judge(call: Call, activeXrun: bool, capturing: bool, full: bool): JudgeAt {
    var missized := call.frameCount != FRAME_SAMPLES;
    if activeXrun || call.inputOverflow then
      if activeXrun || missized || full then
        Marking(if activeXrun then ActiveOutputXrun else if missized then FrameSize else ReferenceOverflow)
      else BreakingCapture
    else if missized then Marking(FrameSize)
    else if call.outputUnderflow then Silencing
    else ReadingGeneration(capturing)
  }

  function Zeros(n: nat): seq<Sample> {
    seq(n, _ => 0)
  }

  /** The bounded search for a packet of the callback's generation, then gain and fade, then the publication checks. */
  function RenderStep(s: System, k: Context, at: RenderAt, gain: nat, fade: Option<nat>): System {
    match at
    case Popping(attempt) =>
      if attempt == PLAYBACK_RING_CAPACITY then s.(pc := Running(k, Rendering(None)))
      else
        var (e, packet) := s.e.PopPlayback();
        s.(e := e, pc := Running(k, match packet
                                    case None => Rendering(None)
                                    case Some(p) => if p.generation == k.playbackGeneration then Rendering(Some(p))
                                                    else Popping(attempt + 1)))
    case Rendering(found) =>
      var f := match fade case None => s.e.fade case Some(total) => Fade(total, total);
      var input := if found.Some? && |found.value.samples| <= FRAME_SAMPLES then found.value.samples else [];
      var (f', rendered) := RenderFrame(f, gain, Padded(input));
      s.(e := s.e.(fade := f'),
         h := s.h.(passes := s.h.passes + [Pass(s.calls, gain, fade, f)]),
         pc := match found
               case None => Finishing(k, Silent(k), Emitting)
               case Some(p) => Running(k, CheckingBreaks(rendered, p)))
    case CheckingBreaks(rendered, packet) =>
      s.(pc := if s.e.breaks.requested == s.e.breaks.observed
               then Running(k, CheckingFences(rendered, packet, s.e.breaks.requested))
               else Finishing(k, Silent(k), Emitting))
    case CheckingFences(rendered, packet, breaksSeen) =>
      s.(pc := Finishing(k, if s.e.fences.requested == s.e.fences.observed
                            then Final(rendered, Some(Source(packet, breaksSeen, s.e.fences.requested)), k.call.hasOutput)
                            else Silent(k), Emitting))
  }

  function Silent(k: Context): Final {
    Final(Zeros(FRAME_SAMPLES), None, k.call.hasOutput)
  }

  predicate NonSilent(samples: seq<Sample>, n: nat) {
    exists i :: 0 <= i < n && i < |samples| && samples[i] != 0
  }

  /** The copy to the device, the accounting of what was played, and the reference frame. */
  function FinishStep(s: System, k: Context, final: Final, at: FinishAt): System {
    var next := if k.capturing then Finishing(k, final, Referencing) else Outside;
    match at
    case Emitting => Emit(s, k, final, next)
    case RecheckingBreaks(write) =>
      s.(pc := if s.e.breaks.requested == s.e.breaks.observed then Finishing(k, final, RecheckingFences(write)) else next)
    case RecheckingFences(write) =>
      s.(pc := if s.e.fences.requested == s.e.fences.observed then Finishing(k, final, Accounting(write)) else next)
    case Accounting(write) =>
      if |s.e.writes| < RING_CAPACITY - 1
      then s.(e := s.e.(writes := s.e.writes + [write]), h := s.h.(accounted := s.h.accounted + [write]), pc := next)
      else s.(pc := Finishing(k, final, LosingAccount))
    case LosingAccount => s.(e := s.e.PublishFence(), pc := next)
    case Referencing =>
      if !s.e.CanPushReference() then s.(pc := Finishing(k, final, LosingReference))
      else s.(e := s.e.(references := s.e.references + [Frame(k.generation, final.samples, s.calls)]), pc := Capturing(k))
    case LosingReference => Moved(s).(e := s.e.BreakCapture(ReferenceOverflow), pc := Outside)
  }

  function Emit(s: System, k: Context, final: Final, next: Pc): System {
    var h := s.h.(finals := s.h.finals[s.calls := final]);
    if final.source.None? then s.(h := h, pc := next)
    else
      var p := final.source.value.packet;
      var write := Write(p.scope, k.playbackGeneration, |p.samples|);
      s.(e := s.e.(active := true),
         h := if final.toDevice then h.(emitted := h.emitted + [write]) else h,
         pc := if final.toDevice && p.scope != 0 && NonSilent(final.samples, |p.samples|)
               then Finishing(k, final, RecheckingBreaks(write)) else next)
  }

  // ---- the consumer: one pump takes a capture and then its reference

  /** The capture the consumer has taken while its reference may still be in the ring. */
  function Held(c: Consumer): seq<Frame> {
    if c.Resting? || c.Confirming? then [] else [c.capture]
  }

  /** The capture whose reference the callback has already published. */
  function Pending(s: System): seq<Frame> {
    if s.pc.Capturing? then [Frame(s.pc.k.generation, s.pc.k.call.capture, s.calls)] else []
  }

  /** The captures that can still have a reference in the ring. */
  function Line(s: System): seq<Frame> {
    Held(s.consumer) + s.e.captures + Pending(s)
  }

  /** As many references wait as captures that can still have one. */
  predicate Level(s: System) {
    |s.e.references| == |Line(s)|
  }

  function ConsumerStep(s: System): System {
    match s.consumer
    case Resting =>
      var (e, capture) := s.e.PopCapture();
      s.(e := e, consumer := match capture case None => Resting case Some(c) => Popped(c))
    case Popped(c) => s.(consumer := if c.generation == s.e.generation then Expecting(c, s.e.generation) else Draining(c))
    case Expecting(c, expected) =>
      if s.e.generation == expected
      then s.(e := s.e.(delivered := s.e.delivered + 1), consumer := Asking(c, Window(Level(s), false)))
      else s.(consumer := Draining(c))
    case Draining(c) =>
      var (e, reference) := s.e.PopReference();
      s.(e := e.(reportedDrops := e.reportedDrops + 1),
         h := s.h.(drained := s.h.drained + [Drained(c, reference, Level(s))]),
         consumer := Resting)
    case Asking(c, w) => s.(consumer := Fetching(c, w, s.e.generation, 0))
    case Fetching(c, w, expected, attempt) =>
      if attempt == RING_CAPACITY then s.(consumer := Resting)
      else
        var (e, reference) := s.e.PopReference();
        s.(e := e, consumer := match reference
                               case None => Resting
                               case Some(r) => if r.generation == expected then Confirming(c, w, expected, attempt, r)
                                               else Fetching(c, w, expected, attempt + 1))
    case Confirming(c, w, expected, attempt, r) =>
      if s.e.generation == expected
      then s.(h := s.h.(pairs := s.h.pairs + [Pair(c, r, w)]), consumer := Resting)
      else s.(consumer := Fetching(c, w, expected, attempt + 1))
  }
}
