/**
  What is heard and what is recorded, sample by sample: a final frame plays the samples of the
  packet it names under the gain and the fade of its callback, a fade goes on from one pass of the
  renderer to the next, and a capture holds what the device handed in.
 */
module AudioPlayback {
  import opened Wrappers
  import opened Pcm16
  import opened AudioFade
  import opened AudioEngineState
  import opened AudioEngineRuns
  import opened AudioFence

  /** One sample at full strength: scaled by the gain, and by what is left of the fade `i` samples into the frame. */
  function Volume(input: Sample, gain: nat, f: Fade, i: nat): Sample {
    var value := TruncatedDiv(input * gain, 32768);
    if f.total == 0 then Saturate(value)
    else if i < f.remaining then Saturate(TruncatedDiv(value * (f.remaining - i), f.total))
    else 0
  }

  /** The frame is the packet under this gain and fade, and silence past the packet's end. */
  predicate Plays(frame: seq<Sample>, packet: seq<Sample>, gain: nat, f: Fade) {
    && |frame| == 480
    && forall i :: 0 <= i < 480 ==> frame[i] == Volume(if i < |packet| then packet[i] else 0, gain, f, i)
  }

  /** What a frame of samples leaves of a fade. */
  function Left(f: Fade): Fade {
    if f.total == 0 || f.remaining <= 480 then NO_FADE else Fade(f.remaining - 480, f.total)
  }

  /** A fade that the renderer can meet: at most all of it is left, and nothing of none. */
  predicate Sensible(f: Fade) {
    f.remaining <= f.total
  }

  // ---- one pass of the renderer

  lemma {:induction false} RenderByIndex(f: Fade, gain: nat, input: seq<Sample>, n: nat, i: nat)
    requires n <= |input|
    ensures Render(f, gain, input, n).0
         == if f.total == 0 then f else f.(remaining := if n < f.remaining then f.remaining - n else 0)
    ensures i < n ==> Render(f, gain, input, n).1[i] == Volume(input[i], gain, f, i)
  {
    if 0 < n {
      RenderByIndex(f, gain, input, n - 1, if i < n - 1 then i else 0);
    }
  }

  lemma {:induction false} RenderingPlays(f: Fade, gain: nat, packet: seq<Sample>)
    requires |packet| <= FRAME_SAMPLES
    ensures Plays(RenderFrame(f, gain, Padded(packet)).1, packet, gain, f)
    ensures Sensible(f) ==> RenderFrame(f, gain, Padded(packet)).0 == Left(f)
  {
    hide Volume, Render;
    var input := Padded(packet);
    forall i | 0 <= i < 480
      ensures RenderFrame(f, gain, input).1[i] == Volume(if i < |packet| then packet[i] else 0, gain, f, i)
    {
      RenderByIndex(f, gain, input, 480, i);
    }
    RenderByIndex(f, gain, input, 480, 0);
  }

  // ---- every run

  /** The fade that the passes so far have left. */
  function LeftBy(passes: seq<Pass>): Fade {
    if passes == [] then NO_FADE else Left(passes[|passes| - 1].fade)
  }

  /** Each pass takes up its request, or what the pass before left. */
  predicate Chained(passes: seq<Pass>) {
    forall j :: 0 <= j < |passes| ==>
      && passes[j].fade == (match passes[j].request
                            case Some(total) => Fade(total, total)
                            case None => LeftBy(passes[..j]))
      && Sensible(passes[j].fade)
      && (0 < j ==> passes[j - 1].call < passes[j].call)
  }

  /** The frame plays the packet in the last pass, which is the current callback's. */
  predicate PlaysLast(s: System, frame: seq<Sample>, packet: seq<Sample>) {
    && s.h.passes != []
    && var pass := s.h.passes[|s.h.passes| - 1];
       pass.call == s.calls && Plays(frame, packet, pass.gain, pass.fade)
  }

  predicate InPass(passes: seq<Pass>, j: nat, c: nat, frame: seq<Sample>, packet: seq<Sample>) {
    j < |passes| && passes[j].call == c && Plays(frame, packet, passes[j].gain, passes[j].fade)
  }

  /** The final frame of callback `c`, if it plays a packet, plays it as one of the passes has it. */
  ghost predicate Accounted(passes: seq<Pass>, c: nat, f: Final) {
    f.source.Some? ==> exists j: nat :: InPass(passes, j, c, f.samples, f.source.value.packet.samples)
  }

  /** The current callback has been through the renderer. */
  predicate Passed(pc: Pc) {
    (pc.Running? && !pc.renderAt.Popping? && !pc.renderAt.Rendering?) || pc.Finishing? || pc.Capturing? || pc.Outside?
  }

  predicate PassesKept(s: System) {
    && Chained(s.h.passes)
    && s.e.fade == LeftBy(s.h.passes)
    && (s.h.passes != [] ==>
          var last := s.h.passes[|s.h.passes| - 1]; last.call <= s.calls && (last.call == s.calls ==> Passed(s.pc)))
  }

  predicate InHandPlays(s: System) {
    && (s.pc.Running? && s.pc.renderAt.CheckingBreaks? ==>
          PlaysLast(s, s.pc.renderAt.rendered, s.pc.renderAt.packet.samples))
    && (s.pc.Running? && s.pc.renderAt.CheckingFences? ==>
          PlaysLast(s, s.pc.renderAt.rendered, s.pc.renderAt.packet.samples))
    && (s.pc.Finishing? && s.pc.final.source.Some? ==>
          PlaysLast(s, s.pc.final.samples, s.pc.final.source.value.packet.samples))
  }

  ghost predicate FinalsPlay(s: System) {
    forall c :: c in s.h.finals ==> Accounted(s.h.passes, c, s.h.finals[c])
  }

  ghost predicate Playback(s: System) {
    PassesKept(s) && InHandPlays(s) && FinalsPlay(s)
  }

  /** What is in hand has been in hand before, under another name. */
  predicate SameInHand(s: System, t: System) {
    && (t.pc.Running? && t.pc.renderAt.CheckingBreaks? ==> t.pc == s.pc)
    && (t.pc.Running? && t.pc.renderAt.CheckingFences? ==>
          || t.pc == s.pc
          || (s.pc.Running? && s.pc.renderAt.CheckingBreaks?
              && t.pc.renderAt.rendered == s.pc.renderAt.rendered && t.pc.renderAt.packet == s.pc.renderAt.packet))
    && (t.pc.Finishing? && t.pc.final.source.Some? ==>
          || (s.pc.Finishing? && t.pc.final == s.pc.final)
          || (s.pc.Running? && s.pc.renderAt.CheckingFences? && t.pc.final.samples == s.pc.renderAt.rendered
              && t.pc.final.source.value.packet == s.pc.renderAt.packet))
  }

  /** A step that does not render. */
  predicate Leaves(s: System, t: System) {
    && t.h.passes == s.h.passes && t.e.fade == s.e.fade && t.calls == s.calls
    && (Passed(s.pc) ==> Passed(t.pc)) && SameInHand(s, t)
  }

  lemma LeavingKeeps(s: System, t: System)
    requires Playback(s) && Leaves(s, t) && FinalsPlay(t)
    ensures Playback(t)
  {
    hide Plays, Chained, Accounted, FinalsPlay;
  }

  lemma SameFinals(s: System, t: System)
    requires FinalsPlay(s) && Leaves(s, t) && t.h.finals == s.h.finals
    ensures FinalsPlay(t)
  {
    hide Accounted;
  }

  lemma CommitsLeave(s: System)
    ensures s.pc.Breaking? ==>
              var t := BreakStep(s, s.pc.call, s.pc.entering, s.pc.commitAt);
              Leaves(s, t) && t.h.finals == s.h.finals
    ensures s.pc.Fencing? ==>
              var t := FenceStep(s, s.pc.call, s.pc.commitAt); Leaves(s, t) && t.h.finals == s.h.finals
  {
  }

  lemma JudgingPlays(s: System)
    requires Playback(s) && s.pc.Judging?
    ensures Playback(JudgeStep(s, s.pc.call, s.pc.judgeAt))
  {
    hide Judge, Zeros, Plays, Chained, InPass;
    var t := JudgeStep(s, s.pc.call, s.pc.judgeAt);
    if !s.pc.judgeAt.Silencing? {
      SameFinals(s, t);
    }
    LeavingKeeps(s, t);
  }

  lemma PassesStayAccounted(passes: seq<Pass>, p: Pass, c: nat, f: Final)
    requires Accounted(passes, c, f)
    ensures Accounted(passes + [p], c, f)
  {
    hide Plays;
    if f.source.Some? {
      var j: nat :| InPass(passes, j, c, f.samples, f.source.value.packet.samples);
      assert InPass(passes + [p], j, c, f.samples, f.source.value.packet.samples);
    }
  }

  lemma ChainGrows(passes: seq<Pass>, p: Pass)
    requires Chained(passes) && Sensible(p.fade)
    requires p.fade == match p.request case Some(total) => Fade(total, total) case None => LeftBy(passes)
    requires passes != [] ==> passes[|passes| - 1].call < p.call
    ensures Chained(passes + [p])
  {
    hide Left;
    var after := passes + [p];
    forall j | 0 <= j < |after|
      ensures && after[j].fade == (match after[j].request
                                   case Some(total) => Fade(total, total)
                                   case None => LeftBy(after[..j]))
              && Sensible(after[j].fade) && (0 < j ==> after[j - 1].call < after[j].call)
    {
      assert after[..j] == passes[..j];
      if j == |passes| { assert passes[..j] == passes; }
    }
  }

  lemma LeftIsSensible(passes: seq<Pass>)
    requires Chained(passes)
    ensures Sensible(LeftBy(passes))
  {
  }

  /** The pass itself. */
  lemma RenderingPasses(s: System, gain: nat, fade: Option<nat>)
    requires Playback(s) && Packets(s) && s.pc.Running? && s.pc.renderAt.Rendering?
    ensures Playback(RenderStep(s, s.pc.k, s.pc.renderAt, gain, fade))
  {
    hide RenderFrame, Padded, Plays, Left, Chained, Sensible;
    var t := RenderStep(s, s.pc.k, s.pc.renderAt, gain, fade);
    var found := s.pc.renderAt.found;
    var f := match fade case None => s.e.fade case Some(total) => Fade(total, total);
    var input := if found.Some? then found.value.samples else [];
    var pass := Pass(s.calls, gain, fade, f);
    assert t.h.passes == s.h.passes + [pass];
    LeftIsSensible(s.h.passes);
    assert Sensible(f) by { assert fade.Some? ==> Sensible(f) by { TotalIsSensible(if fade.Some? then fade.value else 0); } }
    ChainGrows(s.h.passes, pass);
    RenderingPlays(f, gain, input);
    forall c | c in t.h.finals ensures Accounted(t.h.passes, c, t.h.finals[c]) {
      PassesStayAccounted(s.h.passes, pass, c, s.h.finals[c]);
    }
  }

  lemma TotalIsSensible(total: nat)
    ensures Sensible(Fade(total, total))
  {
  }

  lemma SearchLeaves(s: System, gain: nat, fade: Option<nat>)
    requires s.pc.Running? && !s.pc.renderAt.Rendering?
    ensures var t := RenderStep(s, s.pc.k, s.pc.renderAt, gain, fade); Leaves(s, t) && t.h.finals == s.h.finals
  {
    hide RenderFrame, Padded;
  }

  lemma EmittingPlays(s: System)
    requires Playback(s) && s.pc.Finishing? && s.pc.finishAt.Emitting?
    ensures Playback(FinishStep(s, s.pc.k, s.pc.final, Emitting))
  {
    hide Plays, Chained, NonSilent;
    var t := FinishStep(s, s.pc.k, s.pc.final, Emitting);
    assert t.h.finals == s.h.finals[s.calls := s.pc.final];
    assert Accounted(s.h.passes, s.calls, s.pc.final) by {
      if s.pc.final.source.Some? {
        assert InPass(s.h.passes, |s.h.passes| - 1, s.calls, s.pc.final.samples, s.pc.final.source.value.packet.samples);
      }
    }
    hide Accounted;
    LeavingKeeps(s, t);
  }

  lemma FinishingLeaves(s: System)
    requires s.pc.Finishing? && !s.pc.finishAt.Emitting?
    ensures var t := FinishStep(s, s.pc.k, s.pc.final, s.pc.finishAt); Leaves(s, t) && t.h.finals == s.h.finals
  {
    hide NonSilent;
  }

  lemma CallbackPlays(s: System, call: Call, gain: nat, fade: Option<nat>)
    requires Playback(s) && Packets(s)
    ensures Playback(CallbackStep(s, call, gain, fade))
  {
    hide BreakStep, FenceStep, JudgeStep, RenderStep, FinishStep, Packets, FinalsPlay, Leaves;
    var t := CallbackStep(s, call, gain, fade);
    match s.pc
    case Outside => BeginningPlays(s, call, gain, fade);
    case Judging(_, _) => JudgingPlays(s);
    case Running(_, at) =>
      if at.Rendering? { RenderingPasses(s, gain, fade); }
      else { SearchLeaves(s, gain, fade); SameFinals(s, t); LeavingKeeps(s, t); }
    case Finishing(_, _, at) =>
      if at.Emitting? { EmittingPlays(s); } else { FinishingLeaves(s); SameFinals(s, t); LeavingKeeps(s, t); }
    case Capturing(_) => CapturingLeaves(s, call, gain, fade); SameFinals(s, t); LeavingKeeps(s, t);
    case _ => CommitsLeave(s); SameFinals(s, t); LeavingKeeps(s, t);
  }

  lemma CapturingLeaves(s: System, call: Call, gain: nat, fade: Option<nat>)
    requires s.pc.Capturing?
    ensures var t := CallbackStep(s, call, gain, fade); Leaves(s, t) && t.h.finals == s.h.finals
  {
  }

  lemma BeginningPlays(s: System, call: Call, gain: nat, fade: Option<nat>)
    requires Playback(s) && s.pc.Outside?
    ensures Playback(CallbackStep(s, call, gain, fade))
  {
    hide Accounted, Chained;
  }

  lemma PlaybackKept(s: System, step: Step)
    requires Playback(s) && Packets(s)
    ensures Playback(Next(s, step))
  {
    hide CallbackStep, Packets, FinalsPlay;
    if step.Callback? {
      CallbackPlays(s, step.call, step.gain, step.fade);
    } else {
      OthersLeave(s, step);
      SameFinals(s, Next(s, step));
      LeavingKeeps(s, Next(s, step));
    }
  }

  lemma OthersLeave(s: System, step: Step)
    requires !step.Callback?
    ensures var t := Next(s, step); Leaves(s, t) && t.h.finals == s.h.finals
  {
  }

  lemma NothingPlayed()
    ensures Playback(BEGIN)
  {
  }

  lemma {:induction false} PlaybackHolds(steps: seq<Step>, n: nat)
    requires n <= |steps|
    ensures Playback(Run(BEGIN, steps, n))
  {
    hide Next, Playback, Packets;
    if n == 0 {
      NothingPlayed();
    } else {
      PlaybackHolds(steps, n - 1);
      ReachableStatesKeep(steps, n - 1);
      PlaybackKept(Run(BEGIN, steps, n - 1), steps[n - 1]);
    }
  }

  /**
    In every run, a final frame that names a packet holds that packet's samples, and silence past
    its end, each under the gain that its callback read and what is left of the fade at that sample.
    The fade is the one requested at that pass, or what the pass before left; a callback makes at most one pass.
   */
  lemma {:induction false} FinalFramesPlayTheirPacket(steps: seq<Step>, c: nat) returns (j: nat)
    requires c in Run(BEGIN, steps, |steps|).h.finals && Run(BEGIN, steps, |steps|).h.finals[c].source.Some?
    ensures var h := Run(BEGIN, steps, |steps|).h; var f := h.finals[c]; var p := f.source.value.packet.samples;
            && j < |h.passes| && h.passes[j].call == c
            && (forall i :: 0 <= i < j ==> h.passes[i].call < h.passes[i + 1].call)
            && |f.samples| == 480
            && (forall i :: 0 <= i < 480 ==>
                  f.samples[i] == Volume(if i < |p| then p[i] else 0, h.passes[j].gain, h.passes[j].fade, i))
            && h.passes[j].fade == match h.passes[j].request
                                   case Some(total) => Fade(total, total)
                                   case None => if j == 0 then NO_FADE else Left(h.passes[j - 1].fade)
  {
    hide Run, Next, Volume, Left;
    PlaybackHolds(steps, |steps|);
    var h := Run(BEGIN, steps, |steps|).h;
    var f := h.finals[c];
    j :| InPass(h.passes, j, c, f.samples, f.source.value.packet.samples);
  }

  /** At unity gain and without a fade the device hears the packet itself. */
  lemma UnityPlaysThePacket(frame: seq<Sample>, packet: seq<Sample>)
    requires Plays(frame, packet, UNITY_GAIN, NO_FADE) && |packet| <= 480
    requires forall i :: 0 <= i < |packet| ==> InRange(packet[i])
    ensures frame[..|packet|] == packet && forall i :: |packet| <= i < 480 ==> frame[i] == 0
  {
    forall i | 0 <= i < |packet| ensures frame[i] == packet[i] {
      UnityGain(packet[i], i);
    }
    forall i | |packet| <= i < 480 ensures frame[i] == 0 {
      UnityGain(0, i);
    }
  }

  lemma UnityGain(input: Sample, i: nat)
    requires InRange(input)
    ensures Volume(input, UNITY_GAIN, NO_FADE, i) == input
  {
    if 0 <= input {
      assert input * 32768 / 32768 == input;
    } else {
      assert -(input * 32768) == (-input) * 32768;
      assert (-input) * 32768 / 32768 == -input;
    }
  }
}
