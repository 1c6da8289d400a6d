/** The engine object: its rings, its counters, and the callback that mutates them. */
module AudioEngineObject {
  import opened Wrappers
  import opened Pcm16
  import opened AudioFade
  import opened AudioEngineState
  import opened AudioEngineRuns
  import opened AudioRings
  import opened AudioCallback

  const NO_FRAME := Frame(0, [], 0)

  class AudioEngine {
    const playback: SpscRing<Packet>
    const references: SpscRing<Frame>
    const writes: SpscRing<Write>
    const captures: OverwriteRing<Frame>
    const fader: Fader
    const output: array<Sample>
    var generation: nat
    var playbackGeneration: nat
    var capturing: bool
    var active: bool
    var breaks: Requests
    var fences: Requests
    var tally: Tally
    var discontinuities: nat
    var produced: nat
    var delivered: nat
    var reportedDrops: nat

    ghost predicate Valid()
      reads this, playback, playback.items, references, references.items, writes, writes.items,
            captures, captures.slots, fader
    {
      && playback.Valid() && references.Valid() && writes.Valid() && captures.Valid()
      && playback.items.Length == PLAYBACK_RING_CAPACITY && references.items.Length == RING_CAPACITY
      && writes.items.Length == RING_CAPACITY && captures.slots.Length == RING_CAPACITY
      && output.Length == FRAME_SAMPLES
      && breaks.observed <= breaks.requested && fences.observed <= fences.requested
    }

    ghost function View(): Engine
      requires Valid()
      reads this, playback, playback.items, references, references.items, writes, writes.items,
            captures, captures.slots, fader
    {
      Engine(generation, playbackGeneration, capturing, active, breaks, fences, fader.fade,
             playback.contents, writes.contents, references.contents, captures.Contents(), captures.Unreported(),
             tally, discontinuities, produced, delivered, reportedDrops)
    }
  
    constructor ()
      ensures Valid() && View() == START
    {
      var p := new SpscRing<Packet>(PLAYBACK_RING_CAPACITY);
      var r := new SpscRing<Frame>(RING_CAPACITY);
      var w := new SpscRing<Write>(RING_CAPACITY);
      var c := new OverwriteRing<Frame>(RING_CAPACITY, NO_FRAME);
      var f := new Fader();
      var o := new Sample[FRAME_SAMPLES];
      playback, references, writes, captures, fader, output := p, r, w, c, f, o;
      generation, playbackGeneration, capturing, active := 1, 1, true, false;
      breaks, fences := Requests(0, 0), Requests(0, 0);
      tally, discontinuities, produced, delivered, reportedDrops := multiset{}, 0, 0, 0, 0;
    }

    // ---- control threads

    method RequestPlaybackFence()
      requires Valid()
      modifies this`fences
      ensures Valid() && View() == old(View()).PublishFence()
    {
      fences := fences.(requested := fences.requested + 1);
    }

    method MarkDiscontinuity(reason: Reason)
      requires Valid()
      modifies this`tally, this`breaks
      ensures Valid() && View() == old(View()).(tally := old(tally) + multiset{reason}).PublishBreak()
    {
      tally := tally + multiset{reason};
      breaks := breaks.(requested := breaks.requested + 1);
    }

    // ---- the playback producer

    /** Queues a packet under the current playback generation; a full ring requests a fence. */
    method EnqueuePlayback(samples: seq<Sample>, scope: nat) returns (queued: bool)
      requires Valid()
      modifies this`fences, playback, playback.items
      ensures Valid()
      ensures queued == (0 < |samples| <= FRAME_SAMPLES && |old(playback.contents)| < PLAYBACK_RING_CAPACITY - 1)
      ensures View() ==
              if queued then
                old(View()).(playback := old(playback.contents)
                  + [Packet(playbackGeneration, scope, samples, old(View()).Now(), Stamp(breaks.observed, fences.observed))])
              else if 0 < |samples| <= FRAME_SAMPLES then old(View()).PublishFence()
              else old(View())
    {
      if |samples| == 0 || FRAME_SAMPLES < |samples| {
        return false;
      }
      queued := playback.Push(Packet(playbackGeneration, scope, samples,
                                     Stamp(breaks.requested, fences.requested), Stamp(breaks.observed, fences.observed)));
      if !queued {
        RequestPlaybackFence();
      }
    }

    // ---- the consumer

    method TryPopCapture() returns (capture: Option<Frame>)
      requires Valid()
      modifies this`delivered, this`reportedDrops, captures, references
      ensures Valid() && (View(), capture) == TakeCapture(old(View()))
    {
      hide SpscRing.Valid, OverwriteRing.Valid, OverwriteRing.Contents, OverwriteRing.Unreported;
      var candidate, drops := captures.Pop();
      reportedDrops := reportedDrops + drops;
      if candidate.None? {
        return None;
      }
      if candidate.value.generation != generation {
        var _ := references.Pop();
        reportedDrops := reportedDrops + 1;
        return None;
      }
      delivered := delivered + 1;
      return candidate;
    }

    method TryPopReference() returns (reference: Option<Frame>)
      requires Valid()
      modifies references
      ensures Valid()
      ensures (references.contents, reference) == FirstOf(old(references.contents), generation, RING_CAPACITY)
      ensures View() == old(View()).(references := references.contents)
    {
      for attempt := 0 to RING_CAPACITY
        invariant Valid() && View() == old(View()).(references := references.contents)
        invariant FirstOf(references.contents, generation, RING_CAPACITY - attempt)
               == FirstOf(old(references.contents), generation, RING_CAPACITY)
      {
        var candidate := references.Pop();
        if candidate.None? || candidate.value.generation == generation {
          return candidate;
        }
      }
      return None;
    }

    // ---- the callback

    method CommitPendingDiscontinuities()
      requires Valid()
      modifies this`generation, this`playbackGeneration, this`active, this`discontinuities, this`breaks
      ensures Valid() && View() == CommitBreaks(old(View()))
    {
      hide SpscRing.Valid, OverwriteRing.Valid, OverwriteRing.Contents, OverwriteRing.Unreported;
      if breaks.requested == breaks.observed {
        return;
      }
      var count := breaks.requested - breaks.observed;
      generation := generation + count;
      playbackGeneration := playbackGeneration + count;
      active := false;
      discontinuities := discontinuities + count;
      breaks := breaks.(observed := breaks.requested);
    }

    method CommitPendingPlaybackFences()
      requires Valid()
      modifies this`playbackGeneration, this`active, this`fences
      ensures Valid() && View() == CommitFences(old(View()))
    {
      hide SpscRing.Valid, OverwriteRing.Valid, OverwriteRing.Contents, OverwriteRing.Unreported;
      if fences.requested == fences.observed {
        return;
      }
      playbackGeneration := playbackGeneration + (fences.requested - fences.observed);
      active := false;
      fences := fences.(observed := fences.requested);
    }

    method CommitCaptureDiscontinuity(reason: Reason)
      requires Valid()
      modifies this`tally, this`generation, this`discontinuities
      ensures Valid() && View() == old(View()).BreakCapture(reason)
    {
      hide SpscRing.Valid, OverwriteRing.Valid, OverwriteRing.Contents, OverwriteRing.Unreported;
      tally := tally + multiset{reason};
      generation := generation + 1;
      discontinuities := discontinuities + 1;
    }

    /** The bounded search for a packet of the current playback generation. */
    method PopPlayback() returns (packet: Option<Packet>)
      requires Valid()
      modifies playback
      ensures Valid() && (View(), packet) == TakePacket(old(View()))
    {
      for attempt := 0 to PLAYBACK_RING_CAPACITY
        invariant Valid() && View() == old(View()).(playback := playback.contents)
        invariant PopCurrent(playback.contents, playbackGeneration, PLAYBACK_RING_CAPACITY - attempt)
               == PopCurrent(old(playback.contents), playbackGeneration, PLAYBACK_RING_CAPACITY)
      {
        var candidate := playback.Pop();
        if candidate.None? || candidate.value.generation == playbackGeneration {
          return candidate;
        }
      }
      return None;
    }

    /** Takes up a new fade request, searches for a packet and renders it, or silence, into the output. */
    method RenderPlayback(gain: nat, fade: Option<nat>) returns (packet: Option<Packet>)
      requires Valid()
      modifies playback, fader, output
      ensures Valid() && packet == TakePacket(old(View())).1
      ensures var f := match fade case None => old(fader.fade) case Some(total) => Fade(total, total);
              && View() == TakePacket(old(View())).0.(fade := RenderedPacket(f, gain, packet).0)
              && output[..] == RenderedPacket(f, gain, packet).1
    {
      hide SpscRing.Valid, OverwriteRing.Valid, OverwriteRing.Contents, OverwriteRing.Unreported, RenderFrame, Padded, PopCurrent;
      if fade.Some? {
        fader.Request(fade.value);
      }
      packet := PopPlayback();
      var samples := if packet.Some? && |packet.value.samples| <= FRAME_SAMPLES then packet.value.samples else [];
      fader.RenderInto(output, gain, samples);
    }

    method AccountFor(call: Call, p: Packet, samples: seq<Sample>)
      requires Valid()
      modifies this`fences, writes, writes.items
      ensures Valid() && View() == Account(old(View()), call, p, samples)
    {
      if call.hasOutput && p.scope != 0 && NonSilent(samples, |p.samples|) {
        var written := writes.Push(Write(p.scope, playbackGeneration, |p.samples|));
        if !written {
          RequestPlaybackFence();
        }
      }
    }

    /** Marks a discontinuity and commits it on the spot. */
    method FailWith(reason: Reason)
      requires Valid()
      modifies this`generation, this`playbackGeneration, this`active, this`discontinuities, this`breaks, this`tally
      ensures Valid() && View() == Fail(old(View()), reason)
    {
      MarkDiscontinuity(reason);
      CommitPendingDiscontinuities();
    }

    method PublishCapture(call: Call, n: nat, final: Final)
      requires Valid()
      modifies this`tally, this`generation, this`discontinuities, this`produced,
        references, references.items, captures, captures.slots
      ensures Valid() && View() == Capture(old(View()), call, n, final)
    {
      hide SpscRing.Valid, OverwriteRing.Valid, OverwriteRing.Contents, OverwriteRing.Unreported;
      var pushed := references.Push(Frame(generation, final.samples, n));
      if !pushed {
        CommitCaptureDiscontinuity(ReferenceOverflow);
      } else {
        captures.PushDropOldest(Frame(generation, call.capture, n));
        produced := produced + 1;
      }
    }

    /** The whole callback, the `n`-th; what it returns is what the device is given, if it asked for anything. */
    method ProcessCallback(n: nat, call: Call, gain: nat, fade: Option<nat>) returns (final: Final)
      requires Valid()
      modifies this, playback, fader, output, writes, writes.items, references, references.items, captures, captures.slots
      ensures Valid() && (View(), final) == WholeCallback(old(View()), n, call, gain, fade)
    {
      hide SpscRing.Valid, OverwriteRing.Valid, OverwriteRing.Contents, OverwriteRing.Unreported;
      hide CommitBreaks, CommitFences, Served;
      CommitsAreConsistent(View());
      BreaksKeepFences(View());
      CommitPendingDiscontinuities();
      CommitPendingPlaybackFences();
      final := Serve(n, call, gain, fade);
    }

    /** Judges the status flags, then fails, falls silent, or plays and captures. */
    method Serve(n: nat, call: Call, gain: nat, fade: Option<nat>) returns (final: Final)
      requires Valid() && breaks.requested == breaks.observed && fences.requested == fences.observed
      modifies this, playback, fader, output, writes, writes.items, references, references.items, captures, captures.slots
      ensures Valid() && (View(), final) == Served(old(View()), n, call, gain, fade)
    {
      hide SpscRing.Valid, OverwriteRing.Valid, OverwriteRing.Contents, OverwriteRing.Unreported;
      hide Fail, Carried, Judge, Zeros;
      var room := references.CanPush();
      final := Final(Zeros(call.frameCount), None, call.hasOutput);
      var verdict := Judge(call, call.outputUnderflow && active, capturing, capturing && !room);
      if verdict.Marking? {
        FailWith(verdict.reason);
      } else if verdict.BreakingCapture? {
        CommitCaptureDiscontinuity(CaptureInputOverflow);
      } else if verdict.ReadingGeneration? {
        final := Carry(n, call, verdict.capturing, gain, fade);
      }
    }

    /** A callback whose status is good: it fails at its boundary, or plays and, when capturing, publishes. */
    method Carry(n: nat, call: Call, recording: bool, gain: nat, fade: Option<nat>) returns (final: Final)
      requires Valid() && breaks.requested == breaks.observed && fences.requested == fences.observed
      modifies this, playback, fader, output, writes, writes.items, references, references.items, captures, captures.slots
      ensures Valid() && (View(), final) == Carried(old(View()), n, call, recording, gain, fade)
    {
      hide SpscRing.Valid, OverwriteRing.Valid, OverwriteRing.Contents, OverwriteRing.Unreported;
      hide Fail, Capture, Play, Zeros;
      if call.throws {
        final := Final(Zeros(call.frameCount), None, call.hasOutput);
        FailWith(CallbackException);
      } else {
        final := RenderAndEmit(call, gain, fade);
        if recording {
          PublishCapture(call, n, final);
        }
      }
    }

    method RenderAndEmit(call: Call, gain: nat, fade: Option<nat>) returns (final: Final)
      requires Valid() && breaks.requested == breaks.observed && fences.requested == fences.observed
      modifies this`active, this`fences, playback, fader, output, writes, writes.items
      ensures Valid() && (View(), final) == Play(old(View()), call, gain, fade)
      ensures generation == old(generation)
    {
      hide SpscRing.Valid, OverwriteRing.Valid, OverwriteRing.Contents, OverwriteRing.Unreported;
      hide Account, RenderFrame, Padded, PopCurrent, NonSilent;
      var packet := RenderPlayback(gain, fade);
      if packet.None? {
        return Final(Zeros(FRAME_SAMPLES), None, call.hasOutput);
      }
      final := Final(output[..], Some(Source(packet.value, breaks.requested, fences.requested)), call.hasOutput);
      active := true;
      AccountFor(call, packet.value, final.samples);
    }
  }
}
