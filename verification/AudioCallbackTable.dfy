/**
  What one undisturbed callback does, told as a table over the state it finds and what the device
  hands it: what is heard, why it fails, what is recorded and what is accounted for.
 */
module AudioCallbackTable {
  import opened Wrappers
  import opened Pcm16
  import opened AudioFade
  import opened AudioEngineState
  import opened AudioEngineRuns
  import opened AudioCallback
  import opened AudioPlayback

  /** The generation under which the callback works: the requests waiting at its entry are counted first. */
  function Generation(e: Engine): int {
    e.generation + (e.breaks.requested - e.breaks.observed)
  }

  function PlaybackGeneration(e: Engine): int {
    e.playbackGeneration + (e.breaks.requested - e.breaks.observed) + (e.fences.requested - e.fences.observed)
  }

  /** The engine as it stands once the waiting requests have been counted. */
  ghost predicate Settled(e: Engine, c: Engine) {
    var quiet := e.breaks.requested == e.breaks.observed && e.fences.requested == e.fences.observed;
    && c == e.(generation := c.generation, playbackGeneration := c.playbackGeneration, active := c.active,
               discontinuities := c.discontinuities, breaks := c.breaks, fences := c.fences)
    && c.generation == Generation(e) && c.playbackGeneration == PlaybackGeneration(e)
    && c.active == (e.active && quiet)
    && c.discontinuities == e.discontinuities + (e.breaks.requested - e.breaks.observed)
    && c.breaks == Requests(e.breaks.requested, e.breaks.requested)
    && c.fences == Requests(e.fences.requested, e.fences.requested)
  }

  lemma CommitsSettle(e: Engine)
    requires Consistent(e)
    ensures Settled(e, CommitFences(CommitBreaks(e)))
  {
  }

  /** An underflow hit playback that is under way. */
  predicate HitsPlayback(c: Engine, call: Call) {
    call.outputUnderflow && c.active
  }

  /** No room for a reference while capturing. */
  predicate Full(c: Engine) {
    c.capturing && 7 <= |c.references|
  }

  /** The reason that a callback counts, if any, before it plays anything. */
  function Fault(c: Engine, call: Call): Option<Reason> {
    if HitsPlayback(c, call) then Some(ActiveOutputXrun)
    else if call.frameCount != 480 then Some(FrameSize)
    else if call.inputOverflow then Some(if Full(c) then ReferenceOverflow else CaptureInputOverflow)
    else if !call.outputUnderflow && call.throws then Some(CallbackException)
    else None
  }

  /** Nothing stands in the way of playing and recording. */
  predicate Plain(call: Call) {
    call.frameCount == 480 && !call.inputOverflow && !call.outputUnderflow && !call.throws
  }

  /** A fault moves both generations by one, counts its reason and ends the activity; nothing else changes. */
  predicate Broken(c: Engine, r: Reason, t: Engine) {
    && t.tally == c.tally + multiset{r} && !t.active && t.discontinuities == c.discontinuities + 1
    && t.generation == c.generation + 1 && t.playbackGeneration == c.playbackGeneration + 1
    && t.breaks == Requests(c.breaks.requested + 1, c.breaks.requested + 1)
    && t == c.(tally := t.tally, active := false, generation := t.generation, breaks := t.breaks,
               playbackGeneration := t.playbackGeneration, discontinuities := t.discontinuities)
  }

  lemma FailingBreaks(c: Engine, r: Reason)
    requires c.breaks.requested == c.breaks.observed && Consistent(c)
    ensures Broken(c, r, Fail(c, r))
  {
  }

  /** What a fault, or its absence, makes of the engine. */
  predicate Faulted(c: Engine, call: Call, t: Engine) {
    match Fault(c, call)
    case None => t == c
    case Some(r) =>
      if r.CaptureInputOverflow? then
        t == c.(tally := c.tally + multiset{r}, generation := c.generation + 1, discontinuities := c.discontinuities + 1)
      else Broken(c, r, t)
  }

  lemma FaultyService(c: Engine, n: nat, call: Call, gain: nat, fade: Option<nat>)
    requires Consistent(c) && !Plain(call) && c.breaks.requested == c.breaks.observed
    ensures var (t, f) := Served(c, n, call, gain, fade);
            Faulted(c, call, t) && f == Final(Zeros(call.frameCount), None, call.hasOutput)
  {
    hide Play, Capture, Fail, Broken;
    if Fault(c, call).Some? {
      FailingBreaks(c, Fault(c, call).value);
    }
  }

  /**
    A callback that is not plain gives the device as many zeros as it asked for. It counts at most
    one reason; an overflow of the input alone moves the capture generation, every other fault
    moves both generations and ends the activity; and the rings and the fade stay as they were.
   */
  lemma FaultyCallback(e: Engine, n: nat, call: Call, gain: nat, fade: Option<nat>) returns (c: Engine)
    requires Consistent(e) && !Plain(call)
    ensures var (t, f) := WholeCallback(e, n, call, gain, fade);
            && Settled(e, c) && Faulted(c, call, t)
            && |f.samples| == call.frameCount && (forall i :: 0 <= i < call.frameCount ==> f.samples[i] == 0)
            && f.source == None && f.toDevice == call.hasOutput
  {
    hide Play, Capture, Fail, Served, Faulted;
    CommitsSettle(e);
    c := CommitFences(CommitBreaks(e));
    FaultyService(c, n, call, gain, fade);
  }

  // ---- the packet

  /** Packet `k` is the first one of generation `g`. */
  predicate FirstCurrent(queue: seq<Packet>, g: int, k: nat) {
    k < |queue| && queue[k].generation == g && forall i :: 0 <= i < k ==> queue[i].generation != g
  }

  lemma {:induction false} PopFindsTheFirst(queue: seq<Packet>, g: nat, attempts: nat, k: nat)
    requires FirstCurrent(queue, g, k) && k < attempts
    ensures PopCurrent(queue, g, attempts) == (queue[k + 1..], Some(queue[k]))
  {
    if 0 < k {
      assert FirstCurrent(queue[1..], g, k - 1) by {
        forall i | 0 <= i < k - 1 ensures queue[1..][i].generation != g {
          assert queue[1..][i] == queue[i + 1];
        }
      }
      PopFindsTheFirst(queue[1..], g, attempts - 1, k - 1);
    }
  }

  lemma {:induction false} PopFindsNone(queue: seq<Packet>, g: nat, attempts: nat)
    requires |queue| <= attempts && forall i :: 0 <= i < |queue| ==> queue[i].generation != g
    ensures PopCurrent(queue, g, attempts) == ([], None)
  {
    if queue != [] {
      forall i | 0 <= i < |queue| - 1 ensures queue[1..][i].generation != g {
        assert queue[1..][i] == queue[i + 1];
      }
      PopFindsNone(queue[1..], g, attempts - 1);
    }
  }

  /** The fade that the pass meets. */
  function Met(e: Engine, fade: Option<nat>): Fade {
    match fade case None => e.fade case Some(total) => Fade(total, total)
  }

  /** A sample that is not zero lies within the packet's length. */
  predicate Audible(frame: seq<Sample>, n: nat) {
    exists i :: 0 <= i < n && i < |frame| && frame[i] != 0
  }

  /**
    A plain callback gives the device the first queued packet of the playback generation, sample
    by sample under the gain and the fade, and drops the stale packets before it.
   */
  lemma PlainCallbackPlays(e: Engine, n: nat, call: Call, gain: nat, fade: Option<nat>, k: nat)
    requires Consistent(e) && Plain(call) && |e.playback| <= PLAYBACK_RING_CAPACITY && Sensible(e.fade)
    requires FirstCurrent(e.playback, PlaybackGeneration(e), k) && |e.playback[k].samples| <= 480
    ensures var (t, f) := WholeCallback(e, n, call, gain, fade); var p := e.playback[k];
            && f.source == Some(Source(p, e.breaks.requested, e.fences.requested)) && f.toDevice == call.hasOutput
            && |f.samples| == 480
            && (forall i :: 0 <= i < 480 ==>
                  f.samples[i] == Volume(if i < |p.samples| then p.samples[i] else 0, gain, Met(e, fade), i))
            && t.playback == e.playback[k + 1..] && t.fade == Left(Met(e, fade)) && t.active
  {
    hide CommitBreaks, CommitFences, RenderFrame, Padded, Volume, PopCurrent, Left;
    CommitsSettle(e);
    PopFindsTheFirst(e.playback, PlaybackGeneration(e), PLAYBACK_RING_CAPACITY, k);
    RenderingPlays(Met(e, fade), gain, e.playback[k].samples);
  }

  /** Without such a packet the device gets silence; every queued packet was stale and is gone, and the fade goes on. */
  lemma PlainCallbackIsSilent(e: Engine, n: nat, call: Call, gain: nat, fade: Option<nat>)
    requires Consistent(e) && Plain(call) && |e.playback| <= PLAYBACK_RING_CAPACITY && Sensible(e.fade)
    requires forall k :: !FirstCurrent(e.playback, PlaybackGeneration(e), k)
    ensures var (t, f) := WholeCallback(e, n, call, gain, fade);
            && f.source == None && f.toDevice == call.hasOutput
            && |f.samples| == 480 && (forall i :: 0 <= i < 480 ==> f.samples[i] == 0)
            && t.playback == [] && t.fade == Left(Met(e, fade)) && t.writes == e.writes
  {
    hide CommitBreaks, CommitFences, RenderFrame, Padded, PopCurrent, Left;
    CommitsSettle(e);
    NoneCurrent(e.playback, PlaybackGeneration(e), |e.playback|);
    PopFindsNone(e.playback, PlaybackGeneration(e), PLAYBACK_RING_CAPACITY);
    RenderingPlays(Met(e, fade), gain, []);
  }

  lemma {:induction false} NoneCurrent(queue: seq<Packet>, g: int, n: nat)
    requires n <= |queue| && forall k :: !FirstCurrent(queue, g, k)
    ensures forall i :: 0 <= i < n ==> queue[i].generation != g
  {
    if 0 < n {
      NoneCurrent(queue, g, n - 1);
      assert !FirstCurrent(queue, g, n - 1);
    }
  }

  /**
    A plain callback publishes the frame it gave the device and the input it was given, under one
    generation and its own number, exactly when it captures and there is room for the reference;
    without room it counts the overflow and moves the capture generation.
   */
  lemma PlainCallbackRecords(e: Engine, n: nat, call: Call, gain: nat, fade: Option<nat>)
    requires Consistent(e) && Plain(call)
    ensures var (t, f) := WholeCallback(e, n, call, gain, fade); var g := Generation(e);
            && (!e.capturing ==>
                  && t.references == e.references && t.captures == e.captures && t.unreported == e.unreported
                  && t.generation == g && t.tally == e.tally && t.produced == e.produced)
            && (Full(e) ==>
                  && t.references == e.references && t.captures == e.captures && t.unreported == e.unreported
                  && t.generation == g + 1 && t.tally == e.tally + multiset{ReferenceOverflow}
                  && t.produced == e.produced)
            && (e.capturing && !Full(e) ==>
                  && t.references == e.references + [Frame(g, f.samples, n)]
                  && t.captures == (if |e.captures| < 8 then e.captures else e.captures[1..]) + [Frame(g, call.capture, n)]
                  && t.unreported == e.unreported + (if |e.captures| < 8 then 0 else 1)
                  && t.generation == g && t.tally == e.tally && t.produced == e.produced + 1)
  {
    hide Play, Capture;
    CommitsSettle(e);
    var c := CommitFences(CommitBreaks(e));
    hide CommitBreaks, CommitFences;
    var (p, f) := Play(c, call, gain, fade);
    PlayingLeavesTheRings(c, call, gain, fade);
    CapturingPublishes(p, call, n, f);
  }

  lemma PlayingLeavesTheRings(c: Engine, call: Call, gain: nat, fade: Option<nat>)
    ensures var p := Play(c, call, gain, fade).0;
            && p.references == c.references && p.captures == c.captures && p.unreported == c.unreported
            && p.generation == c.generation && p.tally == c.tally && p.produced == c.produced
  {
    hide RenderFrame, Padded, PopCurrent, NonSilent;
  }

  lemma CapturingPublishes(p: Engine, call: Call, n: nat, f: Final)
    ensures var t := Capture(p, call, n, f);
            if 7 <= |p.references| then
              && t.references == p.references && t.captures == p.captures && t.unreported == p.unreported
              && t.generation == p.generation + 1 && t.tally == p.tally + multiset{ReferenceOverflow}
              && t.produced == p.produced
            else
              && t.references == p.references + [Frame(p.generation, f.samples, n)]
              && t.captures == (if |p.captures| < 8 then p.captures else p.captures[1..])
                               + [Frame(p.generation, call.capture, n)]
              && t.unreported == p.unreported + (if |p.captures| < 8 then 0 else 1)
              && t.generation == p.generation && t.tally == p.tally && t.produced == p.produced + 1
  {
  }

  /**
    Playback of a scope is accounted for, at the packet's length and under the playback generation,
    exactly when the device was given at least one sample of it that is not zero; if there is no
    room for the account, a fence is requested instead.
   */
  lemma PlainCallbackAccounts(e: Engine, n: nat, call: Call, gain: nat, fade: Option<nat>, k: nat)
    requires Consistent(e) && Plain(call) && |e.playback| <= PLAYBACK_RING_CAPACITY
    requires FirstCurrent(e.playback, PlaybackGeneration(e), k)
    ensures var (t, f) := WholeCallback(e, n, call, gain, fade); var p := e.playback[k];
            var owed := call.hasOutput && p.scope != 0 && Audible(f.samples, |p.samples|);
            && t.writes == (if owed && |e.writes| < 7
                            then e.writes + [Write(p.scope, PlaybackGeneration(e), |p.samples|)] else e.writes)
            && t.fences.requested == e.fences.requested + (if owed && 7 <= |e.writes| then 1 else 0)
  {
    hide CommitBreaks, CommitFences, RenderFrame, Padded, PopCurrent;
    CommitsSettle(e);
    PopFindsTheFirst(e.playback, PlaybackGeneration(e), PLAYBACK_RING_CAPACITY, k);
    var (t, f) := WholeCallback(e, n, call, gain, fade);
    assert NonSilent(f.samples, |e.playback[k].samples|) <==> Audible(f.samples, |e.playback[k].samples|);
  }
}
