/**
  The recognizer object itself: a fixed circular frame queue, a fixed utterance buffer and the
  flags. Each method is one critical section and is proved against the function of the same
  name on the abstract state, so the runs of `SenseVoiceRuns` are runs of this object.
 */
module SenseVoiceProvider {
  import opened Buffers
  import opened Wrappers
  import opened SenseVoiceState

  class Recognizer {
    const capacity: nat
    const queue: CircularQueue<Frame>
    const utterance: SampleBuffer
    var stopRequested: bool
    var stopping: bool
    var armed: bool
    var hasSink: bool
    var turn: Turn
    var overflow: Overflow
    var finish: Finish

    ghost const Repr: set<object>

    /** The queue indices stay aligned with the count until shutdown. */
    ghost predicate Valid()
      reads this, Repr
    {
      && this in Repr && queue in Repr && queue.items in Repr && utterance in Repr && utterance.data in Repr
      && queue.items as object != utterance.data
      && queue.Valid() && utterance.Valid()
      && 0 < capacity == queue.items.Length
      && utterance.data.Length == capacity * FRAME_SAMPLES
      && (!stopping ==> queue.Aligned())
    }

    ghost function View(): Provider
      reads this, queue, utterance
    {
      Provider(capacity, queue.contents, utterance.contents, stopRequested, stopping, armed, hasSink,
               turn, overflow, finish)
    }

    constructor (configured: nat)
      ensures Valid() && fresh(Repr)
      ensures View() == Fresh(MaximumUtteranceFrames(configured))
    {
      var n := MaximumUtteranceFrames(configured);
      var q := new CircularQueue<Frame>(n);
      var u := new SampleBuffer(n * FRAME_SAMPLES);
      capacity, queue, utterance := n, q, u;
      stopRequested, stopping, armed, hasSink := false, false, true, false;
      turn, finish := NEW_TURN, NO_FINISH;
      overflow := Overflow(false, false, false, DEFAULT_FRAME);
      Repr := {this, q, q.items, u, u.data};
    }

    method ProcessFrame(f: Frame)
      requires Valid()
      modifies Repr
      ensures Valid() && View() == old(View()).ProcessFrame(f)
    {
      if stopping {
        return;
      }
      if finish.requested {
        finish := finish.(duplicate := true);
      } else {
        hasSink := true;
        if queue.count == queue.items.Length {
          armed := false;
          overflow := overflow.(quarantined := true, pending := true, frame := f);
          queue.Clear();
        } else {
          queue.Push(f);
        }
      }
    }

    method FinishInput()
      requires Valid()
      modifies Repr
      ensures Valid() && View() == old(View()).FinishInput()
    {
      if stopping {
        return;
      }
      if !armed || finish.requested || finish.handled {
        if armed && (finish.requested || finish.handled) {
          finish := finish.(duplicate := true);
        }
      } else {
        finish := finish.(requested := true, handled := false);
      }
    }

    method RequestStop() returns (first: bool)
      requires Valid()
      modifies this`stopRequested
      ensures Valid() && View() == old(View()).RequestStop()
      ensures first == !old(stopRequested)
    {
      first := !stopRequested;
      stopRequested := true;
    }

    method Shutdown()
      requires Valid()
      modifies Repr
      ensures Valid() && View() == old(View()).Shutdown()
    {
      stopping := true;
      armed := false;
      queue.DropAll();
      overflow := overflow.(pending := false);
      hasSink := false;
      finish := Finish(false, true, false);
    }

    /** The worker's wake-up: the critical section at the top of its loop. */
    method TakeWork() returns (work: Work)
      requires Valid()
      modifies Repr
      ensures Valid() && (View(), work) == old(View()).TakeWork()
    {
      if !(stopping || queue.count != 0 || overflow.pending || (finish.requested && !finish.handled)
           || finish.duplicate) {
        return Sleep;
      }
      if stopping && queue.count == 0 && !overflow.pending {
        return Stop;
      }
      work := Process(DEFAULT_FRAME);
      if overflow.pending {
        work := ReportOverflow(overflow.frame);
      } else if queue.count != 0 {
        var f := queue.Pop();
        work := Process(f);
      } else if finish.requested && !finish.handled {
        if armed {
          finish := finish.(handled := true);
          work := FinishUtterance;
        } else {
          finish := finish.(handled := true, requested := false);
        }
      } else if finish.duplicate {
        finish := finish.(duplicate := false);
        work := FinishUtterance;
      }
    }

    method RetireTurn()
      requires Valid()
      modifies Repr
      ensures Valid() && View() == old(View()).Retire()
    {
      armed := false;
      queue.Clear();
    }

    method ResetTurn()
      requires Valid()
      modifies Repr
      ensures Valid() && View() == old(View()).ResetTurn()
    {
      if stopping {
        return;
      }
      armed := true;
      turn := NEW_TURN;
      utterance.Truncate(0);
      overflow := Overflow(false, false, false, overflow.frame);
      finish := NO_FINISH;
      if queue.count == 0 {
        hasSink := false;
      }
    }

    method ClaimOverflowFrame(fallback: Frame) returns (claimed: Option<Frame>)
      requires Valid()
      modifies Repr
      ensures Valid() && (View(), claimed) == old(View()).ClaimOverflow(fallback)
    {
      if !overflow.quarantined || overflow.failureEmitted || stopping {
        return None;
      }
      claimed := Some(if overflow.pending then overflow.frame else fallback);
      overflow := overflow.(failureEmitted := true, pending := false);
    }

    method FinishEndpoint(endpoint: nat)
      requires Valid() && endpoint <= utterance.count
      modifies Repr
      ensures Valid() && View() == old(View()).FinishEndpoint(endpoint)
    {
      armed := false;
      queue.Clear();
      utterance.Truncate(endpoint);
    }

    method AdmitFrame(f: Frame)
      requires Valid()
      modifies Repr
      ensures Valid() && View() == old(View()).Admit(f)
    {
      turn := turn.(admitted := turn.admitted + 1, lastFrame := Some(f));
    }

    method CopyFrame(f: Frame) returns (copied: bool)
      requires Valid() && |f.samples| == FRAME_SAMPLES
      modifies Repr
      ensures Valid() && (View(), copied) == old(View()).CopyFrame(f)
    {
      if f.valid == 0 || f.valid > FRAME_SAMPLES || utterance.count > utterance.data.Length - f.valid {
        return false;
      }
      utterance.Append(f.samples, f.valid);
      return true;
    }

    method ReadFinish() returns (frame: Option<Frame>, duplicate: bool)
      requires Valid()
      modifies Repr
      ensures Valid() && (View(), frame, duplicate) == old(View()).ReadFinish()
    {
      frame := turn.lastFrame;
      duplicate := finish.duplicate;
      finish := finish.(duplicate := false);
    }
  }
}
