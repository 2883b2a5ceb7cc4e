/**
 What each handler leaves alone, and the theorem about the policy slots.
 */
module ManagerQueue {
  import opened Wrappers
  import opened Categories
  import opened Lifecycle
  import opened Manager
  import opened ManagerInvariant
  import opened ManagerSteps
  import opened ManagerReplies
  import opened ManagerCallbacks
  import opened ManagerRuns
  import Impl = Implementations

  // ---------------------------------------------------------------- the parts around the records

  /** The slots, the current pointer, the queue and the idle starts are the same. */
  ghost predicate SameFrame(s: State, r: State) {
    r.owner == s.owner && r.current == s.current && r.queue == s.queue && r.idleStarts == s.idleStarts
  }

  lemma SilencedFrame(s: State, i: int)
    requires i in s.notifs
    ensures SameFrame(s, Silenced(s, i))
  {
  }

  lemma PlayedFrame(s: State, i: int, cause: Cause)
    requires i in s.notifs
    ensures SameFrame(s, Played(s, i, cause))
  {
  }

  lemma HaltedFrame(s: State, i: int)
    requires i in s.notifs
    ensures var h := Halted(s, i);
            && SameFrame(s, h)
            && i in h.notifs && h.notifs[i].order == s.notifs[i].order && h.notifs[i].policy == s.notifs[i].policy
            && h.notifs[i].status == Stopped
  {
  }

  lemma TryNextFrame(s: State, i: int, granted: bool)
    requires i in s.notifs
    ensures SameFrame(StartNext(s), TryNext(s, i, granted))
  {
    var u := Put(s, i, s.notifs[i].(status := Playing, granted := granted));
    PlayedFrame(u, i, Reply);
  }

  lemma DisposedFrame(s: State, i: int)
    requires i in s.notifs
    ensures var r := Disposed(s, i);
            && r.queue == s.queue && r.idleStarts == s.idleStarts
            && r.current == (if s.current == Some(i) then None else s.current)
            && r.owner == (if s.notifs[i].policy then s.owner - {s.notifs[i].Class()} else s.owner)
  {
  }

  // ---------------------------------------------------------------- slots

  ghost predicate KeepsSlots(s: State, r: State) {
    forall c :: c in s.owner ==> c in r.owner && r.owner[c] == s.owner[c]
  }

  /** What finish needs to know to leave the slots alone. */
  ghost predicate SlotReady(s: State, i: int) {
    && i in s.notifs
    && (s.notifs[i].policy ==>
          if Asynchronous(s.notifs[i].Class()) then Owns(s, i) else s.notifs[i].Class() !in s.owner)
  }

  lemma StopPermissionKeepsSlots(s: State, i: int)
    requires SlotReady(s, i) && s.notifs[i].policy
    ensures KeepsSlots(s, StopPermission(s, i))
  {
    if !Asynchronous(s.notifs[i].Class()) {
      DisposedFrame(Log(s, i, AskStop), i);
    }
  }

  lemma FinishKeepsSlots(s: State, i: int)
    requires i in s.notifs && (SlotReady(s, i) || s.notifs[i].status == Initialized)
    ensures KeepsSlots(s, Finish(s, i))
  {
    if s.notifs[i].status == Unknown || s.notifs[i].status == Playing {
      HaltedFrame(s, i);
      if s.notifs[i].policy {
        StopPermissionKeepsSlots(Halted(s, i), i);
      } else {
        DisposedFrame(Halted(s, i), i);
      }
    }
  }

  lemma GoodIsSlotReady(s: State, i: int)
    requires InvBut(s, i) && GoodStarted(SliceOf(s, i))
    ensures SlotReady(s, i) || s.notifs[i].status == Initialized
  {
    if s.notifs[i].policy && !Asynchronous(s.notifs[i].Class()) {
      NoSystemOwner(s, i);
    }
  }

  lemma GoodFinishKeepsSlots(s: State, u: State, i: int)
    requires InvBut(s, i) && GoodStarted(SliceOf(s, i)) && u.owner == s.owner
    requires i in u.notifs && u.notifs[i].policy == s.notifs[i].policy && u.notifs[i].order == s.notifs[i].order
    requires u.notifs[i].status == s.notifs[i].status
    ensures KeepsSlots(s, Finish(u, i))
  {
    GoodIsSlotReady(s, i);
    FinishKeepsSlots(u, i);
  }

  lemma BeginKeepsSlots(s: State, i: int)
    requires i in s.notifs
    ensures KeepsSlots(s, StartNotification(s, i))
  {
    if s.notifs[i].order.UsesPolicy() {
      var u := Opened(s, i, true);
      assert u.owner == s.owner && u.notifs[i].Class() == s.notifs[i].Class();
      if u.notifs[i].Class() !in u.owner && !Asynchronous(u.notifs[i].Class()) {
        var a := Log(u, i, AskPlay);
        if !a.notifs[i].stopped {
          TryNextFrame(a, i, s.systemAllowed);
        }
      }
    } else {
      TryNextFrame(Opened(s, i, false), i, true);
    }
  }

  lemma {:induction false} DropAllKeepsSlots(s: State, ids: seq<int>)
    requires Increasing(ids)
    requires forall k :: 0 <= k < |ids| ==> ids[k] in s.notifs && Unstarted(s.notifs[ids[k]])
    ensures KeepsSlots(s, DropAll(s, ids))
    decreases |ids|
  {
    if ids != [] {
      DropTakesOne(s, ids[0]);
      FinishKeepsSlots(s.(queue := Without(s.queue, ids[0])), ids[0]);
      DropAllKeepsSlots(Drop(s, ids[0]), ids[1..]);
    }
  }

  lemma StartKeepsSlots(s: State, n: Notification, initialized: bool)
    requires Inv(s) && n.Fresh()
    ensures Consistent(s) && KeepsSlots(s, Manager.Start(s, n, initialized).0)
  {
    InvConsistent(s);
    StartIs(s, n, initialized);
    if s.current.Some? {
      var i := s.current.value;
      EnqueuedStarted(s, n, i);
      StartedBut(s, i);
      GoodFinishKeepsSlots(s, Enqueued(s, n), i);
    } else {
      BeginKeepsSlots(Admitted(s, n), s.lastId + 1);
    }
  }

  lemma CommandKeepsSlots(s: State, i: int, w: Wanted)
    requires i in s.notifs
    ensures Command(s, i, w).owner == s.owner
  {
    var a := Silenced(s, i);
    SilencedFrame(s, i);
    assert i in a.notifs;
    PlayedFrame(Put(a, i, a.notifs[i].(granted := true)), i, Upgrade);
  }

  lemma ReplyKeepsSlots(s: State, i: int, granted: bool)
    requires i in s.notifs
    ensures OnPlayReply(s, i, granted).owner == s.owner
  {
    if !s.notifs[i].stopped {
      TryNextFrame(s.(requests := s.requests - {i}), i, granted);
    }
  }

  lemma ErrorKeepsSlots(s: State, i: int)
    requires Inv(s) && Enabled(s, PlaybackError(i))
    ensures Error(s, i).Done? && KeepsSlots(s, Error(s, i).state)
  {
    HolderIsPlaying(s, i);
    if s.notifs[i].fallback {
      GoodFinishKeepsSlots(s, s, i);
    } else {
      var n := FallingBack(s.notifs[i]);
      SilencedFrame(Put(s, i, n), i);
      PlayedFrame(Silenced(Put(s, i, n), i), i, Fallback);
    }
  }

  lemma StopCurrentKeepsSlots(s: State)
    requires Inv(s) && s.current.Some?
    ensures s.current.value in s.notifs && KeepsSlots(s, Finish(s, s.current.value))
  {
    StartedBut(s, s.current.value);
    GoodFinishKeepsSlots(s, s, s.current.value);
  }

  lemma DropKeepsSlots(s: State, i: int)
    requires Inv(s) && Consistent(s) && i in s.queue
    ensures i in s.notifs && KeepsSlots(s, Drop(s, i))
  {
    FinishKeepsSlots(s.(queue := Without(s.queue, i)), i);
  }

  lemma StopByIdKeepsSlots(s: State, id: int)
    requires Inv(s) && Consistent(s)
    ensures KeepsSlots(s, StopById(s, id))
  {
    if s.current == Some(id) {
      StopCurrentKeepsSlots(s);
    } else if id in s.queue {
      DropKeepsSlots(s, id);
    }
  }

  lemma BySenderKeepsSlots(s: State, sender: string)
    requires Inv(s) && Consistent(s)
    ensures KeepsSlots(s, FinishBySender(s, sender))
  {
    if s.current.Some? && SentBy(s.notifs[s.current.value], sender) {
      StopCurrentKeepsSlots(s);
    } else if FirstSentBy(s, s.queue, sender).Some? {
      DropKeepsSlots(s, FirstSentBy(s, s.queue, sender).value);
    }
  }

  lemma ByCategoryKeepsSlots(s: State, c: Category)
    requires Inv(s) && Consistent(s)
    ensures KeepsSlots(s, FinishByCategory(s, c))
  {
    if s.current.Some? && s.notifs[s.current.value].Category() == c {
      StopCurrentKeepsSlots(s);
    } else {
      var ids := OfCategory(s, s.queue, c);
      OfCategoryIncreasing(s, s.queue, c);
      forall k | 0 <= k < |ids| ensures ids[k] in s.queue && ids[k] in s.notifs && Unstarted(s.notifs[ids[k]]) {
        assert ids[k] in ids;
      }
      DropAllKeepsSlots(s, ids);
    }
  }

  lemma TimersKeepSlots(s: State, u: State, i: int)
    requires Inv(s) && i in s.notifs && (s.notifs[i].held.playback || s.notifs[i].held.timer || s.notifs[i].held.step)
    requires i in u.notifs && u == Put(s, i, s.notifs[i].(held := u.notifs[i].held))
    ensures KeepsSlots(s, Finish(u, i))
  {
    HolderIsPlaying(s, i);
    GoodFinishKeepsSlots(s, u, i);
  }

  lemma CallbackKeepsSlots(s: State, e: Event)
    requires Inv(s) && Enabled(s, e)
    requires e.PlaybackStarted? || e.PlaybackSucceeded? || e.PlaybackError? || e.TimerFires? || e.VolumeTimerFires?
    ensures KeepsSlots(s, Step(s, e))
  {
    match e
    case PlaybackStarted(i) =>
    case PlaybackSucceeded(i) => TimersKeepSlots(s, Put(s, i, s.notifs[i]), i); assert s.notifs[i := s.notifs[i]] == s.notifs;
    case PlaybackError(i) => ErrorKeepsSlots(s, i);
    case TimerFires(i) =>
      var n := s.notifs[i];
      TimersKeepSlots(s, Put(s, i, n.(held := Impl.TimerFired(n.order, n.held))), i);
    case VolumeTimerFires(i) =>
      var n := s.notifs[i];
      TimersKeepSlots(s, Put(s, i, n.(held := Impl.VolumeStep(n.held).0)), i);
  }

  lemma StepKeepsSlots(s: State, e: Event)
    requires Inv(s) && Enabled(s, e) && !e.StopReply?
    ensures KeepsSlots(s, Step(s, e))
  {
    Names(s);
    match e
    case Start(n, initialized) => StartKeepsSlots(s, n, initialized);
    case IdleStart(i) => BeginKeepsSlots(s.(idleStarts := s.idleStarts - multiset{i}), i);
    case IdleFinish(i) => IdleTakenChanges(s, i); GoodFinishKeepsSlots(s, IdleTaken(s, i), i);
    case PlayReply(i, granted) => ReplyKeepsSlots(s, i, granted);
    case PlaybackCommand(d, w) => if d in s.owner { CommandKeepsSlots(s, s.owner[d], w); }
    case Stop(id) => StopByIdKeepsSlots(s, id);
    case SenderGone(sender) => BySenderKeepsSlots(s, sender);
    case CategoryRead(c) => ByCategoryKeepsSlots(s, c);
    case SystemHint(_) =>
    case StopReply(_) =>
    case _ => CallbackKeepsSlots(s, e);
  }

  lemma StopReplyFreesOne(s: State, i: int, c: PolicyClass)
    requires Inv(s) && Enabled(s, StopReply(i)) && c in s.owner
    ensures i in s.notifs
    ensures var r := OnStopReply(s, i);
            if s.owner[c] == i then c !in r.owner else c in r.owner && r.owner[c] == s.owner[c]
  {
    RequestedIsStarted(s, i);
    DisposedFrame(s.(requests := s.requests - {i}, owner := s.owner - {s.notifs[i].Class()}), i);
  }

  /**
   A slot is emptied by one event only, the stop reply of its own owner, and never handed over:
   finalizing a policy clears no slot of another, although it does not look whose it is.
   */
  lemma SlotsAreKept(s: State, e: Event, c: PolicyClass)
    requires Inv(s) && Enabled(s, e) && c in s.owner
    ensures var r := Step(s, e);
            if e == StopReply(s.owner[c]) then c !in r.owner
            else c in r.owner && r.owner[c] == s.owner[c]
  {
    if e.StopReply? {
      StopReplyFreesOne(s, e.i, c);
    } else {
      StepKeepsSlots(s, e);
    }
  }
}
