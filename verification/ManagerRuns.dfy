/**
 The events of the manager, what the environment promises about them, and the step that each of them
 makes. Every step keeps the invariant, and those without new input make the pending work smaller.
 */
module ManagerRuns {
  import opened Wrappers
  import opened Categories
  import opened Manager
  import opened ManagerInvariant
  import opened ManagerSteps
  import opened ManagerReplies
  import opened ManagerCallbacks

  datatype Event =
    | Start(n: Notification, initialized: bool)
    | SystemHint(allowed: bool)
    | IdleStart(i: int)
    | IdleFinish(i: int)
    | PlayReply(i: int, granted: bool)
    | StopReply(i: int)
    | PlaybackCommand(c: PolicyClass, w: Wanted)
    | PlaybackStarted(i: int)
    | PlaybackSucceeded(i: int)
    | PlaybackError(i: int)
    | TimerFires(i: int)
    | VolumeTimerFires(i: int)
    | Stop(id: int)
    | SenderGone(sender: string)
    | CategoryRead(category: Category)

  /** The command makes the manager play i again, with permission. */
  predicate Upgrades(s: State, i: int, w: Wanted)
    requires i in s.notifs
  {
    s.current.Some? && w.WantPlay? && s.notifs[i].Category().Ringtone? && !s.notifs[i].granted
  }

  /**
   The environment. (a) A reply answers a pending request. (b) An upgrading PLAY command meets a
   notification that is being played. (c) An idle finish of a notification that is gone is not
   delivered; a callback of an implementation comes from a resource it holds. (d) An error comes while
   there is something to fall back to, or after that was tried.
   */
  predicate Enabled(s: State, e: Event) {
    match e
    case Start(n, _) => n.Fresh()
    case SystemHint(_) => true
    case IdleStart(i) => i in s.idleStarts
    case IdleFinish(i) => i in s.idleFinishes && i in s.notifs
    case PlayReply(i, _) => i in s.requests && s.requests[i] == ForPlay
    case StopReply(i) => i in s.requests && s.requests[i] == ForStop
    case PlaybackCommand(c, w) =>
      c in s.owner && s.owner[c] in s.notifs && Upgrades(s, s.owner[c], w) ==> s.notifs[s.owner[c]].status == Playing
    case PlaybackStarted(i) => i in s.notifs && s.notifs[i].held.playback && !s.notifs[i].held.announced
    case PlaybackSucceeded(i) => i in s.notifs && s.notifs[i].held.playback
    case PlaybackError(i) =>
      i in s.notifs && s.notifs[i].held.playback && (s.notifs[i].fallback || s.notifs[i].order.fallbackFile.Some?)
    case TimerFires(i) => i in s.notifs && s.notifs[i].held.timer
    case VolumeTimerFires(i) => i in s.notifs && s.notifs[i].held.step
    case Stop(_) | SenderGone(_) | CategoryRead(_) => true
  }

  /** Inputs that bring something new; every other event only works off what is there. */
  predicate IsInput(e: Event) {
    e.Start? || e.SystemHint?
  }

  /** Nothing got heavier and something got lighter. */
  ghost predicate Shrinks(s: State, r: State) {
    && (forall j {:trigger SliceOf(r, j)} :: Weight(SliceOf(r, j)) <= Weight(SliceOf(s, j)))
    && exists i {:trigger SliceOf(r, i)} :: Weight(SliceOf(r, i)) < Weight(SliceOf(s, i))
  }

  /** Nothing new, and every notification left is still the one that was ordered. */
  ghost predicate SameOrders(s: State, r: State) {
    forall j {:trigger j in r.notifs} :: SameOrder(s, r, j)
  }

  ghost predicate Works(s: State, r: State) {
    Inv(r) && SameShape(s, r) && (r == s || (SameOrders(s, r) && Shrinks(s, r)))
  }

  lemma KeepsWorks(s: State, r: State, i: int)
    requires Keeps(s, r, i)
    ensures Works(s, r)
  {
    if r != s {
      forall j ensures Weight(SliceOf(r, j)) <= Weight(SliceOf(s, j)) && SameOrder(s, r, j) {
        if j != i {
          assert Untouched(SliceOf(s, j), SliceOf(r, j));
        }
      }
    }
  }

  lemma WorksTwice(s: State, u: State, r: State)
    requires Works(s, u) && Works(u, r)
    ensures Works(s, r)
  {
    if r != u && u != s {
      forall j ensures SameOrder(s, r, j) {
        assert SameOrder(u, r, j) && SameOrder(s, u, j);
      }
      var i :| Weight(SliceOf(u, i)) < Weight(SliceOf(s, i));
      assert Weight(SliceOf(r, i)) <= Weight(SliceOf(u, i));
      forall j ensures Weight(SliceOf(r, j)) <= Weight(SliceOf(s, j)) {
        assert Weight(SliceOf(u, j)) <= Weight(SliceOf(s, j));
      }
    }
  }

  // ---------------------------------------------------------------- stopping by id, sender, category

  lemma StopByIdWorks(s: State, id: int)
    requires Inv(s) && Consistent(s)
    ensures Works(s, StopById(s, id))
  {
    if s.current == Some(id) {
      FinishKeeps(s, id);
      KeepsWorks(s, Finish(s, id), id);
    } else if id in s.queue {
      DropKeeps(s, id);
      KeepsWorks(s, Drop(s, id), id);
    }
  }

  lemma FinishBySenderWorks(s: State, sender: string)
    requires Inv(s) && Consistent(s)
    ensures Works(s, FinishBySender(s, sender))
  {
    if s.current.Some? && SentBy(s.notifs[s.current.value], sender) {
      FinishKeeps(s, s.current.value);
      KeepsWorks(s, Finish(s, s.current.value), s.current.value);
    } else {
      var f := FirstSentBy(s, s.queue, sender);
      if f.Some? {
        DropKeeps(s, f.value);
        KeepsWorks(s, Drop(s, f.value), f.value);
      }
    }
  }

  lemma DropQueue(s: State, i: int)
    requires Inv(s) && i in s.queue
    ensures i in s.notifs && Drop(s, i).queue == Without(s.queue, i)
    ensures Drop(s, i).notifs == s.notifs - {i}
    ensures Drop(s, i).current == s.current
  {
    DropKeeps(s, i);
    DropTakesOne(s, i);
  }

  /** After the first of them is dropped, the others are still queued and unstarted. */
  lemma DropLeaves(s: State, ids: seq<int>)
    requires Inv(s) && Increasing(ids) && ids != []
    requires forall k :: 0 <= k < |ids| ==> ids[k] in s.queue && ids[k] in s.notifs && Unstarted(s.notifs[ids[k]])
    ensures var u := Drop(s, ids[0]);
            forall k :: 0 <= k < |ids[1..]| ==>
              ids[1..][k] in u.queue && ids[1..][k] in u.notifs && Unstarted(u.notifs[ids[1..][k]])
  {
    var u := Drop(s, ids[0]);
    DropQueue(s, ids[0]);
    InvConsistent(s);
    WithoutMembers(s.queue, ids[0]);
    forall k | 0 <= k < |ids[1..]|
      ensures ids[1..][k] in u.queue && ids[1..][k] in u.notifs && Unstarted(u.notifs[ids[1..][k]])
    {
      assert ids[1..][k] == ids[k + 1] && ids[0] < ids[k + 1];
    }
  }

  lemma {:induction false} DropAllWorks(s: State, ids: seq<int>)
    requires Inv(s) && Increasing(ids)
    requires forall k :: 0 <= k < |ids| ==> ids[k] in s.queue && ids[k] in s.notifs && Unstarted(s.notifs[ids[k]])
    ensures Works(s, DropAll(s, ids))
    decreases |ids|
  {
    if ids != [] {
      var u := Drop(s, ids[0]);
      DropKeeps(s, ids[0]);
      KeepsWorks(s, u, ids[0]);
      DropLeaves(s, ids);
      DropAllWorks(u, ids[1..]);
      WorksTwice(s, u, DropAll(s, ids));
    }
  }

  lemma FinishByCategoryWorks(s: State, c: Category)
    requires Inv(s) && Consistent(s)
    ensures Works(s, FinishByCategory(s, c))
  {
    if s.current.Some? && s.notifs[s.current.value].Category() == c {
      FinishKeeps(s, s.current.value);
      KeepsWorks(s, Finish(s, s.current.value), s.current.value);
    } else {
      var ids := OfCategory(s, s.queue, c);
      OfCategoryIncreasing(s, s.queue, c);
      forall k | 0 <= k < |ids| ensures ids[k] in s.queue && ids[k] in s.notifs && Unstarted(s.notifs[ids[k]]) {
        assert ids[k] in ids;
      }
      DropAllWorks(s, ids);
    }
  }

  lemma CommandToOwnerWorks(s: State, i: int, w: Wanted)
    requires InvBut(s, i) && GoodStarted(SliceOf(s, i)) && Asynchronous(s.notifs[i].Class())
    requires Upgrades(s, i, w) ==> s.notifs[i].status == Playing
    ensures Works(s, Command(s, i, w))
  {
    ButInv(s, i);
    if s.current.Some? {
      if w.WantStop? {
        CommandStopKeeps(s, i);
        KeepsWorks(s, Silenced(s, i), i);
      } else if w.WantPlay? && !s.notifs[i].granted && s.notifs[i].Category().Ringtone? {
        UpgradeKeeps(s, i);
        KeepsWorks(s, Upgraded(s, i), i);
      }
    }
  }

  lemma CommandWorks(s: State, c: PolicyClass, w: Wanted)
    requires Inv(s) && Enabled(s, PlaybackCommand(c, w))
    ensures c in s.owner ==> s.owner[c] in s.notifs
    ensures Works(s, OnCommand(s, c, w))
  {
    if c in s.owner {
      OwnerIsStarted(s, c);
      CommandToOwnerWorks(s, s.owner[c], w);
    }
  }

  // ---------------------------------------------------------------- steps and runs

  /** Nothing that the manager names is gone. */
  lemma Names(s: State)
    requires Inv(s)
    ensures Consistent(s)
    ensures forall i :: i in s.idleStarts ==> i in s.notifs
    ensures forall i :: i in s.requests ==> i in s.notifs
    ensures forall c :: c in s.owner ==> s.owner[c] in s.notifs
  {
    InvConsistent(s);
  }

  lemma ErrorIsDone(s: State, i: int)
    requires Inv(s) && Enabled(s, PlaybackError(i))
    ensures Error(s, i).Done?
  {
    ErrorNeedsFallback(s, i);
  }

  function Step(s: State, e: Event): State
    requires Inv(s) && Enabled(s, e)
  {
    Names(s);
    match e
    case Start(n, initialized) => Manager.Start(s, n, initialized).0
    case SystemHint(allowed) => s.(systemAllowed := allowed)
    case IdleStart(i) => StartNotification(s.(idleStarts := s.idleStarts - multiset{i}), i)
    case IdleFinish(i) => Finish(IdleTaken(s, i), i)
    case PlayReply(i, granted) => OnPlayReply(s, i, granted)
    case StopReply(i) => OnStopReply(s, i)
    case PlaybackCommand(c, w) => OnCommand(s, c, w)
    case PlaybackStarted(i) => OnStarted(s, i)
    case PlaybackSucceeded(i) => OnSucceeded(s, i)
    case PlaybackError(i) => ErrorIsDone(s, i); Error(s, i).state
    case TimerFires(i) => OnTimer(s, i)
    case VolumeTimerFires(i) => OnVolumeTimer(s, i)
    case Stop(id) => StopById(s, id)
    case SenderGone(sender) => FinishBySender(s, sender)
    case CategoryRead(c) => FinishByCategory(s, c)
  }

  lemma HintKeeps(s: State, allowed: bool)
    requires Inv(s)
    ensures Inv(s.(systemAllowed := allowed))
  {
    hide GoodSlice;
    var r := s.(systemAllowed := allowed);
    forall i | i in r.trace ensures GoodSlice(SliceOf(r, i)) {
      assert SliceOf(r, i) == SliceOf(s, i) && GoodSlice(SliceOf(s, i));
    }
  }

  lemma ReplyWorks(s: State, i: int, granted: bool)
    requires Inv(s) && Enabled(s, PlayReply(i, granted))
    ensures i in s.notifs && Works(s, OnPlayReply(s, i, granted))
  {
    if s.notifs[i].stopped {
      LateReplyKeeps(s, i, granted);
    } else {
      PlayReplyKeeps(s, i, granted);
    }
    KeepsWorks(s, OnPlayReply(s, i, granted), i);
  }

  lemma ErrorWorks(s: State, i: int)
    requires Inv(s) && Enabled(s, PlaybackError(i))
    ensures Error(s, i).Done? && Works(s, Error(s, i).state)
  {
    ErrorKeeps(s, i);
    KeepsWorks(s, Error(s, i).state, i);
  }

  /** Every event but an input either changes nothing or makes the pending work smaller. */
  lemma StepWorks(s: State, e: Event)
    requires Inv(s) && Enabled(s, e) && !IsInput(e)
    ensures Works(s, Step(s, e))
  {
    Names(s);
    match e
    case IdleStart(i) => IdleStartKeeps(s, i); KeepsWorks(s, Step(s, e), i);
    case IdleFinish(i) => IdleFinishKeeps(s, i); KeepsWorks(s, Step(s, e), i);
    case PlayReply(i, granted) => ReplyWorks(s, i, granted);
    case StopReply(i) => StopReplyKeeps(s, i); KeepsWorks(s, Step(s, e), i);
    case PlaybackCommand(c, w) => CommandWorks(s, c, w);
    case PlaybackStarted(i) => StartedCallbackKeeps(s, i); KeepsWorks(s, Step(s, e), i);
    case PlaybackSucceeded(i) => SucceededKeeps(s, i); KeepsWorks(s, Step(s, e), i);
    case PlaybackError(i) => ErrorWorks(s, i);
    case TimerFires(i) => TimerKeeps(s, i); KeepsWorks(s, Step(s, e), i);
    case VolumeTimerFires(i) => VolumeTimerKeeps(s, i); KeepsWorks(s, Step(s, e), i);
    case Stop(id) => StopByIdWorks(s, id);
    case SenderGone(sender) => FinishBySenderWorks(s, sender);
    case CategoryRead(c) => FinishByCategoryWorks(s, c);
    case _ =>
  }

  lemma StepKeepsInv(s: State, e: Event)
    requires Inv(s) && Enabled(s, e)
    ensures Inv(Step(s, e))
  {
    Names(s);
    match e
    case Start(n, initialized) =>
      StartIs(s, n, initialized);
      if Accepts(s, n, initialized) {
        StartKeeps(s, n, initialized);
      }
    case SystemHint(allowed) => HintKeeps(s, allowed);
    case _ => StepWorks(s, e);
  }

  /** A playback that has started is known to have, and what vibrates with it does. */
  lemma StartedTakesEffect(s: State, i: int)
    requires Inv(s) && Enabled(s, PlaybackStarted(i))
    ensures var r, o := Step(s, PlaybackStarted(i)), s.notifs[i].order;
            && i in r.notifs && r.notifs[i].held.announced && r.notifs[i].held.playback
            && (r.notifs[i].held.vibra <==> o.vibraEnabled && !o.category.System? && !o.category.Critical?)
            && (r.notifs[i].held.step <==> o.category.Clock?)
  {
    HolderIsPlaying(s, i);
  }
}
