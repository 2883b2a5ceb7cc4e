/**
 The callbacks of the implementations and the upgrade command keep the invariant; where the code does
 not keep it, the exact condition.
 */
module ManagerCallbacks {
  import opened Categories
  import opened Lifecycle
  import opened Manager
  import opened ManagerInvariant
  import opened ManagerSteps
  import opened ManagerReplies
  import Impl = Implementations

  // ---------------------------------------------------------------- upgrade by a PLAY command

  /** The slice before the upgrade plays: silent, and granted. */
  function UpgradingSlice(v: Slice): Slice
    requires v.Live?
  {
    var w := if v.n.playing then StopSlice(v) else v;
    Live(w.place, w.n.(granted := true), w.request, w.owns, w.finishes, w.t)
  }

  lemma UpgradingIsReady(v: Slice)
    requires v.Live? && v.place.Started? && GoodStarted(v) && v.n.status == Playing
    requires v.n.Category().Ringtone? && !v.n.granted
    ensures Ready(UpgradingSlice(v), Upgrade)
    ensures Weight(v) >= 310 + 10 * One(!v.n.fallback) + v.finishes
    ensures UpgradingSlice(v).finishes == v.finishes && UpgradingSlice(v).n.fallback == v.n.fallback
  {
    if v.n.playing {
      Impl.StopReleasesItsMode(v.n.order, v.n.granted, v.n.held);
      LifeOfAppend(v.t, Silence(v.n.granted));
    }
  }

  lemma UpgradingChanges(s: State, i: int)
    requires InvBut(s, i)
    ensures var a := Silenced(s, i);
            && i in a.notifs
            && Changes(s, Put(a, i, a.notifs[i].(granted := true)), i, UpgradingSlice(SliceOf(s, i)))
  {
    var a := Silenced(s, i);
    if s.notifs[i].playing {
      SilencedChanges(s, i);
    }
    PutChanges(a, i, a.notifs[i].(granted := true));
  }

  lemma UpgradeKeeps(s: State, i: int)
    requires InvBut(s, i) && GoodStarted(SliceOf(s, i)) && s.notifs[i].status == Playing
    requires s.notifs[i].Category().Ringtone? && !s.notifs[i].granted
    ensures Keeps(s, Upgraded(s, i), i)
  {
    var a := Silenced(s, i);
    UpgradingChanges(s, i);
    var u := Put(a, i, a.notifs[i].(granted := true));
    UpgradingIsReady(SliceOf(s, i));
    PlayedKeeps(u, i, Upgrade);
    PlayWeighs(SliceOf(u, i), Upgrade);
    LighterByOne(s, Upgraded(s, i), i);
  }

  // ---------------------------------------------------------------- errors

  function FallingBack(n: Notification): Notification {
    n.(soundFile := n.order.fallbackFile, fallback := true)
  }

  function FallbackSlice(v: Slice): Slice
    requires v.Live?
  {
    var w := Live(v.place, FallingBack(v.n), v.request, v.owns, v.finishes, v.t);
    if v.n.playing then StopSlice(w) else w
  }

  lemma FallbackIsReady(v: Slice)
    requires v.Live? && v.place.Started? && GoodStarted(v) && v.n.status == Playing
    requires !v.n.fallback && (v.n.Category().Critical? ==> v.n.granted)
    ensures Ready(FallbackSlice(v), Fallback)
    ensures Weight(v) >= 310 + 10 * One(!v.n.granted) + v.finishes
    ensures FallbackSlice(v).finishes == v.finishes && FallbackSlice(v).n.granted == v.n.granted
  {
    if v.n.playing {
      Impl.StopReleasesItsMode(v.n.order, v.n.granted, v.n.held);
      LifeOfAppend(v.t, Silence(v.n.granted));
    }
  }

  lemma FallbackChanges(s: State, i: int)
    requires InvBut(s, i)
    ensures var u := Silenced(Put(s, i, FallingBack(s.notifs[i])), i);
            Changes(s, u, i, FallbackSlice(SliceOf(s, i)))
  {
    var n := FallingBack(s.notifs[i]);
    PutChanges(s, i, n);
    if n.playing {
      SilencedChanges(Put(s, i, n), i);
    }
  }

  lemma RestartKeeps(s: State, i: int)
    requires InvBut(s, i) && GoodStarted(SliceOf(s, i)) && s.notifs[i].status == Playing
    requires !s.notifs[i].fallback && (s.notifs[i].Category().Critical? ==> s.notifs[i].granted)
    ensures Keeps(s, Restarted(s, i), i)
  {
    hide LifeOf, Weight, Shape;
    var u := Silenced(Put(s, i, FallingBack(s.notifs[i])), i);
    FallbackChanges(s, i);
    FallbackIsReady(SliceOf(s, i));
    PlayedKeeps(u, i, Fallback);
    PlayWeighs(SliceOf(u, i), Fallback);
    LighterByOne(s, Restarted(s, i), i);
  }

  // ---------------------------------------------------------------- callbacks

  /** Whoever holds a playback or a timer has been started and is playing. */
  lemma HolderIsPlaying(s: State, i: int)
    requires Inv(s) && i in s.notifs
    requires var h := s.notifs[i].held; h.playback || h.timer || h.step
    ensures InvBut(s, i) && GoodStarted(SliceOf(s, i))
    ensures s.notifs[i].playing && s.notifs[i].status == Playing
    ensures Impl.Sounding(s.notifs[i].order, s.notifs[i].granted, s.notifs[i].held)
  {
    assert GoodSlice(SliceOf(s, i));
  }

  lemma StartedCallbackKeeps(s: State, i: int)
    requires Inv(s) && i in s.notifs && s.notifs[i].held.playback && !s.notifs[i].held.announced
    ensures Keeps(s, OnStarted(s, i), i)
  {
    var n := s.notifs[i];
    HolderIsPlaying(s, i);
    Impl.CallbacksKeepTheMode(n.order, n.granted, n.held);
    PutChanges(s, i, n.(held := Impl.Started(n.order, n.held)));
    ButInv(OnStarted(s, i), i);
    LighterByOne(s, OnStarted(s, i), i);
  }

  lemma TimerKeeps(s: State, i: int)
    requires Inv(s) && i in s.notifs && s.notifs[i].held.timer
    ensures Keeps(s, OnTimer(s, i), i)
  {
    var n := s.notifs[i];
    HolderIsPlaying(s, i);
    Impl.StopAfterTimer(n.order, n.granted, n.held);
    var m := n.(held := Impl.TimerFired(n.order, n.held));
    PutChanges(s, i, m);
    HaltKeeps(s, Put(s, i, m), i);
  }

  lemma VolumeTimerKeeps(s: State, i: int)
    requires Inv(s) && i in s.notifs && s.notifs[i].held.step
    ensures Keeps(s, OnVolumeTimer(s, i), i)
  {
    var n := s.notifs[i];
    HolderIsPlaying(s, i);
    var m := n.(held := Impl.VolumeStep(n.held).0);
    PutChanges(s, i, m);
    if n.held.volumeStep < 3 {
      Impl.CallbacksKeepTheMode(n.order, n.granted, n.held);
      ButInv(OnVolumeTimer(s, i), i);
      LighterByOne(s, OnVolumeTimer(s, i), i);
    } else {
      Impl.StopAfterLastStep(n.order, n.granted, n.held);
      HaltKeeps(s, Put(s, i, m), i);
    }
  }

  /** The idle finish of i that has just been taken off the main loop. */
  function IdleTaken(s: State, i: int): State {
    s.(idleFinishes := s.idleFinishes - multiset{i})
  }

  lemma IdleTakenShape(s: State, i: int)
    requires Shape(s)
    ensures Shape(IdleTaken(s, i))
  {
  }

  lemma IdleTakenOthers(s: State, i: int, j: int)
    requires i != j
    ensures SliceOf(IdleTaken(s, i), j) == SliceOf(s, j)
  {
  }

  lemma IdleTakenChanges(s: State, i: int)
    requires Inv(s) && i in s.notifs && i in s.idleFinishes
    ensures InvBut(s, i) && GoodStarted(SliceOf(s, i))
    ensures Changes(s, IdleTaken(s, i), i,
                    Live(Started, s.notifs[i], RequestOf(s, i), Owns(s, i), s.idleFinishes[i] - 1, History(s, i)))
  {
    assert GoodSlice(SliceOf(s, i));
    IdleTakenShape(s, i);
    forall j | j != i ensures SliceOf(IdleTaken(s, i), j) == SliceOf(s, j) {
      IdleTakenOthers(s, i, j);
    }
  }

  lemma IdleFinishKeeps(s: State, i: int)
    requires Inv(s) && i in s.notifs && i in s.idleFinishes
    ensures Keeps(s, Finish(IdleTaken(s, i), i), i)
  {
    var u := IdleTaken(s, i);
    var n := s.notifs[i];
    IdleTakenChanges(s, i);
    if n.status == Unknown || n.status == Playing {
      GoodCanHalt(SliceOf(s, i));
      HaltKeeps(s, u, i);
    } else {
      ButInv(u, i);
      LighterByOne(s, u, i);
      FinishKeeps(u, i);
      LighterTwice(s, u, Finish(u, i), i);
    }
  }

  lemma LighterTwice(s: State, u: State, r: State, i: int)
    requires Lighter(s, u, i) && (r == u || Lighter(u, r, i))
    ensures Lighter(s, r, i)
  {
    forall j | j != i ensures Untouched(SliceOf(s, j), SliceOf(r, j)) {
      assert Untouched(SliceOf(s, j), SliceOf(u, j));
    }
  }

  lemma SucceededKeeps(s: State, i: int)
    requires Inv(s) && i in s.notifs && s.notifs[i].held.playback
    ensures Keeps(s, OnSucceeded(s, i), i)
  {
    HolderIsPlaying(s, i);
    FinishKeeps(s, i);
  }

  lemma ErrorKeeps(s: State, i: int)
    requires Inv(s) && i in s.notifs && s.notifs[i].held.playback
    requires s.notifs[i].fallback || s.notifs[i].order.fallbackFile.Some?
    ensures Error(s, i).Done? && Keeps(s, Error(s, i).state, i)
  {
    HolderIsPlaying(s, i);
    if s.notifs[i].fallback {
      FinishKeeps(s, i);
    } else {
      RestartKeeps(s, i);
    }
  }

  // ---------------------------------------------------------------- where the code needs its environment

  /** The record of i after an upgrade or a restart. */
  lemma PlayedRecord(s: State, i: int, cause: Cause)
    requires i in s.notifs
    ensures i in Played(s, i, cause).notifs && Played(s, i, cause).notifs[i] == PlayRecord(s.notifs[i])
  {
  }

  lemma PlayingOnlyWhilePlaying(s: State, i: int)
    requires Inv(s) && i in s.notifs
    ensures s.notifs[i].playing ==> s.notifs[i].status == Playing
  {
    assert GoodSlice(SliceOf(s, i));
  }

  lemma BadRecordBreaks(s: State, i: int)
    requires i in s.notifs && s.notifs[i].playing && s.notifs[i].status != Playing
    ensures !Inv(s)
  {
    if Inv(s) {
      PlayingOnlyWhilePlaying(s, i);
    }
  }

  /**
   A PLAY command that upgrades the owner of the ringtone class keeps the invariant exactly when that
   owner is being played: on a notification that still waits for its permission, or has already been
   stopped, the code plays out of turn.
   */
  lemma UpgradeNeedsPlaying(s: State, i: int)
    requires Inv(s) && s.current.Some? && RingtoneClass in s.owner && s.owner[RingtoneClass] == i
    requires s.notifs[i].Category().Ringtone? && !s.notifs[i].granted
    ensures Inv(OnCommand(s, RingtoneClass, WantPlay)) <==> s.notifs[i].status == Playing
  {
    hide Inv, Upgraded, Silenced, Played;
    OwnerIsStarted(s, RingtoneClass);
    if s.notifs[i].status == Playing {
      UpgradeKeeps(s, i);
    } else {
      PlayingOnlyWhilePlaying(s, i);
      UpgradeOutOfTurn(s, i);
    }
  }

  lemma UpgradeOutOfTurn(s: State, i: int)
    requires i in s.notifs && s.notifs[i].Category().Ringtone? && !s.notifs[i].playing && s.notifs[i].status != Playing
    ensures !Inv(Upgraded(s, i))
  {
    PlayedRecord(Put(s, i, s.notifs[i].(granted := true)), i, Upgrade);
    BadRecordBreaks(Upgraded(s, i), i);
  }

  lemma HaltedRecord(s: State, i: int)
    requires i in s.notifs && s.notifs[i].playing
    ensures i in Halted(s, i).notifs
    ensures Halted(s, i).notifs[i] == StopRecord(s.notifs[i].(status := Stopped))
  {
  }

  /** Without a fallback file, a notification that is not destroyed at once is played after its stop. */
  lemma ErrorAfterFinishBreaks(s: State, i: int)
    requires Inv(s) && i in s.notifs && s.notifs[i].held.playback
    requires !s.notifs[i].fallback && s.notifs[i].order.fallbackFile.None?
    requires s.notifs[i].policy && Asynchronous(s.notifs[i].Class())
    ensures Error(s, i).Done? && !Inv(Error(s, i).state)
  {
    hide Inv, InvBut, GoodStarted;
    var n := s.notifs[i];
    HolderIsPlaying(s, i);
    GoodCanHalt(SliceOf(s, i));
    HaltedHalts(s, i);
    HaltedRecord(s, i);
    var h := Halted(s, i);
    var a := StopPermission(h, i);
    assert a.notifs == h.notifs;
    var m := FallingBack(a.notifs[i]);
    assert Silenced(Put(a, i, m), i) == Put(a, i, m);
    PlayedRecord(Put(a, i, m), i, Fallback);
    BadRecordBreaks(Restarted(a, i), i);
  }

  lemma ErrorAfterFinishDangles(s: State, i: int)
    requires Inv(s) && i in s.notifs && s.notifs[i].held.playback
    requires !s.notifs[i].fallback && s.notifs[i].order.fallbackFile.None?
    requires !s.notifs[i].policy || !Asynchronous(s.notifs[i].Class())
    ensures Error(s, i).Dangling?
  {
    hide InvBut, GoodStarted;
    var h := Halted(s, i);
    HolderIsPlaying(s, i);
    GoodCanHalt(SliceOf(s, i));
    HaltedHalts(s, i);
    DisposedNotifs(h, i);
    if s.notifs[i].policy {
      NoSystemOwner(h, i);
      DisposedNotifs(Log(h, i, AskStop), i);
    }
  }

  /**
   An error from the playback is handled correctly exactly when the fallback was already tried or a
   fallback file exists. Otherwise the notification is finished and then used again: played after its
   stop, or touched after its destruction.
   */
  lemma ErrorNeedsFallback(s: State, i: int)
    requires Inv(s) && i in s.notifs && s.notifs[i].held.playback
    ensures Error(s, i).Done? && Inv(Error(s, i).state)
            <==> s.notifs[i].fallback || s.notifs[i].order.fallbackFile.Some?
    ensures Error(s, i).Dangling?
            <==> !s.notifs[i].fallback && s.notifs[i].order.fallbackFile.None?
                 && !(s.notifs[i].policy && Asynchronous(s.notifs[i].Class()))
  {
    var n := s.notifs[i];
    if n.fallback || n.order.fallbackFile.Some? {
      ErrorKeeps(s, i);
    } else if n.policy && Asynchronous(n.Class()) {
      ErrorAfterFinishBreaks(s, i);
    } else {
      ErrorAfterFinishDangles(s, i);
    }
  }
}
