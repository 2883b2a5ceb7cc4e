/**
 Who serves the queue. A waiting notification gets its turn from one that is due to start, or from a
 started one that can still be answered or ended. A refused one is neither; one that plays without
 anything that ends it can only be stopped while it is current. What each event does to all of that.
 */
module ManagerServing {
  import opened Wrappers
  import opened Categories
  import opened Lifecycle
  import opened Manager
  import opened ManagerInvariant
  import opened ManagerSteps
  import opened ManagerReplies
  import opened ManagerCallbacks
  import opened ManagerRuns
  import opened ManagerQueue
  import Impl = Implementations

  /** The notification that the event makes the manager finish, other than one taken from the queue. */
  function FinishTarget(s: State, e: Event): Option<int>
    requires Inv(s) && Enabled(s, e)
  {
    Names(s);
    match e
    case Start(n, initialized) => if Accepts(s, n, initialized) then s.current else None
    case IdleFinish(i) => Some(i)
    case PlaybackSucceeded(i) => if s.notifs[i].Category().Clock? then None else Some(i)
    case PlaybackError(i) => if s.notifs[i].fallback then Some(i) else None
    case TimerFires(i) => Some(i)
    case VolumeTimerFires(i) => if Impl.VolumeStep(s.notifs[i].held).1 then Some(i) else None
    case Stop(id) => if s.current == Some(id) then s.current else None
    case SenderGone(sender) =>
      if s.current.Some? && SentBy(s.notifs[s.current.value], sender) then s.current else None
    case CategoryRead(c) =>
      if s.current.Some? && s.notifs[s.current.value].Category() == c then s.current else None
    case _ => None
  }

  // ---------------------------------------------------------------- who serves

  predicate IsStarted(v: Slice) {
    v.Live? && v.place.Started?
  }

  predicate IsRefused(v: Slice) {
    IsStarted(v) && v.n.status == Initialized && v.request.None?
  }

  /** A started notification is refused exactly when its history says so. */
  lemma RefusedIsTurned(s: State, i: int)
    requires Inv(s) && i in s.notifs && PlaceOf(s, i).Started?
    ensures IsRefused(SliceOf(s, i)) <==> LifeOf(History(s, i)).phase.Turned?
    ensures IsRefused(SliceOf(s, i)) <==> Refused in History(s, i)
  {
    assert GoodSlice(SliceOf(s, i));
    RefusedIsRemembered(History(s, i));
  }

  /** A reply is pending, or the idle finish after a late one: the queue is served by it or soon after. */
  predicate Waits(v: Slice) {
    IsStarted(v) && (v.request.Some? || v.n.status == Unknown)
  }

  /** It may be finished, and its end serves the queue. */
  predicate IsPlaying(v: Slice) {
    IsStarted(v) && v.n.status == Playing && v.n.policy
  }

  /** An error of the playback can still finish it, after the fallback if need be. */
  predicate MayFail(n: Notification) {
    n.fallback || n.order.fallbackFile.Some?
  }

  /** It holds something that finishes it; a ringtone's playback repeats and ends by errors only. */
  predicate HoldsItsEnd(n: Notification) {
    n.held.timer || n.held.step || (n.held.playback && (!n.Category().Ringtone? || MayFail(n)))
  }

  /** A PLAY command would give it a playback that ends. */
  predicate IsUpgradable(n: Notification) {
    n.Category().Ringtone? && !n.granted && n.order.soundEnabled && MayFail(n)
  }

  /** i can still be answered or finished, while current is what it is, and then serves the queue. */
  predicate Server(v: Slice, i: int, current: Option<int>) {
    || Waits(v)
    || (IsPlaying(v) && (v.finishes > 0 || HoldsItsEnd(v.n) || current == Some(i) || (current.Some? && IsUpgradable(v.n))))
  }

  ghost predicate SomeoneServes(s: State) {
    exists i {:trigger SliceOf(s, i)} :: Server(SliceOf(s, i), i, s.current)
  }

  /** Somebody other than i serves the queue while current is what it is. */
  ghost predicate OthersServe(s: State, i: int, current: Option<int>) {
    exists j {:trigger SliceOf(s, j)} :: j != i && Server(SliceOf(s, j), j, current)
  }

  /** If anybody waits, somebody is due to start, or serves. */
  ghost predicate Served(s: State) {
    s.queue != [] ==> s.idleStarts != multiset{} || SomeoneServes(s)
  }

  /** If anybody waits, somebody is due to start, or a reply or an idle finish is pending. */
  ghost predicate Prompt(s: State) {
    s.queue != [] ==> s.idleStarts != multiset{} || exists i {:trigger SliceOf(s, i)} :: Waits(SliceOf(s, i))
  }

  lemma PromptIsServed(s: State)
    requires Prompt(s)
    ensures Served(s)
  {
    hide SliceOf;
    if s.queue != [] && s.idleStarts == multiset{} {
      var i :| Waits(SliceOf(s, i));
      assert Server(SliceOf(s, i), i, s.current);
    }
  }

  ghost predicate NobodyRefused(s: State) {
    forall i {:trigger SliceOf(s, i)} :: !IsRefused(SliceOf(s, i))
  }

  // ---------------------------------------------------------------- everybody else

  /** One that is started is the same, and nobody starts. */
  predicate Alike(v: Slice, w: Slice) {
    IsStarted(v) || IsStarted(w) ==> v == w
  }

  ghost predicate OthersAlike(s: State, r: State, i: int) {
    forall j {:trigger SliceOf(r, j)} {:trigger SliceOf(s, j)} :: j != i ==> Alike(SliceOf(s, j), SliceOf(r, j))
  }

  lemma KeepsAlike(s: State, r: State, i: int)
    requires Keeps(s, r, i)
    ensures OthersAlike(s, r, i)
  {
    hide Inv, SliceOf;
    if r != s {
      forall j | j != i ensures Alike(SliceOf(s, j), SliceOf(r, j)) {
        assert Untouched(SliceOf(s, j), SliceOf(r, j));
      }
    }
  }

  lemma BeginsAlike(s: State, r: State, i: int)
    requires Begins(s, r, i)
    ensures OthersAlike(s, r, i)
  {
    hide Inv, SliceOf;
    forall j | j != i ensures Alike(SliceOf(s, j), SliceOf(r, j)) {
      assert Untouched(SliceOf(s, j), SliceOf(r, j));
    }
  }

  lemma WhoServes(s: State, r: State, i: int)
    requires OthersAlike(s, r, i)
    ensures SomeoneServes(r) <==> Server(SliceOf(r, i), i, r.current) || OthersServe(s, i, r.current)
  {
    hide SliceOf;
    if j :| j != i && Server(SliceOf(s, j), j, r.current) {
      assert SliceOf(r, j) == SliceOf(s, j);
    }
  }

  // ---------------------------------------------------------------- the line of those who wait

  ghost predicate SameLine(u: State, r: State) {
    r.queue == u.queue && r.idleStarts == u.idleStarts
  }

  /** The head of the queue, if any, is due. */
  ghost predicate Advances(u: State, r: State) {
    SameLine(StartNext(u), r)
  }

  lemma AdvancesServes(u: State, r: State)
    requires Advances(u, r)
    ensures r.queue == [] || r.idleStarts != multiset{}
    ensures u.queue != [] ==> u.queue[0] in r.idleStarts && r.idleStarts != multiset{}
    ensures u.queue == [] ==> SameLine(u, r)
  {
    if u.queue != [] {
      assert u.queue[0] in StartNext(u).idleStarts;
    }
  }

  /** The pointer stays, or i is gone and was current. */
  ghost predicate KeepsPointer(s: State, r: State, i: int) {
    r.current == s.current || (s.current == Some(i) && r.current.None? && i !in r.notifs)
  }

  /** i serves those who wait in u, or waits itself for what will. */
  ghost predicate Serving(s: State, u: State, r: State, i: int) {
    && (Advances(u, r) || (SameLine(u, r) && Waits(SliceOf(r, i))))
    && KeepsPointer(s, r, i)
    && !IsRefused(SliceOf(r, i))
  }

  /** i goes on playing, and is a server as it was. */
  ghost predicate Stays(s: State, r: State, i: int) {
    && SameLine(s, r) && r.current == s.current
    && i in r.notifs && IsStarted(SliceOf(r, i)) && r.notifs[i].status == Playing
    && (Server(SliceOf(r, i), i, r.current) <==> Server(SliceOf(s, i), i, s.current))
  }

  /** i, told to stop by a command, holds nothing that ends it any more. */
  ghost predicate Hushes(s: State, r: State, i: int) {
    && SameLine(s, r) && r.current == s.current && i in s.notifs && IsPlaying(SliceOf(s, i))
    && i in r.notifs && IsStarted(SliceOf(r, i)) && r.notifs[i].status == Playing
    && (Server(SliceOf(r, i), i, r.current) <==>
          s.idleFinishes[i] > 0 || s.current == Some(i) || (s.current.Some? && IsUpgradable(s.notifs[i])))
  }

  // ---------------------------------------------------------------- replies

  lemma TryNextActs(s: State, i: int, granted: bool)
    requires i in s.notifs
    ensures var r := TryNext(s, i, granted);
            Advances(s, r) && r.current == s.current && i in r.notifs && !IsRefused(SliceOf(r, i))
  {
    hide Played;
    var u := Put(s, i, s.notifs[i].(status := Playing, granted := granted));
    PlayedStatus(u, i, Reply);
    TryNextFrame(s, i, granted);
  }

  lemma PlayedStatus(s: State, i: int, cause: Cause)
    requires i in s.notifs
    ensures var r := Played(s, i, cause);
            i in r.notifs && r.notifs[i].status == s.notifs[i].status && r.requests == s.requests && SameFrame(s, r)
  {
    PlayedFrame(s, i, cause);
  }

  lemma ReplyActs(s: State, i: int, granted: bool)
    requires Inv(s) && i in s.requests && s.requests[i] == ForPlay
    ensures i in s.notifs
    ensures var r := OnPlayReply(s, i, granted);
            && OthersAlike(s, r, i) && Serving(s, s, r, i) && r.current == s.current
            && if s.notifs[i].stopped then Waits(SliceOf(r, i)) && SameLine(s, r) else Advances(s, r)
  {
    RequestedIsStarted(s, i);
    var u := s.(requests := s.requests - {i});
    if s.notifs[i].stopped {
      LateReplyKeeps(s, i, granted);
      LateReplyChanges(s, i, granted);
    } else {
      PlayReplyKeeps(s, i, granted);
      TryNextActs(u, i, granted);
    }
    KeepsAlike(s, OnPlayReply(s, i, granted), i);
  }

  lemma StopReplyActs(s: State, i: int)
    requires Inv(s) && i in s.requests && s.requests[i] == ForStop
    ensures i in s.notifs
    ensures var r := OnStopReply(s, i);
            OthersAlike(s, r, i) && Serving(s, s, r, i) && Advances(s, r) && i !in r.notifs
            && r.current == if s.current == Some(i) then None else s.current
  {
    var u := s.(requests := s.requests - {i}, owner := s.owner - {s.notifs[i].Class()});
    StopReplyKeeps(s, i);
    KeepsAlike(s, OnStopReply(s, i), i);
    DisposedNotifs(u, i);
    DisposedFrame(u, i);
  }

  // ---------------------------------------------------------------- commands

  lemma SilencedStatus(s: State, i: int)
    requires i in s.notifs
    ensures var r := Silenced(s, i);
            i in r.notifs && r.notifs[i].status == s.notifs[i].status && r.requests == s.requests && SameFrame(s, r)
  {
  }

  /** A playing notification of an asynchronous class holds nothing after its stop. */
  lemma SilencedHolds(v: Slice)
    requires v.Live? && GoodStarted(v) && v.n.playing && Asynchronous(v.n.Class())
    ensures var n := StopRecord(v.n);
            && !n.held.timer && !n.held.step && !n.held.playback
            && n == v.n.(playing := false, held := n.held) && v.n.status == Playing
  {
    Impl.StopReleasesItsMode(v.n.order, v.n.granted, v.n.held);
  }

  lemma SilenceActs(s: State, i: int)
    requires InvBut(s, i) && GoodStarted(SliceOf(s, i)) && s.notifs[i].policy && Asynchronous(s.notifs[i].Class())
    ensures var r := Silenced(s, i);
            OthersAlike(s, r, i) && if s.notifs[i].playing then Hushes(s, r, i) else r == s
  {
    CommandStopKeeps(s, i);
    KeepsAlike(s, Silenced(s, i), i);
    if s.notifs[i].playing {
      SilencedChanges(s, i);
      SilencedHolds(SliceOf(s, i));
    }
  }

  /** An upgrade gives a ringtone with sound its playback, and one without none. */
  lemma UpgradedHolds(n: Notification)
    requires n.Category().Ringtone? && !n.granted
    requires if n.playing then Impl.Sounding(n.order, false, n.held) else Impl.Resting(n.order, false, n.held)
    ensures var a := (if n.playing then StopRecord(n) else n).(granted := true);
            && PlaySucceeds(a) && HoldsItsEnd(PlayRecord(a)) == IsUpgradable(n) && !HoldsItsEnd(n)
            && PlayRecord(a) == n.(granted := true, playing := true, held := PlayRecord(a).held, volume := PlayRecord(a).volume)
  {
  }

  lemma UpgradedIs(s: State, i: int)
    requires i in s.notifs && s.notifs[i].Category().Ringtone? && !s.notifs[i].granted
    requires var n := s.notifs[i];
             if n.playing then Impl.Sounding(n.order, false, n.held) else Impl.Resting(n.order, false, n.held)
    ensures var r, n := Upgraded(s, i), s.notifs[i];
            && i in r.notifs && r.notifs[i] == PlayRecord((if n.playing then StopRecord(n) else n).(granted := true))
            && SameFrame(s, r) && r.requests == s.requests && r.idleFinishes == s.idleFinishes
  {
    hide PlayRecord, PlaySucceeds, StopRecord;
    UpgradedHolds(s.notifs[i]);
    SilencedStatus(s, i);
  }

  lemma UpgradeActs(s: State, i: int)
    requires i in s.notifs && InvBut(s, i) && GoodStarted(SliceOf(s, i)) && s.notifs[i].policy && s.notifs[i].status == Playing
    requires s.notifs[i].Category().Ringtone? && !s.notifs[i].granted && s.current.Some?
    ensures OthersAlike(s, Upgraded(s, i), i) && Stays(s, Upgraded(s, i), i)
  {
    hide PlayRecord, PlaySucceeds, StopRecord, Upgraded, LifeOf, Impl.Sounding, Impl.Resting, Shape, GoodSlice;
    UpgradeKeeps(s, i);
    KeepsAlike(s, Upgraded(s, i), i);
    UpgradedHolds(s.notifs[i]);
    UpgradedIs(s, i);
  }

  /** A command changes nothing, or upgrades its owner, or hushes it. */
  lemma CommandActs(s: State, i: int, w: Wanted)
    requires i in s.notifs && InvBut(s, i) && GoodStarted(SliceOf(s, i)) && s.notifs[i].policy && Asynchronous(s.notifs[i].Class())
    requires Upgrades(s, i, w) ==> s.notifs[i].status == Playing
    ensures var r := Command(s, i, w);
            && OthersAlike(s, r, i)
            && if s.current.Some? && w.WantStop? && s.notifs[i].playing then Hushes(s, r, i)
               else if Upgrades(s, i, w) then Stays(s, r, i)
               else r == s
  {
    hide InvBut, GoodStarted, SliceOf, Upgraded, Silenced;
    if s.current.Some? && w.WantStop? {
      SilenceActs(s, i);
    } else if Upgrades(s, i, w) {
      UpgradeActs(s, i);
    }
  }

  // ---------------------------------------------------------------- callbacks that finish nobody

  /** Whoever holds a playback or the volume timer keeps holding it. */
  lemma HolderActs(s: State, r: State, i: int)
    requires Inv(s) && i in s.notifs && (s.notifs[i].held.playback || s.notifs[i].held.step)
    requires Keeps(s, r, i) && SameFrame(s, r) && r.requests == s.requests && i in r.notifs
    requires r.notifs[i].status == s.notifs[i].status && r.notifs[i].policy == s.notifs[i].policy
    requires HoldsItsEnd(s.notifs[i]) || s.idleFinishes[i] > 0 <==> HoldsItsEnd(r.notifs[i]) || r.idleFinishes[i] > 0
    requires IsUpgradable(s.notifs[i]) <==> IsUpgradable(r.notifs[i])
    ensures OthersAlike(s, r, i) && Stays(s, r, i)
  {
    HolderIsPlaying(s, i);
    KeepsAlike(s, r, i);
  }

  lemma StartedActs(s: State, i: int)
    requires Inv(s) && i in s.notifs && s.notifs[i].held.playback && !s.notifs[i].held.announced
    ensures OthersAlike(s, OnStarted(s, i), i) && Stays(s, OnStarted(s, i), i)
  {
    hide Inv, Shape;
    StartedCallbackKeeps(s, i);
    HolderIsPlaying(s, i);
    HolderActs(s, OnStarted(s, i), i);
  }

  lemma VolumeActs(s: State, i: int)
    requires Inv(s) && i in s.notifs && s.notifs[i].held.step && !Impl.VolumeStep(s.notifs[i].held).1
    ensures OthersAlike(s, OnVolumeTimer(s, i), i) && Stays(s, OnVolumeTimer(s, i), i)
  {
    hide Inv, Shape;
    VolumeTimerKeeps(s, i);
    HolderIsPlaying(s, i);
    HolderActs(s, OnVolumeTimer(s, i), i);
  }

  /** The fallback is played on the same terms. */
  lemma RestartedHolds(n: Notification)
    requires n.playing && n.held.playback && Impl.Sounding(n.order, n.granted, n.held) && n.order.fallbackFile.Some?
    ensures var a := StopRecord(FallingBack(n));
            && PlaySucceeds(a) && HoldsItsEnd(PlayRecord(a)) && HoldsItsEnd(n)
            && PlayRecord(a).status == n.status && PlayRecord(a).policy == n.policy
            && !IsUpgradable(PlayRecord(a)) && !IsUpgradable(n)
  {
    Impl.StopReleasesItsMode(n.order, n.granted, n.held);
  }

  lemma RestartedIs(s: State, i: int)
    requires i in s.notifs && s.notifs[i].playing && PlaySucceeds(StopRecord(FallingBack(s.notifs[i])))
    ensures var r := Restarted(s, i);
            && i in r.notifs && r.notifs[i] == PlayRecord(StopRecord(FallingBack(s.notifs[i])))
            && r.requests == s.requests && r.idleFinishes == s.idleFinishes && SameFrame(s, r)
  {
    hide PlayRecord, PlaySucceeds, StopRecord;
    SilencedStatus(Put(s, i, FallingBack(s.notifs[i])), i);
  }

  lemma RestartActs(s: State, i: int)
    requires Inv(s) && i in s.notifs && s.notifs[i].held.playback
    requires !s.notifs[i].fallback && s.notifs[i].order.fallbackFile.Some?
    ensures OthersAlike(s, Restarted(s, i), i) && Stays(s, Restarted(s, i), i)
  {
    hide Inv, Shape, Restarted, PlayRecord, PlaySucceeds, StopRecord;
    ErrorKeeps(s, i);
    HolderIsPlaying(s, i);
    RestartedHolds(s.notifs[i]);
    RestartedIs(s, i);
    HolderActs(s, Restarted(s, i), i);
  }

  lemma CallbackActs(s: State, e: Event, i: int)
    requires Inv(s) && Enabled(s, e) && (e == PlaybackStarted(i) || e == PlaybackError(i) || e == VolumeTimerFires(i))
    requires FinishTarget(s, e).None?
    ensures i in s.notifs && IsStarted(SliceOf(s, i))
    ensures OthersAlike(s, Step(s, e), i) && Stays(s, Step(s, e), i)
  {
    hide OnStarted, OnVolumeTimer, Restarted, Stays, OthersAlike;
    HolderIsPlaying(s, i);
    match e
    case PlaybackStarted(_) => StartedActs(s, i);
    case PlaybackError(_) => RestartActs(s, i);
    case VolumeTimerFires(_) => VolumeActs(s, i);
  }

  // ---------------------------------------------------------------- beginning

  /** i is about to begin while somebody else owns its class. */
  predicate WillBeRefused(s: State, n: Notification) {
    n.order.UsesPolicy() && n.Class() in s.owner
  }

  lemma BegunFrame(s: State, i: int, policy: bool)
    requires i in s.notifs
    ensures var u := Opened(s, i, policy);
            && u.queue == s.queue && u.idleStarts == s.idleStarts && u.owner == s.owner && u.requests == s.requests
            && i in u.notifs && u.notifs[i] == s.notifs[i].(status := Initialized, policy := if policy then true else s.notifs[i].policy)
  {
  }

  /** i becomes current: it is refused, or it serves the queue, at once or after the reply. */
  ghost predicate Opens(u: State, r: State, i: int, refused: bool) {
    && r.current == Some(i)
    && i in r.notifs
    && if refused then SameLine(u, r) && IsRefused(SliceOf(r, i))
       else !IsRefused(SliceOf(r, i)) && (Advances(u, r) || (SameLine(u, r) && Waits(SliceOf(r, i))))
  }

  lemma PermissionActs(u: State, i: int)
    requires i in u.notifs && PlaceOf(u, i).Started? && i !in u.requests
    requires u.notifs[i].status == Initialized && !u.notifs[i].stopped
    ensures var r := PlayPermission(u, i);
            && i in r.notifs && r.current == u.current
            && if u.notifs[i].Class() in u.owner then SameLine(u, r) && IsRefused(SliceOf(r, i))
               else !IsRefused(SliceOf(r, i)) && (Advances(u, r) || (SameLine(u, r) && Waits(SliceOf(r, i))))
  {
    hide TryNext;
    if u.notifs[i].Class() !in u.owner && !Asynchronous(u.notifs[i].Class()) {
      TryNextActs(Log(u, i, AskPlay), i, u.systemAllowed);
    }
  }

  lemma BeginOpens(s: State, i: int)
    requires i in s.notifs && Unbegun(s, i)
    ensures Opens(s, StartNotification(s, i), i, WillBeRefused(s, s.notifs[i]))
  {
    hide TryNext, InvBut, PlayPermission;
    if s.notifs[i].order.UsesPolicy() {
      BegunFrame(s, i, true);
      PermissionActs(Opened(s, i, true), i);
    } else {
      BegunFrame(s, i, false);
      TryNextActs(Opened(s, i, false), i, true);
    }
  }

  /** u is s with i taken from where it waited, or new. */
  lemma BeginningActs(s: State, u: State, i: int)
    requires Inv(s) && i in u.notifs && Unbegun(u, i) && u.owner == s.owner && !IsStarted(SliceOf(s, i))
    requires forall j {:trigger SliceOf(u, j)} :: j != i ==> SliceOf(u, j) == SliceOf(s, j)
    ensures var r := StartNotification(u, i);
            OthersAlike(s, r, i) && Opens(u, r, i, WillBeRefused(s, u.notifs[i])) && IsStarted(SliceOf(r, i))
  {
    hide StartNotification, SliceOf, InvBut;
    var r := StartNotification(u, i);
    BeginKeeps(u, i);
    BeginsAlike(u, r, i);
    BeginOpens(u, i);
    CurrentStarted(r);
    assert OthersAlike(s, r, i) by {
      forall j | j != i ensures Alike(SliceOf(s, j), SliceOf(r, j)) {
        assert SliceOf(u, j) == SliceOf(s, j);
      }
    }
  }

  lemma CurrentStarted(s: State)
    requires Inv(s) && s.current.Some?
    ensures s.current.value in s.notifs && PlaceOf(s, s.current.value).Started?
    ensures IsStarted(SliceOf(s, s.current.value))
  {
  }

  lemma OwnerStarted(s: State, c: PolicyClass)
    requires Inv(s) && c in s.owner
    ensures s.owner[c] in s.notifs && IsStarted(SliceOf(s, s.owner[c]))
  {
    OwnerIsStarted(s, c);
  }

  lemma DueWaits(s: State, i: int)
    requires Inv(s) && i in s.idleStarts
    ensures !IsStarted(SliceOf(s, i))
  {
  }

  lemma IdleStartActs(s: State, i: int)
    requires Inv(s) && i in s.idleStarts
    ensures i in s.notifs
    ensures var u := s.(idleStarts := s.idleStarts - multiset{i});
            var r := StartNotification(u, i);
            OthersAlike(s, r, i) && Opens(u, r, i, WillBeRefused(s, s.notifs[i])) && IsStarted(SliceOf(r, i))
  {
    hide StartNotification, Opens;
    DueUnbegun(s, i);
    DueWaits(s, i);
    BeginningActs(s, s.(idleStarts := s.idleStarts - multiset{i}), i);
  }

  lemma StartAtOnceActs(s: State, n: Notification)
    requires Inv(s) && n.Fresh()
    ensures var u, i := Admitted(s, n), s.lastId + 1;
            var r := StartNotification(u, i);
            OthersAlike(s, r, i) && Opens(s, r, i, WillBeRefused(s, n)) && IsStarted(SliceOf(r, i))
  {
    hide StartNotification;
    AdmittedUnbegun(s, n);
    BeginningActs(s, Admitted(s, n), s.lastId + 1);
  }

  // ---------------------------------------------------------------- taking from the queue

  lemma FinishDropped(u: State, i: int)
    requires i in u.notifs && Unstarted(u.notifs[i])
    ensures var r := Finish(u, i);
            && r.queue == u.queue && r.idleStarts == u.idleStarts && r.lastId == u.lastId
            && r.current == if u.current == Some(i) then None else u.current
  {
    HaltedFrame(u, i);
    DisposedFrame(Halted(u, i), i);
  }

  /** Fewer wait, and nobody starts, ends or changes. */
  ghost predicate FewerWait(s: State, r: State) {
    && |r.queue| <= |s.queue| && (forall i :: i in r.queue ==> i in s.queue)
    && r.idleStarts == s.idleStarts && r.current == s.current && r.lastId == s.lastId
    && forall j {:trigger SliceOf(r, j)} {:trigger SliceOf(s, j)} :: Alike(SliceOf(s, j), SliceOf(r, j))
  }

  lemma DropFewer(s: State, i: int)
    requires Inv(s) && Consistent(s) && i in s.queue
    ensures i in s.notifs && FewerWait(s, Drop(s, i))
  {
    hide Finish, Inv;
    DropKeeps(s, i);
    DropQueue(s, i);
    FinishDropped(s.(queue := Without(s.queue, i)), i);
    KeepsAlike(s, Drop(s, i), i);
    WithoutIsShorter(s.queue, i);
    assert !IsStarted(SliceOf(s, i)) && !IsStarted(SliceOf(Drop(s, i), i));
  }

  lemma {:induction false} WithoutIsShorter(q: seq<int>, i: int)
    ensures |Without(q, i)| <= |q|
    ensures forall j :: j in Without(q, i) ==> j in q
  {
    if q != [] {
      WithoutIsShorter(q[1..], i);
    }
  }

  lemma FewerTwice(s: State, u: State, r: State)
    requires FewerWait(s, u) && FewerWait(u, r)
    ensures FewerWait(s, r)
  {
    hide SliceOf;
    forall j ensures Alike(SliceOf(s, j), SliceOf(r, j)) {
      assert Alike(SliceOf(s, j), SliceOf(u, j));
    }
  }

  lemma {:induction false} DropAllFewer(s: State, ids: seq<int>)
    requires Inv(s) && Increasing(ids)
    requires forall k :: 0 <= k < |ids| ==> ids[k] in s.queue && ids[k] in s.notifs && Unstarted(s.notifs[ids[k]])
    ensures FewerWait(s, DropAll(s, ids))
    decreases |ids|
  {
    hide Drop, SliceOf, Shape, Inv;
    if ids != [] {
      InvConsistent(s);
      var u := Drop(s, ids[0]);
      DropFewer(s, ids[0]);
      DropKeeps(s, ids[0]);
      DropLeaves(s, ids);
      DropAllFewer(u, ids[1..]);
      FewerTwice(s, u, DropAll(s, ids));
    }
  }

  lemma ByCategoryFewer(s: State, c: Category)
    requires Inv(s) && Consistent(s) && (s.current.Some? ==> s.notifs[s.current.value].Category() != c)
    ensures FewerWait(s, FinishByCategory(s, c))
  {
    hide Drop, DropAll;
    var ids := OfCategory(s, s.queue, c);
    OfCategoryIncreasing(s, s.queue, c);
    forall k | 0 <= k < |ids| ensures ids[k] in s.queue && ids[k] in s.notifs && Unstarted(s.notifs[ids[k]]) {
      assert ids[k] in ids;
    }
    DropAllFewer(s, ids);
  }

  lemma StopsFewer(s: State, e: Event)
    requires Inv(s) && Enabled(s, e) && (e.Stop? || e.SenderGone? || e.CategoryRead?) && FinishTarget(s, e).None?
    ensures FewerWait(s, Step(s, e))
  {
    hide Drop, FinishByCategory;
    InvConsistent(s);
    match e
    case Stop(id) => if id in s.queue { DropFewer(s, id); }
    case SenderGone(sender) =>
      var f := FirstSentBy(s, s.queue, sender);
      if f.Some? { DropFewer(s, f.value); }
    case CategoryRead(c) => ByCategoryFewer(s, c);
  }

  // ---------------------------------------------------------------- steps that finish somebody

  /** The state in which the target is finished. */
  ghost function BeforeFinish(s: State, e: Event): State
    requires Inv(s) && Enabled(s, e) && FinishTarget(s, e).Some?
  {
    Names(s);
    match e
    case Start(n, initialized) => Enqueued(s, n)
    case IdleFinish(i) => IdleTaken(s, i)
    case TimerFires(i) => Put(s, i, s.notifs[i].(held := Impl.TimerFired(s.notifs[i].order, s.notifs[i].held)))
    case VolumeTimerFires(i) => Put(s, i, s.notifs[i].(held := Impl.VolumeStep(s.notifs[i].held).0))
    case _ => s
  }

  /** Before the finish nothing has happened to i but that a timer was cleared, and no more than one newcomer waits. */
  ghost predicate JustBefore(s: State, u: State, i: int, newcomers: seq<int>) {
    && i in s.notifs && PlaceOf(s, i).Started? && i in u.notifs
    && u.notifs[i] == s.notifs[i].(held := u.notifs[i].held)
    && u.owner == s.owner && u.current == s.current && u.idleStarts == s.idleStarts && u.requests == s.requests
    && PlaceOf(u, i).Started?
    && u.queue == s.queue + newcomers
  }

  lemma FinishingStart(s: State, n: Notification, i: int)
    requires Inv(s) && n.Fresh() && s.current == Some(i)
    ensures JustBefore(s, Enqueued(s, n), i, [s.lastId + 1])
  {
    hide Weight;
    Names(s);
    EnqueuedStarted(s, n, i);
  }

  lemma FinishingCallback(s: State, e: Event)
    requires Inv(s) && Enabled(s, e) && FinishTarget(s, e).Some? && !e.Start? && !e.IdleFinish?
    ensures JustBefore(s, BeforeFinish(s, e), FinishTarget(s, e).value, [])
  {
    hide Weight, LifeOf;
    Names(s);
    match e
    case PlaybackSucceeded(i) => HolderIsPlaying(s, i);
    case PlaybackError(i) => HolderIsPlaying(s, i);
    case TimerFires(i) => HolderIsPlaying(s, i);
    case VolumeTimerFires(i) => HolderIsPlaying(s, i);
    case _ =>
  }

  lemma FinishingIs(s: State, e: Event)
    requires Inv(s) && Enabled(s, e) && FinishTarget(s, e).Some?
    ensures FinishTarget(s, e).value in BeforeFinish(s, e).notifs
    ensures Step(s, e) == Finish(BeforeFinish(s, e), FinishTarget(s, e).value)
  {
    hide Finish;
    Names(s);
    if e.Start? {
      StartIs(s, e.n, e.initialized);
    }
  }

  lemma FinishingStep(s: State, e: Event)
    requires Inv(s) && Enabled(s, e) && FinishTarget(s, e).Some?
    ensures var i, u := FinishTarget(s, e).value, BeforeFinish(s, e);
            JustBefore(s, u, i, if e.Start? then [s.lastId + 1] else []) && Step(s, e) == Finish(u, i)
  {
    hide Inv, Step, Finish;
    FinishingIs(s, e);
    match e
    case Start(n, _) => FinishingStart(s, n, s.current.value);
    case IdleFinish(i) => IdleTakenChanges(s, i);
    case _ => FinishingCallback(s, e);
  }

  /** A newcomer that waits neither goes on nor is refused. */
  lemma EnqueuedAlike(s: State, n: Notification, r: State, i: int)
    requires Inv(s) && n.Fresh() && OthersAlike(Enqueued(s, n), r, i)
    ensures OthersAlike(s, r, i)
  {
    hide Inv, SliceOf;
    var u := Enqueued(s, n);
    NewcomerWaits(s, n);
    forall j | j != i ensures Alike(SliceOf(s, j), SliceOf(r, j)) {
      assert Alike(SliceOf(u, j), SliceOf(r, j)) && Alike(SliceOf(s, j), SliceOf(u, j));
    }
  }

  lemma NewcomerWaits(s: State, n: Notification)
    requires Inv(s) && n.Fresh()
    ensures forall j {:trigger SliceOf(s, j)} :: Alike(SliceOf(s, j), SliceOf(Enqueued(s, n), j))
  {
    hide Inv;
    var u, id := Enqueued(s, n), s.lastId + 1;
    EnqueuedKeeps(s, n);
    IdIsNew(s, n);
    forall j ensures Alike(SliceOf(s, j), SliceOf(u, j)) {
      if j != id {
        assert SliceOf(u, j) == SliceOf(s, j);
      }
    }
  }

  lemma IdIsNew(s: State, n: Notification)
    requires Inv(s)
    ensures SliceOf(s, s.lastId + 1).Dead?
    ensures var v := SliceOf(Enqueued(s, n), s.lastId + 1); v.Live? && v.place.Queued?
  {
  }

  lemma StartAlike(s: State, n: Notification)
    requires Inv(s) && n.Fresh() && s.current.Some?
    ensures s.current.value in s.notifs
    ensures OthersAlike(s, Finish(Enqueued(s, n), s.current.value), s.current.value)
  {
    hide Finish, Inv;
    var i, u := s.current.value, Enqueued(s, n);
    CurrentStarted(s);
    EnqueuedKeeps(s, n);
    EnqueuedStarted(s, n, i);
    FinishKeeps(u, i);
    KeepsAlike(u, Finish(u, i), i);
    EnqueuedAlike(s, n, Finish(u, i), i);
  }

  lemma FinishingAlike(s: State, e: Event)
    requires Inv(s) && Enabled(s, e) && FinishTarget(s, e).Some?
    ensures OthersAlike(s, Step(s, e), FinishTarget(s, e).value)
  {
    hide Finish, OnTimer, OnVolumeTimer, SliceOf;
    var i, r := FinishTarget(s, e).value, Step(s, e);
    Names(s);
    match e
    case Start(n, initialized) => StartIs(s, n, initialized); StartAlike(s, n);
    case IdleFinish(_) => IdleFinishKeeps(s, i); KeepsAlike(s, r, i);
    case PlaybackSucceeded(_) => SucceededKeeps(s, i); KeepsAlike(s, r, i);
    case PlaybackError(_) => ErrorKeeps(s, i); KeepsAlike(s, r, i);
    case TimerFires(_) => TimerKeeps(s, i); KeepsAlike(s, r, i);
    case VolumeTimerFires(_) => VolumeTimerKeeps(s, i); KeepsAlike(s, r, i);
    case _ => CurrentStarted(s); FinishKeeps(s, i); KeepsAlike(s, r, i);
  }

  /** Finishing one that waits for a reply, or was refused, or is being stopped, serves nobody. */
  lemma FinishWaits(u: State, i: int)
    requires i in u.notifs && (u.notifs[i].status == Stopped || u.notifs[i].status == Initialized)
    ensures var r := Finish(u, i);
            && SameFrame(u, r) && r.requests == u.requests && r.dequeued == u.dequeued
            && i in r.notifs && r.notifs[i].status == u.notifs[i].status
  {
  }

  lemma AskedWaits(u: State, i: int)
    requires i in u.notifs && PlaceOf(u, i).Started? && Owns(u, i) && Asynchronous(u.notifs[i].Class())
    ensures var r := StopPermission(u, i); SameLine(u, r) && r.current == u.current && Waits(SliceOf(r, i))
  {
  }

  lemma AnsweredServes(u: State, i: int)
    requires i in u.notifs && !Asynchronous(u.notifs[i].Class()) && u.notifs[i].Class() !in u.owner
    ensures var r := StopPermission(u, i);
            i !in r.notifs && Advances(u, r) && r.current == if u.current == Some(i) then None else u.current
  {
    hide Disposed;
    var a := Log(u, i, AskStop);
    DisposedNotifs(a, i);
    DisposedFrame(a, i);
  }

  lemma FinishIs(u: State, i: int)
    requires i in u.notifs && (u.notifs[i].status == Unknown || u.notifs[i].status == Playing)
    ensures Finish(u, i) ==
            if u.notifs[i].policy then StopPermission(Halted(u, i), i) else Disposed(Halted(u, i), i)
  {
    hide StopPermission, Disposed;
    HaltedFrame(u, i);
  }

  /** Whoever is finished while playing is stopped or gone. */
  lemma FinishedIsStopped(u: State, i: int)
    requires i in u.notifs && (u.notifs[i].status == Unknown || u.notifs[i].status == Playing)
    ensures var r := Finish(u, i); i in r.notifs ==> r.notifs[i].status == Stopped
  {
    hide Halted, Disposed, Finish;
    var h := Halted(u, i);
    FinishIs(u, i);
    HaltedFrame(u, i);
    DisposedNotifs(h, i);
    DisposedNotifs(Log(h, i, AskStop), i);
  }

  /** Finishing one that is being played serves the queue, or will when the stop is answered. */
  lemma FinishEnds(u: State, i: int)
    requires SlotReady(u, i) && u.notifs[i].policy && PlaceOf(u, i).Started?
    requires u.notifs[i].status == Unknown || u.notifs[i].status == Playing
    ensures var r := Finish(u, i);
            && (if Asynchronous(u.notifs[i].Class()) then SameLine(u, r) && Waits(SliceOf(r, i)) else Advances(u, r) && i !in r.notifs)
            && (r.current == u.current || (u.current == Some(i) && r.current.None? && i !in r.notifs))
            && !IsRefused(SliceOf(r, i))
  {
    hide Halted, StopPermission, Finish;
    var h := Halted(u, i);
    FinishIs(u, i);
    HaltedFrame(u, i);
    if Asynchronous(u.notifs[i].Class()) {
      AskedWaits(h, i);
    } else {
      AnsweredServes(h, i);
    }
  }

  /** Finishing without a policy drops the current pointer and serves nobody. */
  lemma FinishSilently(u: State, i: int)
    requires i in u.notifs && !u.notifs[i].policy && u.notifs[i].status == Playing
    ensures var r := Finish(u, i);
            && SameLine(u, r) && i !in r.notifs
            && r.current == if u.current == Some(i) then None else u.current
  {
    hide Halted, Disposed, Finish;
    FinishIs(u, i);
    HaltedFrame(u, i);
    DisposedNotifs(Halted(u, i), i);
    DisposedFrame(Halted(u, i), i);
  }

  /** What the target's record says of its policy. */
  lemma TargetIsGood(s: State, i: int)
    requires Inv(s) && i in s.notifs && PlaceOf(s, i).Started?
    ensures var n := s.notifs[i];
            && (n.status == Stopped || n.status == Initialized || n.status == Unknown ==> n.policy)
            && (n.status == Stopped ==> i in s.requests)
            && (n.status == Playing ==> i !in s.requests)
            && (n.status == Unknown ==> s.idleFinishes[i] > 0)
            && (n.status == Initialized || SlotReady(s, i))
  {
    StartedBut(s, i);
    GoodIsSlotReady(s, i);
  }

  /** The three ways in which the finish of a started notification ends; u is s just before it. */
  ghost predicate Ends(s: State, u: State, r: State, i: int)
    requires i in s.notifs
  {
    if IsRefused(SliceOf(s, i)) then SameLine(u, r) && r.current == s.current && IsRefused(SliceOf(r, i))
    else if s.notifs[i].policy then Serving(s, u, r, i)
    else SameLine(u, r) && i !in r.notifs && r.current == if s.current == Some(i) then None else s.current
  }

  lemma TargetEnds(s: State, u: State, i: int)
    requires Inv(s) && i in s.notifs && PlaceOf(s, i).Started? && i in u.notifs && PlaceOf(u, i).Started?
    requires u.notifs[i] == s.notifs[i].(held := u.notifs[i].held)
    requires u.owner == s.owner && u.requests == s.requests && u.current == s.current
    ensures Ends(s, u, Finish(u, i), i)
  {
    hide Finish, Inv;
    TargetIsGood(s, i);
    if s.notifs[i].status == Stopped || s.notifs[i].status == Initialized {
      FinishWaits(u, i);
    } else if s.notifs[i].policy {
      FinishEnds(u, i);
    } else {
      FinishSilently(u, i);
    }
  }

  lemma FinishingActs(s: State, e: Event)
    requires Inv(s) && Enabled(s, e) && FinishTarget(s, e).Some?
    ensures var i := FinishTarget(s, e).value;
            && i in s.notifs && IsStarted(SliceOf(s, i))
            && OthersAlike(s, Step(s, e), i) && Ends(s, BeforeFinish(s, e), Step(s, e), i)
  {
    hide Step, BeforeFinish, FinishTarget, Finish, Ends, OthersAlike, Inv;
    FinishingStep(s, e);
    FinishingAlike(s, e);
    TargetEnds(s, BeforeFinish(s, e), FinishTarget(s, e).value);
  }

  // ---------------------------------------------------------------- what ends a notification

  /** The event ends i: its idle finish, its timer, its success, its second error, its fourth volume step, its stop. */
  predicate Finishes(s: State, e: Event, i: int)
    requires i in s.notifs
  {
    || e == IdleFinish(i) || e == TimerFires(i)
    || (e == PlaybackSucceeded(i) && !s.notifs[i].order.category.Clock?)
    || (e == PlaybackError(i) && s.notifs[i].fallback)
    || (e == VolumeTimerFires(i) && s.notifs[i].held.volumeStep == 3)
    || (e == Event.Stop(i) && s.current == Some(i))
  }

  /** Whoever is ended that way is marked, if its play reply is still to come or it was refused; else it is stopped or gone. */
  lemma FinishersTakeEffect(s: State, e: Event, i: int)
    requires Inv(s) && Enabled(s, e) && i in s.notifs && Finishes(s, e, i)
    ensures var r := Step(s, e);
            i in r.notifs ==> if s.notifs[i].status == Initialized then r.notifs[i].stopped else r.notifs[i].status == Stopped
  {
    hide Step, BeforeFinish, Inv, Enabled, Finish;
    TargetOf(s, e, i);
    FinishingStep(s, e);
    var u := BeforeFinish(s, e);
    if s.notifs[i].status == Unknown || s.notifs[i].status == Playing {
      FinishedIsStopped(u, i);
    } else {
      FinishedIsMarked(u, i);
    }
  }

  lemma TargetOf(s: State, e: Event, i: int)
    requires Inv(s) && Enabled(s, e) && i in s.notifs && Finishes(s, e, i)
    ensures FinishTarget(s, e) == Some(i)
  {
  }

  lemma FinishedIsMarked(u: State, i: int)
    requires i in u.notifs && (u.notifs[i].status == Stopped || u.notifs[i].status == Initialized)
    ensures var r := Finish(u, i);
            && i in r.notifs && r.notifs[i].status == u.notifs[i].status
            && (u.notifs[i].status == Initialized ==> r.notifs[i].stopped)
  {
  }

  /** The volume timer of a clock alarm fires four times, the last time for its end. */
  lemma VolumeStepsAreFour(s: State, i: int)
    requires Inv(s) && Enabled(s, VolumeTimerFires(i)) && s.notifs[i].held.volumeStep < 3
    ensures var r := Step(s, VolumeTimerFires(i));
            && i in r.notifs && r.notifs[i].status == Playing && r.notifs[i].playing
            && r.notifs[i].held.volumeStep == s.notifs[i].held.volumeStep + 1 && r.notifs[i].held.step
  {
    hide Finish;
    HolderIsPlaying(s, i);
  }
}
