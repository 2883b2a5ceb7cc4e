/**
 What the events of a run say about each notification: with what it was ordered, which sound file and
 volume it plays, and with whose permission.
 */
module ManagerInputs {
  import opened Wrappers
  import opened Categories
  import opened Lifecycle
  import opened Manager
  import opened ManagerInvariant
  import opened ManagerSteps
  import opened ManagerReplies
  import opened ManagerCallbacks
  import opened ManagerRuns
  import opened ManagerTheorems
  import opened ManagerStops
  import opened ManagerServing
  import Impl = Implementations

  // ---------------------------------------------------------------- what an event decides

  /** Messages, system and critical events without sound are played without asking. */
  predicate AsksNobody(o: Order) {
    !o.soundEnabled && !o.category.Ringtone? && !o.category.Clock? && !o.category.Calendar?
  }

  /** The permission with which a notification begins at once; the others wait for a reply. */
  function AtOnce(o: Order, hint: bool): Option<bool> {
    if AsksNobody(o) then Some(true)
    else if o.category.System? || o.category.Critical? then Some(hint)
    else None
  }

  /** What the event decides about the permission of j; hint: what the System class was last told. */
  function Decides(s: State, e: Event, j: int, hint: bool): Option<bool>
    requires j in s.notifs
  {
    match e
    case IdleStart(i) => if i == j then AtOnce(s.notifs[j].order, hint) else None
    case PlayReply(i, granted) => if i == j && !s.notifs[j].stopped then Some(granted) else None
    case PlaybackCommand(c, w) =>
      if c.RingtoneClass? && w.WantPlay? && s.current.Some? && c in s.owner && s.owner[c] == j then Some(true) else None
    case _ => None
  }

  /** The event makes j play its fallback file. */
  predicate FallsBack(s: State, e: Event, j: int)
    requires j in s.notifs
  {
    e == PlaybackError(j) && !s.notifs[j].fallback
  }

  /** A calendar alarm that is played although its sound is off. */
  predicate SilentAlarm(n: Notification) {
    n.order.category.Calendar? && !n.order.soundEnabled && n.granted
  }

  /** b is a after an event that decides this about the permission, and falls back or not. */
  predicate Follows(a: Notification, b: Notification, g: Option<bool>, back: bool) {
    && b.order == a.order
    && b.fallback == (a.fallback || back)
    && b.soundFile == (if back then a.order.fallbackFile else a.soundFile)
    && b.granted == (if g.Some? then g.value else a.granted)
    && b.volume == (if SilentAlarm(b) && (g.Some? || back) then 0 else a.volume)
    && (b.status.Playing? && !a.status.Playing? ==> g.Some?)
  }

  // ---------------------------------------------------------------- the handlers

  lemma SilencedFollows(s: State, i: int)
    requires i in s.notifs
    ensures var r := Silenced(s, i);
            && i in r.notifs && Follows(s.notifs[i], r.notifs[i], None, false)
            && r.notifs[i].status == s.notifs[i].status && r.notifs[i].granted == s.notifs[i].granted
  {
    hide Impl.Stop;
  }

  lemma PlayedFollows(s: State, i: int, cause: Cause)
    requires i in s.notifs
    ensures var r, n := Played(s, i, cause), s.notifs[i];
            && i in r.notifs
            && r.notifs[i] == n.(held := r.notifs[i].held, playing := r.notifs[i].playing,
                                 volume := if SilentAlarm(n) then 0 else n.volume)
  {
  }

  lemma StopPermissionFollows(s: State, i: int)
    requires i in s.notifs
    ensures var r := StopPermission(s, i); i in r.notifs ==> r.notifs[i] == s.notifs[i]
  {
    StopPermissionNotifs(s, i);
  }

  lemma HaltedFollows(s: State, i: int)
    requires i in s.notifs
    ensures var r := Halted(s, i);
            i in r.notifs && Follows(s.notifs[i], r.notifs[i], None, false) && r.notifs[i].status == Stopped
  {
    hide Silenced;
    SilencedFollows(Put(s, i, s.notifs[i].(status := Stopped)), i);
  }

  lemma FinishFollows(s: State, i: int)
    requires i in s.notifs
    ensures var r := Finish(s, i); i in r.notifs ==> Follows(s.notifs[i], r.notifs[i], None, false)
  {
    hide Finish, StopPermission, Disposed, Halted, Follows;
    if s.notifs[i].status == Unknown || s.notifs[i].status == Playing {
      FinishIs(s, i);
      HaltedFollows(s, i);
      StopPermissionFollows(Halted(s, i), i);
      DisposedNotifs(Halted(s, i), i);
    } else {
      MarkedFollows(s, i);
    }
  }

  lemma MarkedFollows(s: State, i: int)
    requires i in s.notifs && (s.notifs[i].status == Stopped || s.notifs[i].status == Initialized)
    ensures var r := Finish(s, i); i in r.notifs ==> Follows(s.notifs[i], r.notifs[i], None, false)
  {
    hide Halted;
  }

  lemma StartNextFollows(s: State)
    ensures StartNext(s).notifs == s.notifs
  {
  }

  lemma TryNextFollows(s: State, i: int, granted: bool)
    requires i in s.notifs
    ensures var r := TryNext(s, i, granted);
            i in r.notifs && Follows(s.notifs[i], r.notifs[i], Some(granted), false) && r.notifs[i].status == Playing
  {
    hide Played, StartNext;
    var u := Put(s, i, s.notifs[i].(status := Playing, granted := granted));
    PlayedFollows(u, i, Reply);
    StartNextFollows(Played(u, i, Reply));
  }

  lemma ReplyFollows(s: State, i: int, granted: bool)
    requires i in s.notifs
    ensures var r := OnPlayReply(s, i, granted);
            i in r.notifs && Follows(s.notifs[i], r.notifs[i], if s.notifs[i].stopped then None else Some(granted), false)
  {
    hide TryNext;
    TryNextFollows(s.(requests := s.requests - {i}), i, granted);
  }

  lemma PermissionFollows(s: State, i: int)
    requires i in s.notifs && !s.notifs[i].stopped && SystemClass !in s.owner && s.notifs[i].status != Playing
    ensures var r, o := PlayPermission(s, i), s.notifs[i].order;
            && i in r.notifs
            && Follows(s.notifs[i], r.notifs[i], if o.category.System? || o.category.Critical? then Some(s.systemAllowed) else None, false)
  {
    hide TryNext;
    TryNextFollows(Log(s, i, AskPlay), i, s.systemAllowed);
  }

  /** A notification that begins is decided at once, or waits. */
  lemma BeginFollows(s: State, i: int)
    requires i in s.notifs && s.notifs[i].Fresh() && SystemClass !in s.owner
    ensures var r := StartNotification(s, i);
            i in r.notifs && Follows(s.notifs[i], r.notifs[i], AtOnce(s.notifs[i].order, s.systemAllowed), false)
  {
    hide TryNext, PlayPermission;
    if AsksNobody(s.notifs[i].order) {
      TryNextFollows(Opened(s, i, false), i, true);
    } else {
      PermissionFollows(Opened(s, i, true), i);
    }
  }

  lemma UpgradedFollows(s: State, i: int)
    requires i in s.notifs && s.notifs[i].status == Playing && s.notifs[i].Category().Ringtone?
    ensures var r := Upgraded(s, i); i in r.notifs && Follows(s.notifs[i], r.notifs[i], Some(true), false)
  {
    hide Silenced, Played;
    SilencedFollows(s, i);
    var u := Silenced(s, i);
    PlayedFollows(Put(u, i, u.notifs[i].(granted := true)), i, Upgrade);
  }

  lemma RestartedFollows(s: State, i: int)
    requires i in s.notifs
    ensures var r := Restarted(s, i); i in r.notifs && Follows(s.notifs[i], r.notifs[i], None, true)
  {
    hide Silenced, Played;
    var u := Put(s, i, FallingBack(s.notifs[i]));
    SilencedFollows(u, i);
    PlayedFollows(Silenced(u, i), i, Fallback);
  }

  // ---------------------------------------------------------------- the others

  /** Whoever is untouched is the same. */
  lemma OthersSame(s: State, r: State, i: int, j: int)
    requires Keeps(s, r, i) && j != i && j in r.notifs
    ensures j in s.notifs && r.notifs[j] == s.notifs[j]
  {
    hide Inv;
    if r != s {
      assert Untouched(SliceOf(s, j), SliceOf(r, j));
    }
  }

  lemma BeginOthersSame(s: State, r: State, i: int, j: int)
    requires Begins(s, r, i) && j != i && j in r.notifs
    ensures j in s.notifs && r.notifs[j] == s.notifs[j]
  {
    hide Inv;
    assert Untouched(SliceOf(s, j), SliceOf(r, j));
  }

  lemma SameFollows(n: Notification)
    ensures Follows(n, n, None, false)
  {
  }

  lemma SystemIsFree(s: State)
    requires Inv(s)
    ensures SystemClass !in s.owner
  {
    if SystemClass in s.owner {
      OwnerIsStarted(s, SystemClass);
    }
  }

  // ---------------------------------------------------------------- one event

  ghost predicate StepFollowsFor(s: State, e: Event, j: int)
    requires Inv(s) && Enabled(s, e)
  {
    var r := Step(s, e);
    j in s.notifs && j in r.notifs ==> Follows(s.notifs[j], r.notifs[j], Decides(s, e, j, s.systemAllowed), FallsBack(s, e, j))
  }

  lemma QueueingFollows(s: State, n: Notification, j: int)
    requires Inv(s) && n.Fresh() && s.current.Some?
    ensures s.current.value in s.notifs
    ensures var r := Finish(Enqueued(s, n), s.current.value);
            && (j in s.notifs && j in r.notifs ==> Follows(s.notifs[j], r.notifs[j], None, false))
            && (s.lastId + 1 in r.notifs ==> r.notifs[s.lastId + 1] == n)
            && (j in r.notifs && j !in s.notifs ==> j == s.lastId + 1)
  {
    hide Finish, Inv;
    var u, i := Enqueued(s, n), s.current.value;
    EnqueuedKeeps(s, n);
    EnqueuedIs(s, n);
    FinishKeeps(u, i);
    FinishFollows(u, i);
    var r := Finish(u, i);
    if j != i && j in r.notifs {
      OthersSame(u, r, i, j);
      if j in s.notifs {
        SameFollows(s.notifs[j]);
      }
    }
    if s.lastId + 1 in r.notifs {
      OthersSame(u, r, i, s.lastId + 1);
    }
  }

  lemma EnqueuedIs(s: State, n: Notification)
    requires Inv(s) && n.Fresh()
    ensures Enqueued(s, n).notifs == s.notifs[s.lastId + 1 := n] && s.lastId + 1 !in s.notifs
    ensures s.current.Some? ==> s.current.value in s.notifs && s.current.value != s.lastId + 1
    ensures s.current.Some? ==> InvBut(Enqueued(s, n), s.current.value) && GoodStarted(SliceOf(Enqueued(s, n), s.current.value))
  {
    EnqueuedKeeps(s, n);
    if s.current.Some? {
      EnqueuedStarted(s, n, s.current.value);
      StartedBut(Enqueued(s, n), s.current.value);
    }
  }

  function BegunAtOnce(s: State, n: Notification): State {
    StartNotification(Admitted(s, n), s.lastId + 1)
  }

  lemma StartAtOnceFollows(s: State, n: Notification, j: int)
    requires Inv(s) && n.Fresh()
    ensures s.lastId + 1 in BegunAtOnce(s, n).notifs
    ensures Follows(n, BegunAtOnce(s, n).notifs[s.lastId + 1], AtOnce(n.order, s.systemAllowed), false)
    ensures j in s.notifs && j in BegunAtOnce(s, n).notifs ==> BegunAtOnce(s, n).notifs[j] == s.notifs[j]
    ensures j in BegunAtOnce(s, n).notifs && j !in s.notifs ==> j == s.lastId + 1
  {
    hide StartNotification, Inv, Follows;
    var u, i := Admitted(s, n), s.lastId + 1;
    AdmittedUnbegun(s, n);
    SystemIsFree(s);
    EnqueuedIs(s, n);
    BeginKeeps(u, i);
    BeginFollows(u, i);
    if j != i && j in StartNotification(u, i).notifs {
      BeginOthersSame(u, StartNotification(u, i), i, j);
    }
  }

  lemma StartFollows(s: State, n: Notification, initialized: bool, j: int)
    requires Inv(s) && Enabled(s, Start(n, initialized))
    ensures StepFollowsFor(s, Start(n, initialized), j)
    ensures var r := Step(s, Start(n, initialized));
            j in r.notifs && j !in s.notifs ==>
              && j == s.lastId + 1
              && Follows(n, r.notifs[j], if s.current.None? then AtOnce(n.order, s.systemAllowed) else None, false)
  {
    hide Finish, StartNotification, Inv;
    Names(s);
    StartIs(s, n, initialized);
    if j in s.notifs {
      SameFollows(s.notifs[j]);
    }
    if Accepts(s, n, initialized) {
      if s.current.Some? {
        QueueingFollows(s, n, j);
        SameFollows(n);
      } else {
        StartAtOnceFollows(s, n, j);
      }
    }
  }

  lemma IdleStartFollows(s: State, i: int, j: int)
    requires Inv(s) && Enabled(s, IdleStart(i))
    ensures StepFollowsFor(s, IdleStart(i), j)
  {
    hide StartNotification, Inv;
    var u := s.(idleStarts := s.idleStarts - multiset{i});
    DueUnbegun(s, i);
    var r := StartNotification(u, i);
    SystemIsFree(s);
    BeginKeeps(u, i);
    BeginFollows(u, i);
    if j != i && j in r.notifs {
      BeginOthersSame(u, r, i, j);
      SameFollows(r.notifs[j]);
    }
  }

  lemma AnswerFollows(s: State, e: Event, j: int)
    requires Inv(s) && Enabled(s, e) && (e.PlayReply? || e.StopReply?)
    ensures StepFollowsFor(s, e, j)
  {
    hide OnPlayReply, OnStopReply, Inv;
    Names(s);
    match e
    case PlayReply(i, granted) =>
      ReplyKeeps(s, i, granted);
      ReplyFollows(s, i, granted);
      if j != i && j in Step(s, e).notifs { OthersSame(s, Step(s, e), i, j); SameFollows(s.notifs[j]); }
    case StopReply(i) =>
      StopReplyKeeps(s, i);
      StopReplyGone(s, i);
      if j != i && j in Step(s, e).notifs { OthersSame(s, Step(s, e), i, j); SameFollows(s.notifs[j]); }
  }

  lemma ReplyKeeps(s: State, i: int, granted: bool)
    requires Inv(s) && i in s.requests && s.requests[i] == ForPlay && i in s.notifs
    ensures Keeps(s, OnPlayReply(s, i, granted), i)
  {
    hide OnPlayReply, Inv;
    if s.notifs[i].stopped {
      LateReplyKeeps(s, i, granted);
    } else {
      PlayReplyKeeps(s, i, granted);
    }
  }

  lemma StopReplyGone(s: State, i: int)
    requires Inv(s) && i in s.requests && i in s.notifs
    ensures i !in OnStopReply(s, i).notifs
  {
    DisposedNotifs(s.(requests := s.requests - {i}, owner := s.owner - {s.notifs[i].Class()}), i);
  }

  lemma CommandFollows(s: State, c: PolicyClass, w: Wanted, j: int)
    requires Inv(s) && Enabled(s, PlaybackCommand(c, w))
    ensures StepFollowsFor(s, PlaybackCommand(c, w), j)
  {
    hide Silenced, Upgraded, Inv, GoodStarted, LifeOf, Shape;
    Names(s);
    if j in s.notifs {
      SameFollows(s.notifs[j]);
    }
    if c in s.owner {
      var i := s.owner[c];
      OwnerIsStarted(s, c);
      SilencedFollows(s, i);
      if Upgrades(s, i, w) {
        UpgradedFollows(s, i);
        UpgradeKeeps(s, i);
        if j != i && j in Upgraded(s, i).notifs { OthersSame(s, Upgraded(s, i), i, j); }
      } else {
        CommandStopKeeps(s, i);
        if j != i && j in Silenced(s, i).notifs { OthersSame(s, Silenced(s, i), i, j); }
        RingtoneOwner(s, c, i);
      }
    }
  }

  /** The slot of the ringtones is owned by a ringtone. */
  lemma RingtoneOwner(s: State, c: PolicyClass, i: int)
    requires Inv(s) && c in s.owner && s.owner[c] == i && i in s.notifs
    ensures c.RingtoneClass? <==> s.notifs[i].order.category.Ringtone?
  {
    OwnerIsStarted(s, c);
  }

  lemma FinishingFollows(s: State, u: State, i: int, j: int)
    requires i in s.notifs && i in u.notifs && u.notifs[i] == s.notifs[i].(held := u.notifs[i].held) && Keeps(s, Finish(u, i), i)
    ensures var r := Finish(u, i);
            j in s.notifs && j in r.notifs ==> Follows(s.notifs[j], r.notifs[j], None, false)
  {
    hide Finish;
    FinishFollows(u, i);
    if j != i && j in Finish(u, i).notifs {
      OthersSame(s, Finish(u, i), i, j);
      SameFollows(s.notifs[j]);
    }
  }

  lemma CallbackFollows(s: State, e: Event, j: int)
    requires Inv(s) && Enabled(s, e)
    requires e.IdleFinish? || e.PlaybackStarted? || e.PlaybackSucceeded? || e.TimerFires? || e.VolumeTimerFires?
    ensures StepFollowsFor(s, e, j)
  {
    hide Finish, Inv;
    if j in s.notifs {
      SameFollows(s.notifs[j]);
    }
    match e
    case IdleFinish(i) => IdleFinishKeeps(s, i); FinishingFollows(s, IdleTaken(s, i), i, j);
    case PlaybackStarted(i) =>
      StartedCallbackKeeps(s, i);
      if j != i && j in Step(s, e).notifs { OthersSame(s, Step(s, e), i, j); }
    case PlaybackSucceeded(i) => if !s.notifs[i].Category().Clock? { SucceededKeeps(s, i); FinishingFollows(s, s, i, j); }
    case TimerFires(i) =>
      TimerKeeps(s, i);
      FinishingFollows(s, Put(s, i, s.notifs[i].(held := Impl.TimerFired(s.notifs[i].order, s.notifs[i].held))), i, j);
    case VolumeTimerFires(i) => VolumeFollows(s, i, j);
  }

  lemma VolumeFollows(s: State, i: int, j: int)
    requires Inv(s) && Enabled(s, VolumeTimerFires(i))
    ensures StepFollowsFor(s, VolumeTimerFires(i), j)
  {
    hide Finish, Inv;
    VolumeTimerKeeps(s, i);
    var (held, done) := Impl.VolumeStep(s.notifs[i].held);
    var u := Put(s, i, s.notifs[i].(held := held));
    if j in s.notifs {
      SameFollows(s.notifs[j]);
    }
    if done {
      FinishingFollows(s, u, i, j);
    } else if j != i && j in u.notifs {
      OthersSame(s, u, i, j);
    }
  }

  lemma ErrorFollows(s: State, i: int, j: int)
    requires Inv(s) && Enabled(s, PlaybackError(i))
    ensures StepFollowsFor(s, PlaybackError(i), j)
  {
    hide Finish, Restarted, Inv;
    ErrorKeeps(s, i);
    var r := Step(s, PlaybackError(i));
    if s.notifs[i].fallback {
      FinishingFollows(s, s, i, j);
    } else {
      RestartedFollows(s, i);
      if j != i && j in r.notifs {
        OthersSame(s, r, i, j);
        SameFollows(s.notifs[j]);
      }
    }
  }

  lemma CurrentFollows(s: State, j: int)
    requires Inv(s) && s.current.Some?
    ensures s.current.value in s.notifs
    ensures var r := Finish(s, s.current.value);
            j in s.notifs && j in r.notifs ==> Follows(s.notifs[j], r.notifs[j], None, false)
  {
    hide Finish, Follows, Inv;
    CurrentIsStarted(s, s.current.value);
    FinishKeeps(s, s.current.value);
    FinishingFollows(s, s, s.current.value, j);
  }

  lemma StopsFollow(s: State, e: Event, j: int)
    requires Inv(s) && Enabled(s, e) && (e.Stop? || e.SenderGone? || e.CategoryRead?)
    ensures StepFollowsFor(s, e, j)
  {
    hide Finish, StopById, FinishBySender, FinishByCategory, Follows, Inv;
    Names(s);
    if j in s.notifs {
      SameFollows(s.notifs[j]);
    }
    match e
    case Stop(id) => StopFollows(s, id, j);
    case SenderGone(sender) => SenderFollows(s, sender, j);
    case CategoryRead(c) => ReadFollows(s, c, j);
  }

  lemma StopFollows(s: State, id: int, j: int)
    requires Inv(s) && Consistent(s)
    ensures var r := StopById(s, id); j in s.notifs && j in r.notifs ==> Follows(s.notifs[j], r.notifs[j], None, false)
  {
    hide Finish, Drop, Follows, Inv;
    StopByIdTakesOne(s, id);
    if j in s.notifs {
      SameFollows(s.notifs[j]);
    }
    if s.current == Some(id) {
      CurrentFollows(s, j);
    }
  }

  lemma SenderFollows(s: State, sender: string, j: int)
    requires Inv(s) && Consistent(s)
    ensures var r := FinishBySender(s, sender); j in s.notifs && j in r.notifs ==> Follows(s.notifs[j], r.notifs[j], None, false)
  {
    hide Finish, Drop, Follows, Inv, SentBy;
    if j in s.notifs {
      SameFollows(s.notifs[j]);
    }
    if s.current.Some? && SentBy(s.notifs[s.current.value], sender) {
      CurrentFollows(s, j);
    } else {
      FinishBySenderTakesFirst(s, sender);
    }
  }

  lemma ReadFollows(s: State, c: Category, j: int)
    requires Inv(s) && Consistent(s)
    ensures var r := FinishByCategory(s, c); j in s.notifs && j in r.notifs ==> Follows(s.notifs[j], r.notifs[j], None, false)
  {
    hide Finish, DropAll, Follows, Inv;
    if j in s.notifs {
      SameFollows(s.notifs[j]);
    }
    if s.current.Some? && s.notifs[s.current.value].Category() == c {
      CurrentFollows(s, j);
    } else {
      FinishByCategoryFilters(s, c);
    }
  }

  /** What one event decides about a notification, and nothing else about it. */
  lemma StepFollows(s: State, e: Event, j: int)
    requires Inv(s) && Enabled(s, e)
    ensures StepFollowsFor(s, e, j)
  {
    hide Step, Inv, Enabled, StepFollowsFor;
    match e
    case Start(n, initialized) => StartFollows(s, n, initialized, j);
    case SystemHint(allowed) => HintFollows(s, allowed, j);
    case IdleStart(i) => IdleStartFollows(s, i, j);
    case PlayReply(_, _) => AnswerFollows(s, e, j);
    case StopReply(_) => AnswerFollows(s, e, j);
    case PlaybackCommand(c, w) => CommandFollows(s, c, w, j);
    case PlaybackError(i) => ErrorFollows(s, i, j);
    case Stop(_) => StopsFollow(s, e, j);
    case SenderGone(_) => StopsFollow(s, e, j);
    case CategoryRead(_) => StopsFollow(s, e, j);
    case _ => CallbackFollows(s, e, j);
  }

  lemma HintFollows(s: State, allowed: bool, j: int)
    requires Inv(s)
    ensures StepFollowsFor(s, SystemHint(allowed), j)
  {
    if j in s.notifs {
      SameFollows(s.notifs[j]);
    }
  }

  // ---------------------------------------------------------------- runs, by their last event

  lemma {:induction false} ButTheLast(s: State, es: seq<Event>)
    requires Inv(s) && Possible(s, es) && es != []
    ensures var before := es[..|es| - 1];
            && Possible(s, before) && Inv(Run(s, before)) && Enabled(Run(s, before), es[|es| - 1])
            && Run(s, es) == Step(Run(s, before), es[|es| - 1])
    decreases |es|
  {
    hide Inv, Enabled, Step;
    var before := es[..|es| - 1];
    StepKeepsInv(s, es[0]);
    if |es| > 1 {
      ButTheLast(Step(s, es[0]), es[1..]);
      assert es[1..][..|es[1..]| - 1] == before[1..];
    } else {
      assert es[1..] == [];
    }
  }

  /** What the System class was told last; nothing is allowed before. */
  function LastHint(es: seq<Event>): bool {
    if es == [] then false
    else if es[|es| - 1].SystemHint? then es[|es| - 1].allowed
    else LastHint(es[..|es| - 1])
  }

  /** The notification that was started and got the id i. */
  ghost function Ordered(es: seq<Event>, i: int): Option<Notification>
    requires Inv(INITIAL) && Possible(INITIAL, es)
  {
    if es == [] then None
    else
      ButTheLast(INITIAL, es);
      var before, e := es[..|es| - 1], es[|es| - 1];
      if e.Start? && i !in Run(INITIAL, before).notifs && i in Run(INITIAL, es).notifs then Some(e.n) else Ordered(before, i)
  }

  /** The permission that the events gave to i last. */
  ghost function Permission(es: seq<Event>, i: int): Option<bool>
    requires Inv(INITIAL) && Possible(INITIAL, es)
  {
    if es == [] then None
    else
      ButTheLast(INITIAL, es);
      var before, e := es[..|es| - 1], es[|es| - 1];
      var s := Run(INITIAL, before);
      var now := if i in s.notifs then Decides(s, e, i, LastHint(before))
                 else if e.Start? && s.current.None? then AtOnce(e.n.order, LastHint(before))
                 else None;
      if now.Some? then now else Permission(before, i)
  }

  lemma HintStep(s: State, e: Event)
    requires Inv(s) && Enabled(s, e)
    ensures Step(s, e).systemAllowed == if e.SystemHint? then e.allowed else s.systemAllowed
  {
    hide Inv, Finish, StartNotification;
    if e.Start? {
      StartHint(s, e.n, e.initialized);
    } else if !e.SystemHint? {
      StepWorks(s, e);
    }
  }

  lemma StartHint(s: State, n: Notification, initialized: bool)
    requires Inv(s) && n.Fresh()
    ensures Consistent(s) && Manager.Start(s, n, initialized).0.systemAllowed == s.systemAllowed
  {
    hide Inv, Finish, StartNotification;
    InvConsistent(s);
    StartIs(s, n, initialized);
    if s.current.Some? {
      EnqueuedKeeps(s, n);
      EnqueuedIs(s, n);
      FinishKeeps(Enqueued(s, n), s.current.value);
    } else {
      AdmittedUnbegun(s, n);
      BeginKeeps(Admitted(s, n), s.lastId + 1);
    }
  }

  lemma {:induction false} HintIsLast(es: seq<Event>)
    requires Inv(INITIAL) && Possible(INITIAL, es)
    ensures Run(INITIAL, es).systemAllowed == LastHint(es)
    decreases |es|
  {
    hide Inv, Step, Enabled;
    if es != [] {
      ButTheLast(INITIAL, es);
      HintIsLast(es[..|es| - 1]);
      HintStep(Run(INITIAL, es[..|es| - 1]), es[|es| - 1]);
    }
  }

  /** Nobody loses a permission: only one that has none yet is refused. */
  lemma DecidedIsNew(s: State, e: Event, j: int, hint: bool)
    requires Inv(s) && Enabled(s, e) && j in s.notifs && Decides(s, e, j, hint) == Some(false)
    ensures !s.notifs[j].granted
  {
    assert GoodSlice(SliceOf(s, j));
  }

  /** Only a start brings a notification. */
  lemma OnlyStartsBring(s: State, e: Event, j: int)
    requires Inv(s) && Enabled(s, e) && !e.Start?
    ensures j in Step(s, e).notifs ==> j in s.notifs
  {
    hide Inv, Step;
    if !IsInput(e) {
      StepWorks(s, e);
      assert Step(s, e) != s ==> SameOrder(s, Step(s, e), j);
    } else {
      HintAddsNobody(s, e);
    }
  }

  lemma HintAddsNobody(s: State, e: Event)
    requires Inv(s) && Enabled(s, e) && e.SystemHint?
    ensures Step(s, e).notifs == s.notifs
  {
  }

  /** What the run says about i, and what its record says. */
  ghost predicate AsTold(es: seq<Event>, i: int)
    requires Inv(INITIAL) && Possible(INITIAL, es) && i in Run(INITIAL, es).notifs
  {
    var n, was := Run(INITIAL, es).notifs[i], Ordered(es, i);
    && was.Some?
    && n.order == was.value.order
    && n.soundFile == (if n.fallback then n.order.fallbackFile else was.value.soundFile)
    && n.volume == (if SilentAlarm(n) then 0 else was.value.volume)
    && (n.status == Playing ==> Permission(es, i) == Some(n.granted))
  }

  lemma {:induction false} EverybodyAsTold(es: seq<Event>, i: int)
    requires Inv(INITIAL) && Possible(INITIAL, es) && i in Run(INITIAL, es).notifs
    ensures AsTold(es, i)
    decreases |es|
  {
    hide Inv, Step, Enabled, Decides;
    if es != [] {
      ButTheLast(INITIAL, es);
      var before, e := es[..|es| - 1], es[|es| - 1];
      var s := Run(INITIAL, before);
      HintIsLast(before);
      if i in s.notifs {
        EverybodyAsTold(before, i);
        StepFollows(s, e, i);
        if Decides(s, e, i, s.systemAllowed) == Some(false) {
          DecidedIsNew(s, e, i, s.systemAllowed);
        }
      } else {
        assert e.Start? by {
          if !e.Start? {
            OnlyStartsBring(s, e, i);
          }
        }
        StartFollows(s, e.n, e.initialized, i);
        FreshIs(s, e);
      }
    }
  }

  lemma FreshIs(s: State, e: Event)
    requires Enabled(s, e) && e.Start?
    ensures e.n.Fresh()
  {
  }

  /**
   After every run, each notification is the one that was started under its id: it plays the sound file it
   was given, or its fallback file after an error, at the volume it was given, or at 0 if it is a calendar
   alarm that was granted with its sound off.
   */
  lemma EverybodyPlaysWhatWasOrdered(es: seq<Event>, i: int)
    requires Inv(INITIAL) && Possible(INITIAL, es) && i in Run(INITIAL, es).notifs
    ensures var n, was := Run(INITIAL, es).notifs[i], Ordered(es, i);
            && was.Some?
            && n.order == was.value.order
            && n.soundFile == (if n.fallback then n.order.fallbackFile else was.value.soundFile)
            && n.volume == (if n.order.category.Calendar? && !n.order.soundEnabled && n.granted then 0 else was.value.volume)
  {
    hide Inv, Run, Possible;
    EverybodyAsTold(es, i);
  }

  /**
   And each plays with the permission that the events gave it: a system or critical event with what the
   System class was told last before it began, the other asking ones with the reply they got, a ringtone
   from an upgrade on with permission, and whoever did not have to ask with permission.
   */
  lemma EverybodyPlaysAsPermitted(es: seq<Event>, i: int)
    requires Inv(INITIAL) && Possible(INITIAL, es) && i in Run(INITIAL, es).notifs
    requires Run(INITIAL, es).notifs[i].status == Playing
    ensures Permission(es, i) == Some(Run(INITIAL, es).notifs[i].granted)
  {
    hide Inv, Run, Possible;
    EverybodyAsTold(es, i);
  }
}
