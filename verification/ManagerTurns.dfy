/**
 A caller that starts a notification only while nobody waits: notifications then take turns, at most one
 of them started and at most one waiting, none is ever refused, and none is stranded.
 */
module ManagerTurns {
  import opened Wrappers
  import opened Categories
  import opened Lifecycle
  import opened Manager
  import opened ManagerInvariant
  import opened ManagerSteps
  import opened ManagerReplies
  import opened ManagerCallbacks
  import opened ManagerRuns
  import opened ManagerTheorems
  import opened ManagerQueue
  import opened ManagerServing
  import opened ManagerStranding
  import opened ManagerServedRuns

  /** On its way out: cancelled before its reply, or already told to stop. */
  predicate Winding(v: Slice) {
    IsStarted(v) && v.n.status != Playing && (v.n.status == Initialized ==> v.n.stopped)
  }

  /** At most one waits; only the current one is started, and it is winding down if somebody waits. */
  ghost predicate TakesTurns(s: State) {
    && (s.queue == [] || (|s.queue| == 1 && s.idleStarts == multiset{}))
    && |s.idleStarts| <= 1
    && (forall j {:trigger SliceOf(s, j)} :: IsStarted(SliceOf(s, j)) ==> s.current == Some(j))
    && (s.idleStarts != multiset{} ==> s.current.None?)
    && (s.queue != [] && s.current.Some? ==> Winding(SliceOf(s, s.current.value)))
  }

  predicate NobodyWaits(s: State) {
    s.queue == [] && s.idleStarts == multiset{}
  }

  // ---------------------------------------------------------------- what an event can do to the turn

  /** The current one stays, and winds down if it did before. */
  ghost predicate StaysCurrent(s: State, r: State, i: int) {
    && s.current == r.current == Some(i)
    && r.queue == s.queue && r.idleStarts == s.idleStarts
    && (s.queue != [] ==> Winding(SliceOf(r, i)))
  }

  /** The current one is gone; whoever waited is due, or still waits. */
  ghost predicate MakesRoom(s: State, r: State, i: int) {
    && s.current == Some(i) && r.current.None? && i !in r.notifs
    && ((r.queue == s.queue && r.idleStarts == s.idleStarts) ||
        (r.queue == StartNext(s).queue && r.idleStarts == StartNext(s).idleStarts))
  }

  lemma TurnPasses(s: State, r: State, i: int)
    requires TakesTurns(s) && OthersAlike(s, r, i) && (StaysCurrent(s, r, i) || MakesRoom(s, r, i))
    ensures TakesTurns(r)
  {
    forall j | IsStarted(SliceOf(r, j)) ensures r.current == Some(j) {
      if j != i {
        assert Alike(SliceOf(s, j), SliceOf(r, j));
        assert IsStarted(SliceOf(s, j));
      }
    }
  }

  /** Who is told to finish winds down, or is gone. */
  lemma FinishTurn(u: State, i: int)
    requires u.current == Some(i) && i in u.notifs && PlaceOf(u, i).Started?
    requires u.notifs[i].status == Initialized || SlotReady(u, i)
    requires u.notifs[i].status == Playing || u.notifs[i].policy
    ensures var r := Finish(u, i);
            || (r.current == Some(i) && r.queue == u.queue && r.idleStarts == u.idleStarts && Winding(SliceOf(r, i)))
            || MakesRoom(u, r, i)
  {
    hide Finish, Halted, StopPermission, Disposed;
    var n := u.notifs[i];
    if n.status == Stopped || n.status == Initialized {
      FinishWaits(u, i);
      FinishMarks(u, i);
    } else if n.policy {
      FinishIs(u, i);
      HaltedFrame(u, i);
      StopTurn(Halted(u, i), i);
    } else {
      FinishSilently(u, i);
    }
  }

  lemma FinishMarks(u: State, i: int)
    requires i in u.notifs && PlaceOf(u, i).Started? && (u.notifs[i].status == Stopped || u.notifs[i].status == Initialized)
    ensures Winding(SliceOf(Finish(u, i), i))
  {
  }

  lemma StopTurn(h: State, i: int)
    requires h.current == Some(i) && i in h.notifs && PlaceOf(h, i).Started? && h.notifs[i].status == Stopped
    requires h.notifs[i].policy && SlotReady(h, i)
    ensures var r := StopPermission(h, i);
            || (r.current == Some(i) && r.queue == h.queue && r.idleStarts == h.idleStarts && Winding(SliceOf(r, i)))
            || MakesRoom(h, r, i)
  {
    hide Disposed;
    var a := Log(h, i, AskStop);
    DisposedFrame(a, i);
    DisposedNotifs(a, i);
  }

  // ---------------------------------------------------------------- the events

  lemma StartedIsCurrent(s: State, i: int)
    requires TakesTurns(s) && i in s.notifs && PlaceOf(s, i).Started?
    ensures s.current == Some(i)
  {
    assert IsStarted(SliceOf(s, i));
  }

  /** An event, other than a start, that finishes the current one. */
  lemma FinishTakesTurns(s: State, e: Event)
    requires Inv(s) && Enabled(s, e) && TakesTurns(s) && FinishTarget(s, e).Some? && !e.Start?
    ensures TakesTurns(Step(s, e))
  {
    hide Step, FinishTarget, BeforeFinish, Finish, SliceOf, TakesTurns, Inv;
    var i := FinishTarget(s, e).value;
    FinishingStep(s, e);
    FinishingAlike(s, e);
    StartedIsCurrent(s, i);
    TargetTurn(s, BeforeFinish(s, e), i);
    TurnPasses(s, Step(s, e), i);
  }

  lemma TargetTurn(s: State, u: State, i: int)
    requires Inv(s) && s.current == Some(i) && i in s.notifs && PlaceOf(s, i).Started?
    requires i in u.notifs && PlaceOf(u, i).Started? && u.notifs[i] == s.notifs[i].(held := u.notifs[i].held)
    requires u.owner == s.owner && u.current == s.current && u.queue == s.queue && u.idleStarts == s.idleStarts
    ensures StaysCurrent(s, Finish(u, i), i) || MakesRoom(s, Finish(u, i), i)
  {
    hide Finish, Inv;
    TargetIsGood(s, i);
    FinishTurn(u, i);
  }

  lemma NewcomerTurn(s: State, r: State, i: int, q: seq<int>, due: multiset<int>)
    requires TakesTurns(s) && NobodyWaits(s) && s.current == Some(i) && OthersAlike(s, r, i)
    requires r.queue == q && r.idleStarts == due && |q| + |due| == 1
    requires (r.current == Some(i) && due == multiset{} && Winding(SliceOf(r, i))) || (r.current.None? && i !in r.notifs)
    ensures TakesTurns(r)
  {
    forall j | IsStarted(SliceOf(r, j)) ensures r.current == Some(j) {
      if j != i {
        assert Alike(SliceOf(s, j), SliceOf(r, j));
        assert IsStarted(SliceOf(s, j));
      }
    }
  }

  lemma QueueingTakesTurns(s: State, n: Notification)
    requires Inv(s) && n.Fresh() && TakesTurns(s) && NobodyWaits(s) && s.current.Some?
    ensures s.current.value in s.notifs && TakesTurns(Finish(Enqueued(s, n), s.current.value))
  {
    hide Finish, TakesTurns, Inv, SliceOf;
    var i, u := s.current.value, Enqueued(s, n);
    CurrentStarted(s);
    EnqueuedStarted(s, n, i);
    var r := Finish(u, i);
    TargetIsGood(s, i);
    StartAlike(s, n);
    FinishTurn(u, i);
    NewcomerTurn(s, r, i, r.queue, r.idleStarts);
  }

  lemma BeginFrame(u: State, i: int)
    requires i in u.notifs && u.queue == [] && !u.notifs[i].stopped
    ensures var r := StartNotification(u, i); r.queue == [] && r.idleStarts == u.idleStarts
  {
    hide TryNext;
    if u.notifs[i].order.UsesPolicy() {
      var o := Opened(u, i, true);
      BegunFrame(u, i, true);
      TryNextFrame(Log(o, i, AskPlay), i, u.systemAllowed);
    } else {
      TryNextFrame(Opened(u, i, false), i, true);
    }
  }

  lemma FirstTurn(s: State, r: State, i: int)
    requires OthersAlike(s, r, i) && (forall j {:trigger SliceOf(s, j)} :: !IsStarted(SliceOf(s, j)))
    requires r.queue == [] && r.idleStarts == multiset{} && r.current == Some(i)
    ensures TakesTurns(r)
  {
    hide SliceOf;
  }

  lemma NobodyStarted(s: State)
    requires TakesTurns(s) && s.current.None?
    ensures forall j {:trigger SliceOf(s, j)} :: !IsStarted(SliceOf(s, j))
  {
    hide SliceOf;
  }

  lemma StartTakesTurns(s: State, n: Notification, initialized: bool)
    requires Inv(s) && n.Fresh() && TakesTurns(s) && NobodyWaits(s)
    ensures Consistent(s) && TakesTurns(Manager.Start(s, n, initialized).0)
  {
    hide Finish, StartNotification, TakesTurns, SliceOf, Shape;
    InvConsistent(s);
    StartIs(s, n, initialized);
    if Accepts(s, n, initialized) {
      if s.current.Some? {
        QueueingTakesTurns(s, n);
      } else {
        NobodyStarted(s);
        StartAtOnceKeeps(s, n);
        StartAtOnceActs(s, n);
        BeginFrame(Admitted(s, n), s.lastId + 1);
        FirstTurn(s, StartNotification(Admitted(s, n), s.lastId + 1), s.lastId + 1);
      }
    }
  }

  lemma OnlyOneDue(due: multiset<int>, i: int)
    requires i in due && |due| <= 1
    ensures due - multiset{i} == multiset{}
  {
    assert |due - multiset{i}| == |due| - 1;
  }

  lemma IdleStartTakesTurns(s: State, i: int)
    requires Inv(s) && Enabled(s, IdleStart(i)) && TakesTurns(s)
    ensures TakesTurns(Step(s, IdleStart(i)))
  {
    hide StartNotification, SliceOf;
    var u := s.(idleStarts := s.idleStarts - multiset{i});
    OnlyOneDue(s.idleStarts, i);
    NobodyStarted(s);
    IdleStartActs(s, i);
    DueUnbegun(s, i);
    BeginKeeps(u, i);
    BeginFrame(u, i);
    FirstTurn(s, StartNotification(u, i), i);
  }

  lemma ReplyTurn(s: State, i: int, granted: bool)
    requires Inv(s) && TakesTurns(s) && i in s.requests && s.requests[i] == ForPlay && s.current == Some(i)
    ensures i in s.notifs && StaysCurrent(s, OnPlayReply(s, i, granted), i)
  {
    RequestedIsStarted(s, i);
    if s.notifs[i].stopped {
      LateReplyChanges(s, i, granted);
    } else {
      TryNextFrame(s.(requests := s.requests - {i}), i, granted);
    }
  }

  lemma StopReplyTurn(s: State, i: int)
    requires Inv(s) && i in s.requests && s.requests[i] == ForStop && s.current == Some(i)
    ensures i in s.notifs && MakesRoom(s, OnStopReply(s, i), i)
  {
    hide Disposed;
    var u := s.(requests := s.requests - {i}, owner := s.owner - {s.notifs[i].Class()});
    DisposedFrame(u, i);
    DisposedNotifs(u, i);
  }

  lemma AnswerTakesTurns(s: State, e: Event)
    requires Inv(s) && Enabled(s, e) && TakesTurns(s) && (e.PlayReply? || e.StopReply?)
    ensures TakesTurns(Step(s, e))
  {
    hide OnPlayReply, OnStopReply, SliceOf, TakesTurns;
    Names(s);
    RequestedIsStarted(s, e.i);
    StartedIsCurrent(s, e.i);
    match e
    case PlayReply(i, granted) => ReplyActs(s, i, granted); ReplyTurn(s, i, granted); TurnPasses(s, Step(s, e), i);
    case StopReply(i) => StopReplyActs(s, i); StopReplyTurn(s, i); TurnPasses(s, Step(s, e), i);
  }

  lemma CommandTurn(s: State, i: int, w: Wanted)
    requires Inv(s) && TakesTurns(s) && s.current == Some(i) && i in s.notifs && PlaceOf(s, i).Started?
    requires s.notifs[i].policy && Asynchronous(s.notifs[i].Class())
    requires Upgrades(s, i, w) ==> s.notifs[i].status == Playing
    ensures StaysCurrent(s, Command(s, i, w), i)
  {
    hide Command, Inv;
    StartedBut(s, i);
    CommandActs(s, i, w);
  }

  lemma CommandTakesTurns(s: State, c: PolicyClass, w: Wanted)
    requires Inv(s) && Enabled(s, PlaybackCommand(c, w)) && TakesTurns(s)
    ensures TakesTurns(Step(s, PlaybackCommand(c, w)))
  {
    hide Command, Upgrades, TakesTurns, SliceOf;
    Names(s);
    if c in s.owner {
      OwnerIsStarted(s, c);
      StartedIsCurrent(s, s.owner[c]);
      CommandActs(s, s.owner[c], w);
      CommandTurn(s, s.owner[c], w);
      TurnPasses(s, Command(s, s.owner[c], w), s.owner[c]);
    }
  }

  /** Whoever holds a playback or a timer is being played, so nobody waits. */
  lemma HolderTurn(s: State, r: State, i: int)
    requires Inv(s) && TakesTurns(s) && i in s.notifs && (s.notifs[i].held.playback || s.notifs[i].held.step)
    requires SameLine(s, r) && r.current == s.current
    ensures StaysCurrent(s, r, i)
  {
    HolderIsPlaying(s, i);
    StartedIsCurrent(s, i);
  }

  lemma CallbackTakesTurns(s: State, e: Event)
    requires Inv(s) && Enabled(s, e) && TakesTurns(s) && FinishTarget(s, e).None?
    requires e.PlaybackStarted? || e.PlaybackError? || e.VolumeTimerFires?
    ensures TakesTurns(Step(s, e))
  {
    hide SliceOf, TakesTurns, Inv;
    CallbackActs(s, e, e.i);
    HolderTurn(s, Step(s, e), e.i);
    TurnPasses(s, Step(s, e), e.i);
  }

  lemma FewerTakesTurns(s: State, r: State)
    requires TakesTurns(s) && FewerWait(s, r)
    ensures TakesTurns(r)
  {
    hide SliceOf;
    forall j | IsStarted(SliceOf(r, j)) ensures r.current == Some(j) {
      assert Alike(SliceOf(s, j), SliceOf(r, j));
      assert IsStarted(SliceOf(s, j));
    }
  }

  lemma HintTakesTurns(s: State, allowed: bool)
    requires TakesTurns(s)
    ensures TakesTurns(s.(systemAllowed := allowed))
  {
    var r := s.(systemAllowed := allowed);
    assert forall j {:trigger SliceOf(r, j)} :: SliceOf(r, j) == SliceOf(s, j);
  }

  /** Every event, starts only while nobody waits, keeps the turns. */
  lemma StepTakesTurns(s: State, e: Event)
    requires Inv(s) && Enabled(s, e) && TakesTurns(s) && (e.Start? ==> NobodyWaits(s))
    ensures TakesTurns(Step(s, e))
  {
    hide SliceOf, TakesTurns, Inv, StopById, FinishBySender, FinishByCategory;
    if FinishTarget(s, e).Some? && !e.Start? {
      FinishTakesTurns(s, e);
    } else {
      match e
      case Start(n, initialized) => StartTakesTurns(s, n, initialized);
      case SystemHint(allowed) => HintTakesTurns(s, allowed);
      case IdleStart(i) => IdleStartTakesTurns(s, i);
      case PlayReply(_, _) => AnswerTakesTurns(s, e);
      case StopReply(_) => AnswerTakesTurns(s, e);
      case PlaybackCommand(c, w) => CommandTakesTurns(s, c, w);
      case PlaybackStarted(_) => CallbackTakesTurns(s, e);
      case PlaybackError(_) => CallbackTakesTurns(s, e);
      case VolumeTimerFires(_) => CallbackTakesTurns(s, e);
      case PlaybackSucceeded(_) =>
      case Stop(_) => StopsFewer(s, e); FewerTakesTurns(s, Step(s, e));
      case SenderGone(_) => StopsFewer(s, e); FewerTakesTurns(s, Step(s, e));
      case CategoryRead(_) => StopsFewer(s, e); FewerTakesTurns(s, Step(s, e));
    }
  }

  lemma TurnsRefuseNobody(s: State, e: Event)
    requires Inv(s) && Enabled(s, e) && TakesTurns(s)
    ensures !Refuses(s, e)
  {
    hide SliceOf, Inv;
    Names(s);
    if e.IdleStart? && s.notifs[e.i].Class() in s.owner {
      OwnerStarted(s, s.notifs[e.i].Class());
    } else if e.Start? && e.n.Class() in s.owner {
      OwnerStarted(s, e.n.Class());
    }
  }

  // ---------------------------------------------------------------- runs

  /** The caller starts a notification only while nobody waits. */
  ghost predicate PatientStarts(s: State, es: seq<Event>)
    requires Inv(s) && Possible(s, es)
    decreases |es|
  {
    es == [] || ((es[0].Start? ==> NobodyWaits(s)) &&
                 (StepKeepsInv(s, es[0]); PatientStarts(Step(s, es[0]), es[1..])))
  }

  /**
   A caller that starts a notification only while nobody waits never has one refused, and never more
   than one started: it may displace a notification of the same class, as the flags intend.
   */
  lemma {:induction false} PatientStartsAreNotRefused(s: State, es: seq<Event>)
    requires Inv(s) && Possible(s, es) && TakesTurns(s) && PatientStarts(s, es)
    ensures NeverRefuses(s, es) && TakesTurns(Run(s, es))
    decreases |es|
  {
    hide Step, TakesTurns, NobodyWaits, Refuses, Inv, Enabled;
    if es != [] {
      StepKeepsInv(s, es[0]);
      StepTakesTurns(s, es[0]);
      TurnsRefuseNobody(s, es[0]);
      PatientStartsAreNotRefused(Step(s, es[0]), es[1..]);
    }
  }

  lemma EverybodyTakesTurnsAtFirst()
    ensures Inv(INITIAL) && TakesTurns(INITIAL) && OnePerClass(INITIAL) && AllAsk(INITIAL)
    ensures Prompt(INITIAL) && NobodyRefused(INITIAL)
  {
    InitialInv();
  }

  /**
   From the beginning, callers that ask and either wait their turn or start only free classes: whenever
   somebody waits, something is pending that serves the queue; and once nothing is pending, nobody waits,
   and whoever is left was told to play and not to stop.
   */
  lemma CarefulCallersAreServed(es: seq<Event>)
    requires Inv(INITIAL) && Possible(INITIAL, es) && StartsAsk(es)
    requires PatientStarts(INITIAL, es) || FreeStarts(INITIAL, es)
    ensures var r := Run(INITIAL, es);
            && Prompt(r) && Served(r) && NobodyRefused(r)
            && (NothingPending(r) ==>
                  && r.queue == []
                  && forall i :: i in r.notifs ==> r.notifs[i].status == Playing && !r.notifs[i].stopped)
  {
    hide Step, Possible, Run, NeverRefuses, PatientStarts, FreeStarts, TakesTurns, Inv, Prompt, Served, NobodyRefused;
    EverybodyTakesTurnsAtFirst();
    if PatientStarts(INITIAL, es) {
      PatientStartsAreNotRefused(INITIAL, es);
    } else {
      FreeStartsAreNotRefused(INITIAL, es);
    }
    NoStranding(INITIAL, es);
    RunKeepsInv(INITIAL, es);
    var r := Run(INITIAL, es);
    PromptIsServed(r);
    if NothingPending(r) {
      QuietIsEmpty(r);
    }
  }

  /** Where callers wait their turn, a stop by id reaches every notification that was begun. */
  lemma PatientStopsReach(es: seq<Event>, i: int)
    requires Inv(INITIAL) && Possible(INITIAL, es) && PatientStarts(INITIAL, es)
    requires i in Run(INITIAL, es).notifs && PlaceOf(Run(INITIAL, es), i).Started?
    ensures var r := Run(INITIAL, es);
            r.current == Some(i) && Consistent(r) && StopById(r, i) == Finish(r, i)
  {
    hide Step, Possible, Run, NeverRefuses, PatientStarts, TakesTurns, Inv, Finish;
    EverybodyTakesTurnsAtFirst();
    PatientStartsAreNotRefused(INITIAL, es);
    RunKeepsInv(INITIAL, es);
    StartedIsCurrent(Run(INITIAL, es), i);
    InvConsistent(Run(INITIAL, es));
  }
}
