/**
 What it means to be served: some continuation of the run begins another notification. Without further
 starts that is so exactly when somebody is due, or somebody waits and somebody serves.
 */
module ManagerProgress {
  import opened Wrappers
  import opened Categories
  import opened Lifecycle
  import opened Manager
  import opened ManagerInvariant
  import opened ManagerSteps
  import opened ManagerReplies
  import opened ManagerCallbacks
  import opened ManagerRuns
  import opened ManagerTheorems
  import opened ManagerServing
  import opened ManagerStranding
  import Impl = Implementations

  // ---------------------------------------------------------------- continuations

  /** Ringtones and clock alarms are played again and again. */
  predicate Repeats(c: Category) {
    c.Ringtone? || c.Clock?
  }

  /** A playback that repeats does not succeed. */
  predicate Occurs(s: State, e: Event) {
    e.PlaybackSucceeded? && e.i in s.notifs ==> !Repeats(s.notifs[e.i].Category())
  }

  ghost predicate Occur(s: State, es: seq<Event>)
    requires Inv(s) && Possible(s, es)
    decreases |es|
  {
    es == [] || (Occurs(s, es[0]) && (StepKeepsInv(s, es[0]); Occur(Step(s, es[0]), es[1..])))
  }

  ghost predicate StartsNobody(es: seq<Event>) {
    forall e :: e in es ==> !e.Start?
  }

  /** Not begun: j waits, or is not accepted yet. */
  predicate Outside(s: State, j: int) {
    s.lastId < j || (j in s.notifs && !PlaceOf(s, j).Started?)
  }

  /** The continuation es begins j. */
  ghost predicate Leads(s: State, es: seq<Event>, j: int)
    requires Inv(s)
  {
    Possible(s, es) && Occur(s, es) && Outside(s, j) && IsStarted(SliceOf(Run(s, es), j))
  }

  lemma LeadsAfter(s: State, e: Event, es: seq<Event>, j: int)
    requires Inv(s) && Enabled(s, e) && Occurs(s, e) && Outside(s, j)
    requires Inv(Step(s, e)) && Leads(Step(s, e), es, j)
    ensures Leads(s, [e] + es, j)
  {
    hide Inv, Enabled, Step, Occurs, SliceOf, Outside;
    assert ([e] + es)[0] == e && ([e] + es)[1..] == es;
  }

  lemma LeadsAtOnce(s: State, e: Event, j: int)
    requires Inv(s) && Enabled(s, e) && Occurs(s, e) && Outside(s, j) && IsStarted(SliceOf(Step(s, e), j))
    ensures Leads(s, [e], j)
  {
    hide Inv, Enabled, Step, Occurs, SliceOf, Outside;
    StepKeepsInv(s, e);
    assert [e][0] == e && [e][1..] == [];
    assert Possible(Step(s, e), []) && Occur(Step(s, e), []) && Run(Step(s, e), []) == Step(s, e);
    assert Possible(s, [e]) && Occur(s, [e]);
    assert Run(s, [e]) == Run(Step(s, e), [e][1..]);
  }

  lemma DueBegins(s: State, i: int)
    requires Inv(s) && i in s.idleStarts
    ensures Leads(s, [IdleStart(i)], i)
  {
    hide StartNotification, Opens, OthersAlike;
    IdleStartActs(s, i);
    LeadsAtOnce(s, IdleStart(i), i);
  }

  const CALL := Order(Ringtone, true, false, None, None)

  function Fresh(order: Order): Notification {
    Notification(order, None, 100, Unknown, false, false, false, false, false, NOTHING)
  }

  lemma StartBegins(s: State)
    requires Inv(s) && s.current.None?
    ensures Leads(s, [Event.Start(Fresh(CALL), true)], s.lastId + 1)
  {
    hide StartNotification, Opens, OthersAlike, SliceOf, Inv;
    InvConsistent(s);
    StartIs(s, Fresh(CALL), true);
    StartAtOnceActs(s, Fresh(CALL));
    LeadsAtOnce(s, Event.Start(Fresh(CALL), true), s.lastId + 1);
  }

  /** Whoever is outside after a step of a started notification was outside before. */
  lemma OutsideBefore(s: State, r: State, j: int)
    requires Inv(s) && r.lastId == s.lastId && (SameLine(s, r) || Advances(s, r)) && Outside(r, j)
    ensures Outside(s, j)
  {
  }

  // ---------------------------------------------------------------- a server serves

  /** The event brings the server closer to serving the queue, or serves it. */
  ghost predicate Helps(s: State, e: Event, i: int)
    requires Inv(s)
  {
    && Enabled(s, e) && Occurs(s, e) && !IsInput(e)
    && var r := Step(s, e);
       && r != s
       && (Advances(s, r) || (SameLine(s, r) && r.current == s.current && Server(SliceOf(r, i), i, r.current)))
  }

  lemma FinishHelps(s: State, e: Event, i: int)
    requires Inv(s) && Enabled(s, e) && Occurs(s, e) && FinishTarget(s, e) == Some(i) && !IsInput(e)
    requires i in s.notifs && s.notifs[i].policy && (s.notifs[i].status == Playing || s.notifs[i].status == Unknown)
    ensures Helps(s, e, i)
  {
    hide Step, BeforeFinish, FinishTarget, Inv, Enabled, Finish;
    var u := BeforeFinish(s, e);
    FinishingStep(s, e);
    FinishingActs(s, e);
    FinishedIsStopped(u, i);
    assert u.queue == s.queue + [] == s.queue;
  }

  lemma ReplyHelps(s: State, i: int)
    requires Inv(s) && i in s.requests
    ensures Helps(s, PlayReply(i, false), i) || Helps(s, StopReply(i), i)
  {
    hide OnPlayReply, OnStopReply, Inv;
    RequestedIsStarted(s, i);
    if s.requests[i] == ForPlay {
      ReplyActs(s, i, false);
      ReplyTaken(s, i);
    } else {
      StopReplyActs(s, i);
    }
  }

  lemma ReplyTaken(s: State, i: int)
    requires i in s.notifs && i in s.requests
    ensures i !in OnPlayReply(s, i, false).requests
  {
    var u := s.(requests := s.requests - {i});
    if !s.notifs[i].stopped {
      TryNextRequests(u, i, false);
    }
  }

  lemma TryNextRequests(s: State, i: int, granted: bool)
    requires i in s.notifs
    ensures TryNext(s, i, granted).requests == s.requests
  {
    hide Played;
    PlayedStatus(Put(s, i, s.notifs[i].(status := Playing, granted := granted)), i, Reply);
  }

  lemma IdleFinishHelps(s: State, i: int)
    requires Inv(s) && i in s.notifs && s.idleFinishes[i] > 0 && PlaceOf(s, i).Started? && s.notifs[i].policy
    requires s.notifs[i].status == Playing || s.notifs[i].status == Unknown
    ensures Helps(s, IdleFinish(i), i)
  {
    hide Helps;
    FinishHelps(s, IdleFinish(i), i);
  }

  lemma StopHelps(s: State, i: int)
    requires Inv(s) && s.current == Some(i) && i in s.notifs && s.notifs[i].status == Playing && s.notifs[i].policy
    ensures Helps(s, Event.Stop(i), i)
  {
    hide Helps;
    FinishHelps(s, Event.Stop(i), i);
  }

  lemma TimerHelps(s: State, i: int)
    requires Inv(s) && i in s.notifs && s.notifs[i].held.timer && s.notifs[i].policy && PlaceOf(s, i).Started?
    ensures Helps(s, TimerFires(i), i)
  {
    hide Helps;
    HolderIsPlaying(s, i);
    FinishHelps(s, TimerFires(i), i);
  }

  lemma VolumeHelps(s: State, i: int)
    requires Inv(s) && i in s.notifs && s.notifs[i].held.step && s.notifs[i].policy && PlaceOf(s, i).Started?
    ensures Helps(s, VolumeTimerFires(i), i)
  {
    hide Inv, Finish;
    HolderIsPlaying(s, i);
    if Impl.VolumeStep(s.notifs[i].held).1 {
      FinishHelps(s, VolumeTimerFires(i), i);
    } else {
      VolumeActs(s, i);
      assert OnVolumeTimer(s, i).notifs[i].held.volumeStep == s.notifs[i].held.volumeStep + 1;
    }
  }

  lemma PlaybackHelps(s: State, i: int)
    requires Inv(s) && i in s.notifs && s.notifs[i].held.playback && HoldsItsEnd(s.notifs[i])
    requires s.notifs[i].policy && PlaceOf(s, i).Started? && !s.notifs[i].held.step
    ensures Helps(s, PlaybackSucceeded(i), i) || Helps(s, PlaybackError(i), i) || Helps(s, PlaybackStarted(i), i)
  {
    hide Inv, Finish, Restarted, OnStarted;
    HolderIsPlaying(s, i);
    var n := s.notifs[i];
    if n.Category().Clock? {
      StartedHelps(s, i);
    } else if n.Category().Ringtone? {
      ErrorHelps(s, i);
    } else {
      FinishHelps(s, PlaybackSucceeded(i), i);
    }
  }

  lemma StartedHelps(s: State, i: int)
    requires Inv(s) && i in s.notifs && s.notifs[i].held.playback && HoldsItsEnd(s.notifs[i]) && s.notifs[i].policy
    requires s.notifs[i].Category().Clock? && !s.notifs[i].held.step
    ensures Helps(s, PlaybackStarted(i), i)
  {
    hide Inv;
    HolderIsPlaying(s, i);
    StartedActs(s, i);
    assert OnStarted(s, i).notifs[i].held.announced;
  }

  lemma ErrorHelps(s: State, i: int)
    requires Inv(s) && i in s.notifs && s.notifs[i].held.playback && HoldsItsEnd(s.notifs[i]) && s.notifs[i].policy
    requires MayFail(s.notifs[i])
    ensures Helps(s, PlaybackError(i), i)
  {
    hide Inv, Finish, Restarted;
    HolderIsPlaying(s, i);
    if s.notifs[i].fallback {
      FinishHelps(s, PlaybackError(i), i);
    } else {
      RestartActs(s, i);
      RestartMarks(s, i);
    }
  }

  lemma RestartMarks(s: State, i: int)
    requires i in s.notifs && s.notifs[i].playing && s.notifs[i].held.playback && s.notifs[i].order.fallbackFile.Some?
    requires Impl.Sounding(s.notifs[i].order, s.notifs[i].granted, s.notifs[i].held)
    ensures var r := Restarted(s, i); i in r.notifs && r.notifs[i].fallback
  {
    hide Restarted, PlaySucceeds;
    RestartedHolds(s.notifs[i]);
    RestartedIs(s, i);
  }

  lemma UpgradeHelps(s: State, i: int)
    requires Inv(s) && i in s.notifs && s.notifs[i].status == Playing && s.notifs[i].policy && PlaceOf(s, i).Started?
    requires s.current.Some? && IsUpgradable(s.notifs[i])
    ensures Helps(s, PlaybackCommand(RingtoneClass, WantPlay), i)
  {
    hide Inv, Upgraded;
    StartedBut(s, i);
    UpgradeActs(s, i);
    assert Owns(s, i) by { assert SliceOf(s, i).owns; }
    UpgradedIs(s, i);
    UpgradedHolds(s.notifs[i]);
    assert Step(s, PlaybackCommand(RingtoneClass, WantPlay)) == Upgraded(s, i);
  }

  lemma ServerHelps(s: State, i: int) returns (e: Event)
    requires Inv(s) && Server(SliceOf(s, i), i, s.current)
    ensures Helps(s, e, i)
  {
    hide Helps, Inv, HoldsItsEnd, IsUpgradable;
    var n := s.notifs[i];
    TargetIsGood(s, i);
    if i in s.requests {
      ReplyHelps(s, i);
      e := if Helps(s, PlayReply(i, false), i) then PlayReply(i, false) else StopReply(i);
    } else if n.status == Unknown || s.idleFinishes[i] > 0 {
      IdleFinishHelps(s, i);
      e := IdleFinish(i);
    } else if s.current == Some(i) {
      StopHelps(s, i);
      e := Event.Stop(i);
    } else if HoldsItsEnd(n) {
      e := EndHelps(s, i);
    } else {
      UpgradeHelps(s, i);
      e := PlaybackCommand(RingtoneClass, WantPlay);
    }
  }

  lemma EndHelps(s: State, i: int) returns (e: Event)
    requires Inv(s) && i in s.notifs && HoldsItsEnd(s.notifs[i]) && s.notifs[i].policy && PlaceOf(s, i).Started?
    ensures Helps(s, e, i)
  {
    hide Helps, Inv;
    if s.notifs[i].held.timer {
      TimerHelps(s, i);
      e := TimerFires(i);
    } else if s.notifs[i].held.step {
      VolumeHelps(s, i);
      e := VolumeTimerFires(i);
    } else {
      PlaybackHelps(s, i);
      e := if Helps(s, PlaybackSucceeded(i), i) then PlaybackSucceeded(i)
           else if Helps(s, PlaybackError(i), i) then PlaybackError(i)
           else PlaybackStarted(i);
    }
  }

  /** While somebody waits, a server brings about that somebody begins. */
  lemma {:induction false} ServerLeads(s: State, i: int) returns (es: seq<Event>, j: int)
    requires Inv(s) && s.idleStarts == multiset{} && s.queue != [] && Server(SliceOf(s, i), i, s.current)
    ensures Leads(s, es, j) && StartsNobody(es)
    decreases Measure(s)
  {
    hide Step, Enabled, Occurs, SliceOf, Server, Leads, Inv, Outside, StartNext;
    var e := ServerHelps(s, i);
    var r := Step(s, e);
    StepSettles(s, e);
    StepKeepsLastId(s, e);
    if Advances(s, r) {
      AdvancesServes(s, r);
      DueBegins(r, s.queue[0]);
      es, j := [IdleStart(s.queue[0])], s.queue[0];
      QueuedIsOutside(s);
    } else {
      es, j := ServerLeads(r, i);
      LeadsOutside(r, es, j);
      OutsideBefore(s, r, j);
    }
    LeadsAfter(s, e, es, j);
    es := [e] + es;
  }

  lemma LeadsOutside(s: State, es: seq<Event>, j: int)
    requires Inv(s) && Leads(s, es, j)
    ensures Outside(s, j)
  {
  }

  lemma QueuedIsOutside(s: State)
    requires Inv(s) && s.queue != []
    ensures Outside(s, s.queue[0])
  {
  }

  lemma StepKeepsLastId(s: State, e: Event)
    requires Inv(s) && Enabled(s, e) && !IsInput(e)
    ensures Step(s, e).lastId == s.lastId
  {
    hide Step, Enabled, SliceOf, Inv;
    StepWorks(s, e);
  }

  // ---------------------------------------------------------------- what every other step does

  /** s with the newcomer, if the event brings one, at the end of the queue. */
  function Line(s: State, e: Event): State {
    if e.Start? then s.(queue := s.queue + [s.lastId + 1]) else s
  }

  /** What happens to the started i: it serves, it stays refused, it ends silently, it plays on, it is hushed. */
  ghost predicate Moves(s: State, u: State, r: State, i: int) {
    && i in s.notifs && IsStarted(SliceOf(s, i)) && OthersAlike(s, r, i)
    && (|| (Server(SliceOf(s, i), i, s.current) && Serving(s, u, r, i))
        || (IsRefused(SliceOf(s, i)) && SameLine(u, r) && r.current == s.current && IsRefused(SliceOf(r, i)))
        || (!s.notifs[i].policy && !IsRefused(SliceOf(s, i)) && SameLine(u, r) && i !in r.notifs
            && r.current == if s.current == Some(i) then None else s.current)
        || (Stays(s, r, i) && u == s && s.notifs[i].status == Playing)
        || (Hushes(s, r, i) && u == s))
  }

  /** Whoever is finished, has a policy and was not refused, served the queue. */
  lemma TargetServes(s: State, e: Event, i: int)
    requires Inv(s) && Enabled(s, e) && Occurs(s, e) && FinishTarget(s, e) == Some(i)
    requires i in s.notifs && s.notifs[i].policy && PlaceOf(s, i).Started? && !IsRefused(SliceOf(s, i))
    ensures Server(SliceOf(s, i), i, s.current)
  {
    hide Inv;
    TargetIsGood(s, i);
    match e
    case PlaybackSucceeded(_) => HolderIsPlaying(s, i);
    case PlaybackError(_) => HolderIsPlaying(s, i);
    case TimerFires(_) => HolderIsPlaying(s, i);
    case VolumeTimerFires(_) => HolderIsPlaying(s, i);
    case _ =>
  }

  lemma FinishMoves(s: State, e: Event, i: int)
    requires Inv(s) && Enabled(s, e) && Occurs(s, e) && FinishTarget(s, e) == Some(i)
    ensures Moves(s, Line(s, e), Step(s, e), i)
  {
    hide Step, BeforeFinish, FinishTarget, SliceOf, Inv, Enabled, Finish, Server;
    var u, r := BeforeFinish(s, e), Step(s, e);
    FinishingStep(s, e);
    FinishingActs(s, e);
    assert SameLine(u, Line(s, e)) by { assert s.queue + [] == s.queue; }
    StartedPlace(s, i);
    if !IsRefused(SliceOf(s, i)) && s.notifs[i].policy {
      TargetServes(s, e, i);
      assert Serving(s, Line(s, e), r, i);
    }
  }

  lemma StartedPlace(s: State, i: int)
    requires i in s.notifs && IsStarted(SliceOf(s, i))
    ensures PlaceOf(s, i).Started?
  {
  }

  lemma RequestedServes(s: State, i: int)
    requires Inv(s) && i in s.requests
    ensures i in s.notifs && IsStarted(SliceOf(s, i)) && Server(SliceOf(s, i), i, s.current)
  {
    RequestedIsStarted(s, i);
  }

  lemma CallbackMoves(s: State, e: Event, i: int)
    requires Inv(s) && Enabled(s, e) && (e == PlaybackStarted(i) || e == PlaybackError(i) || e == VolumeTimerFires(i))
    requires FinishTarget(s, e).None?
    ensures Moves(s, s, Step(s, e), i)
  {
    hide Step, SliceOf, Inv, Stays, OthersAlike;
    CallbackActs(s, e, i);
    HolderIsPlaying(s, i);
  }

  lemma CommandMoves(s: State, c: PolicyClass, w: Wanted)
    requires Inv(s) && Enabled(s, PlaybackCommand(c, w))
    ensures var r := Step(s, PlaybackCommand(c, w));
            r == s || (c in s.owner && Moves(s, s, r, s.owner[c]))
  {
    hide Command, Upgrades, SliceOf, Stays, Hushes, OthersAlike;
    Names(s);
    if c in s.owner {
      var i := s.owner[c];
      OwnerIsStarted(s, c);
      OwnerStarted(s, c);
      CommandActs(s, i, w);
    }
  }

  /** Every step but a beginning moves one that is started, or takes some out of the queue, or does nothing. */
  lemma MoveOf(s: State, e: Event) returns (i: Option<int>)
    requires Inv(s) && Enabled(s, e) && Occurs(s, e) && !e.IdleStart? && (e.Start? ==> s.current.Some?)
    ensures if i.None? then FewerWait(s, Step(s, e)) else Moves(s, Line(s, e), Step(s, e), i.value)
  {
    hide OnPlayReply, OnStopReply, SliceOf, Error, OnStarted, OnVolumeTimer, StopById, FinishBySender, FinishByCategory, OnCommand;
    Names(s);
    i := None;
    FewerItself(s);
    if FinishTarget(s, e).Some? {
      i := FinishTarget(s, e);
      FinishMoves(s, e, i.value);
    } else {
      match e
      case Start(n, initialized) => StartIs(s, n, initialized);
      case PlayReply(k, granted) => RequestedServes(s, k); ReplyActs(s, k, granted); i := Some(k);
      case StopReply(k) => RequestedServes(s, k); StopReplyActs(s, k); i := Some(k);
      case PlaybackStarted(k) => CallbackMoves(s, e, k); i := Some(k);
      case PlaybackError(k) => CallbackMoves(s, e, k); i := Some(k);
      case VolumeTimerFires(k) => CallbackMoves(s, e, k); i := Some(k);
      case PlaybackCommand(c, w) => CommandMoves(s, c, w); if Step(s, e) != s { i := Some(s.owner[c]); }
      case SystemHint(allowed) => HintSame(s, allowed);
      case Stop(_) => StopsFewer(s, e);
      case SenderGone(_) => StopsFewer(s, e);
      case CategoryRead(_) => StopsFewer(s, e);
      case PlaybackSucceeded(_) =>
    }
  }

  // ---------------------------------------------------------------- nobody to serve, or nobody to be served

  /** Nobody has started since. */
  ghost predicate NobodyNew(s: State, r: State) {
    forall j {:trigger SliceOf(s, j)} {:trigger SliceOf(r, j)} :: IsStarted(SliceOf(r, j)) ==> IsStarted(SliceOf(s, j))
  }

  /** A refused current notification stays where it is. */
  ghost predicate Holds(s: State, r: State) {
    s.current.Some? && IsRefused(SliceOf(s, s.current.value)) ==>
      r.current == s.current && IsRefused(SliceOf(r, s.current.value))
  }

  lemma MoveHolds(s: State, u: State, r: State, i: int)
    requires Moves(s, u, r, i)
    ensures NobodyNew(s, r) && Holds(s, r)
  {
    if s.current.Some? && s.current != Some(i) {
      assert Alike(SliceOf(s, s.current.value), SliceOf(r, s.current.value));
    }
    forall j | j != i ensures IsStarted(SliceOf(r, j)) ==> IsStarted(SliceOf(s, j)) {
      assert Alike(SliceOf(s, j), SliceOf(r, j));
    }
  }

  lemma FewerHolds(s: State, r: State)
    requires FewerWait(s, r)
    ensures NobodyNew(s, r) && Holds(s, r)
  {
    hide SliceOf;
    forall j ensures IsStarted(SliceOf(r, j)) ==> IsStarted(SliceOf(s, j)) {
      assert Alike(SliceOf(s, j), SliceOf(r, j));
    }
  }

  /** Where nobody serves, nobody will, and nobody is due, unless a start begins at once or ends the current one. */
  lemma NobodyServesStep(s: State, e: Event)
    requires Inv(s) && Enabled(s, e) && Occurs(s, e) && s.idleStarts == multiset{} && !SomeoneServes(s)
    requires e.Start? ==> s.current.Some? && IsRefused(SliceOf(s, s.current.value))
    ensures var r := Step(s, e);
            r.idleStarts == multiset{} && !SomeoneServes(r) && NobodyNew(s, r) && Holds(s, r)
  {
    hide Step, SliceOf, Inv, Enabled, Moves, FewerWait, Holds, NobodyNew, SomeoneServes;
    assert !e.IdleStart? by { DueIsThere(s, e); }
    var i := MoveOf(s, e);
    if i.None? {
      FewerServed(s, Step(s, e));
      FewerHolds(s, Step(s, e));
      FewerDue(s, Step(s, e));
    } else {
      MoveHolds(s, Line(s, e), Step(s, e), i.value);
      MoveServesNobody(s, Line(s, e), Step(s, e), i.value);
    }
  }

  lemma DueIsThere(s: State, e: Event)
    requires Enabled(s, e) && s.idleStarts == multiset{}
    ensures !e.IdleStart?
  {
  }

  lemma FewerDue(s: State, r: State)
    requires FewerWait(s, r)
    ensures r.idleStarts == s.idleStarts && r.current == s.current && (s.queue == [] ==> r.queue == [])
  {
    hide SliceOf;
  }

  lemma MoveServesNobody(s: State, u: State, r: State, i: int)
    requires Moves(s, u, r, i) && u.idleStarts == s.idleStarts == multiset{} && !SomeoneServes(s)
    ensures r.idleStarts == multiset{} && !SomeoneServes(r)
  {
    WhoServes(s, s, i);
    WhoServes(s, r, i);
    LosingThePointer(s, i, r.current);
  }

  /** Who does not serve does not do so without a current notification either. */
  lemma LosingThePointer(s: State, i: int, current: Option<int>)
    requires !OthersServe(s, i, s.current) && (current == s.current || current.None?)
    ensures !OthersServe(s, i, current)
  {
    hide SliceOf;
    forall j | j != i ensures Server(SliceOf(s, j), j, current) ==> Server(SliceOf(s, j), j, s.current) {
    }
  }

  /** Where nobody waits and nobody is due, nobody will, unless a start is accepted. */
  lemma EmptyStep(s: State, e: Event)
    requires Inv(s) && Enabled(s, e) && Occurs(s, e) && s.idleStarts == multiset{} && s.queue == []
    requires e.Start? ==> Step(s, e) == s
    ensures var r := Step(s, e);
            r.idleStarts == multiset{} && r.queue == [] && NobodyNew(s, r) && Holds(s, r)
  {
    hide Step, SliceOf, Inv, Enabled, Moves, FewerWait, OthersAlike, Holds, NobodyNew;
    if e.Start? {
      FewerItself(s);
      FewerHolds(s, s);
    } else {
      assert !e.IdleStart? by { DueIsThere(s, e); }
      var i := MoveOf(s, e);
      if i.None? {
        FewerHolds(s, Step(s, e));
        FewerDue(s, Step(s, e));
      } else {
        MoveHolds(s, s, Step(s, e), i.value);
        MoveKeepsEmpty(s, Step(s, e), i.value);
      }
    }
  }

  lemma MoveKeepsEmpty(s: State, r: State, i: int)
    requires Moves(s, s, r, i) && s.idleStarts == multiset{} && s.queue == []
    ensures r.idleStarts == multiset{} && r.queue == []
  {
    hide SliceOf;
  }

  lemma NobodyNewTwice(s: State, u: State, r: State)
    requires NobodyNew(s, u) && NobodyNew(u, r)
    ensures NobodyNew(s, r)
  {
    hide SliceOf;
    forall j ensures IsStarted(SliceOf(r, j)) ==> IsStarted(SliceOf(s, j)) {
      assert IsStarted(SliceOf(r, j)) ==> IsStarted(SliceOf(u, j));
    }
  }

  // ---------------------------------------------------------------- what it means to be served

  /** Nobody is due, and nobody waits or nobody serves. */
  ghost predicate Idle(s: State) {
    s.idleStarts == multiset{} && (s.queue == [] || !SomeoneServes(s))
  }

  lemma {:induction false} IdleRun(s: State, es: seq<Event>)
    requires Inv(s) && Possible(s, es) && Occur(s, es) && StartsNobody(es) && Idle(s)
    ensures NobodyNew(s, Run(s, es))
    decreases |es|
  {
    hide Step, Inv, Enabled, Occurs, SliceOf, SomeoneServes, Holds;
    if es != [] {
      var e := es[0];
      assert e in es;
      if s.queue == [] {
        EmptyStep(s, e);
      } else {
        NobodyServesStep(s, e);
      }
      StepKeepsInv(s, e);
      assert forall f :: f in es[1..] ==> f in es;
      IdleRun(Step(s, e), es[1..]);
      NobodyNewTwice(s, Step(s, e), Run(s, es));
    } else {
      FewerItself(s);
      FewerHolds(s, s);
    }
  }

  lemma OutsideIsNotStarted(s: State, j: int)
    requires Inv(s) && Outside(s, j)
    ensures !IsStarted(SliceOf(s, j))
  {
  }

  /** Without a new start, another notification can begin exactly if the queue is not empty and is served, or somebody is due. */
  lemma ServedCanBegin(s: State)
    requires Inv(s)
    ensures (exists es, j :: Leads(s, es, j) && StartsNobody(es))
            <==> s.idleStarts != multiset{} || (s.queue != [] && SomeoneServes(s))
  {
    hide Inv, Leads, SliceOf, Server;
    if s.idleStarts != multiset{} {
      var h := SomeoneDue(s.idleStarts);
      DueBegins(s, h);
      assert Leads(s, [IdleStart(h)], h) && StartsNobody([IdleStart(h)]);
    } else if s.queue != [] && SomeoneServes(s) {
      var i :| Server(SliceOf(s, i), i, s.current);
      var es, j := ServerLeads(s, i);
    } else {
      forall es, j ensures !(Leads(s, es, j) && StartsNobody(es)) {
        if Leads(s, es, j) && StartsNobody(es) {
          IdleNeverLeads(s, es, j);
        }
      }
    }
  }

  lemma NobodyDue(due: multiset<int>)
    requires forall k :: due[k] == 0
    ensures due == multiset{}
  {
    var none: multiset<int> := multiset{};
    assert forall k :: due[k] == none[k];
  }

  lemma SomeoneDue(due: multiset<int>) returns (h: int)
    requires due != multiset{}
    ensures h in due
  {
    if forall k :: due[k] == 0 {
      NobodyDue(due);
    }
    h :| h in due;
  }

  lemma IdleNeverLeads(s: State, es: seq<Event>, j: int)
    requires Inv(s) && Idle(s) && StartsNobody(es)
    ensures !Leads(s, es, j)
  {
    hide Inv, SliceOf, Outside, Possible, Occur;
    if Leads(s, es, j) {
      IdleRun(s, es);
      OutsideIsNotStarted(s, j);
    }
  }
}
