/**
 Runs whose queue is always served, and the conditions a caller can check for that: newcomers that ask
 for permission, and never two live notifications of one class. What waits then goes by replies and idle
 callbacks alone: once none is pending, nobody waits.
 */
module ManagerServedRuns {
  import opened Wrappers
  import opened Categories
  import opened Manager
  import opened ManagerInvariant
  import opened ManagerSteps
  import opened ManagerReplies
  import opened ManagerCallbacks
  import opened ManagerRuns
  import opened ManagerTheorems
  import opened ManagerQueue
  import opened ManagerServing
  import opened ManagerStranding

  // ---------------------------------------------------------------- everybody asks

  ghost predicate AllAsk(s: State) {
    forall i {:trigger i in s.notifs} :: i in s.notifs ==> s.notifs[i].order.UsesPolicy()
  }

  lemma AllAskLasts(s: State, r: State)
    requires Works(s, r) && AllAsk(s)
    ensures AllAsk(r)
  {
    if r != s {
      forall i | i in r.notifs ensures r.notifs[i].order.UsesPolicy() {
        assert SameOrder(s, r, i);
      }
    }
  }

  lemma QueueingAsks(s: State, n: Notification, i: int)
    requires Inv(s) && n.Fresh() && s.current == Some(i) && AllAsk(s) && n.order.UsesPolicy()
    ensures i in s.notifs && AllAsk(Finish(Enqueued(s, n), i))
  {
    var u := Enqueued(s, n);
    EnqueuedKeeps(s, n);
    EnqueuedStarted(s, n, i);
    FinishKeeps(u, i);
    KeepsWorks(u, Finish(u, i), i);
    AllAskLasts(u, Finish(u, i));
  }

  lemma BeginningAsks(s: State, n: Notification)
    requires Inv(s) && n.Fresh() && AllAsk(s) && n.order.UsesPolicy()
    ensures AllAsk(StartNotification(Admitted(s, n), s.lastId + 1))
  {
    var u, id := Admitted(s, n), s.lastId + 1;
    AdmittedUnbegun(s, n);
    BeginKeeps(u, id);
    BegunAsks(u, StartNotification(u, id), id);
  }

  lemma BegunAsks(u: State, r: State, i: int)
    requires Begins(u, r, i) && AllAsk(u)
    ensures AllAsk(r)
  {
    forall j | j in r.notifs ensures r.notifs[j].order.UsesPolicy() {
      if j != i {
        assert Untouched(SliceOf(u, j), SliceOf(r, j));
      }
    }
  }

  lemma StepAsks(s: State, e: Event)
    requires Inv(s) && Enabled(s, e) && AllAsk(s) && (e.Start? ==> e.n.order.UsesPolicy())
    ensures AllAsk(Step(s, e))
  {
    Names(s);
    if e.Start? {
      StartIs(s, e.n, e.initialized);
      if Accepts(s, e.n, e.initialized) {
        if s.current.Some? {
          QueueingAsks(s, e.n, s.current.value);
        } else {
          BeginningAsks(s, e.n);
        }
      }
    } else if !e.SystemHint? {
      StepWorks(s, e);
      AllAskLasts(s, Step(s, e));
    }
  }

  // ---------------------------------------------------------------- runs without refusals

  ghost predicate StartsAsk(es: seq<Event>) {
    forall e :: e in es && e.Start? ==> e.n.order.UsesPolicy()
  }

  /** No step of the run begins a notification whose class has an owner. */
  ghost predicate NeverRefuses(s: State, es: seq<Event>)
    requires Inv(s) && Possible(s, es)
    decreases |es|
  {
    es == [] || (!Refuses(s, es[0]) && (StepKeepsInv(s, es[0]); NeverRefuses(Step(s, es[0]), es[1..])))
  }

  lemma ServingPrompt(s: State, u: State, r: State, i: int)
    requires Serving(s, u, r, i)
    ensures Prompt(r)
  {
    hide SliceOf, StartNext;
    if Advances(u, r) {
      AdvancesServes(u, r);
    } else {
      assert Waits(SliceOf(r, i));
    }
  }

  lemma OpensPrompt(u: State, r: State, i: int)
    requires Opens(u, r, i, false)
    ensures Prompt(r)
  {
    hide SliceOf, StartNext;
    if Advances(u, r) {
      AdvancesServes(u, r);
    } else {
      assert Waits(SliceOf(r, i));
    }
  }

  /** Somebody who plays on, or is hushed, was not the one that the others wait for. */
  lemma PlayingPrompt(s: State, r: State, i: int)
    requires OthersAlike(s, r, i) && SameLine(s, r) && Prompt(s) && !Waits(SliceOf(s, i))
    ensures Prompt(r)
  {
    hide SliceOf;
    if s.queue != [] && s.idleStarts == multiset{} {
      var j :| Waits(SliceOf(s, j));
      assert SliceOf(r, j) == SliceOf(s, j);
    }
  }

  lemma FewerPrompt(s: State, r: State)
    requires FewerWait(s, r) && Prompt(s)
    ensures Prompt(r)
  {
    hide SliceOf;
    if r.queue != [] && s.idleStarts == multiset{} {
      var j :| Waits(SliceOf(s, j));
      assert SliceOf(r, j) == SliceOf(s, j);
    }
  }

  lemma PlayingDoesNotWait(s: State, i: int)
    requires Inv(s) && i in s.notifs && PlaceOf(s, i).Started? && s.notifs[i].status == Playing
    ensures !Waits(SliceOf(s, i))
  {
    TargetIsGood(s, i);
  }

  lemma FinishingPrompt(s: State, e: Event)
    requires Inv(s) && Enabled(s, e) && AllAsk(s) && NobodyRefused(s) && FinishTarget(s, e).Some?
    ensures Prompt(Step(s, e))
  {
    hide Step, BeforeFinish, FinishTarget, SliceOf, Serving, Inv;
    var i := FinishTarget(s, e).value;
    FinishingActs(s, e);
    AskersHavePolicies(s, i);
    assert !IsRefused(SliceOf(s, i));
    ServingPrompt(s, BeforeFinish(s, e), Step(s, e), i);
  }

  lemma AskersHavePolicies(s: State, i: int)
    requires Inv(s) && AllAsk(s) && i in s.notifs && IsStarted(SliceOf(s, i))
    ensures s.notifs[i].policy
  {
    StartedBut(s, i);
  }

  lemma BeginningPrompt(s: State, e: Event)
    requires Inv(s) && Enabled(s, e) && FinishTarget(s, e).None? && (e.Start? || e.IdleStart?)
    requires Prompt(s) && !Refuses(s, e)
    ensures Prompt(Step(s, e))
  {
    hide StartNotification, SliceOf, Prompt, Opens;
    Names(s);
    match e
    case IdleStart(i) =>
      IdleStartActs(s, i);
      OpensPrompt(s.(idleStarts := s.idleStarts - multiset{i}), Step(s, e), i);
    case Start(n, initialized) =>
      StartIs(s, n, initialized);
      if Accepts(s, n, initialized) {
        StartAtOnceActs(s, n);
        OpensPrompt(s, Step(s, e), s.lastId + 1);
      }
  }

  lemma CallbackPrompt(s: State, e: Event, i: int)
    requires Inv(s) && Enabled(s, e) && (e == PlaybackStarted(i) || e == PlaybackError(i) || e == VolumeTimerFires(i))
    requires FinishTarget(s, e).None? && Prompt(s)
    ensures Prompt(Step(s, e))
  {
    hide Step, SliceOf, Inv, OthersAlike;
    CallbackActs(s, e, i);
    HolderIsPlaying(s, i);
    PlayingDoesNotWait(s, i);
    PlayingPrompt(s, Step(s, e), i);
  }

  lemma CommandPrompt(s: State, c: PolicyClass, w: Wanted)
    requires Inv(s) && Enabled(s, PlaybackCommand(c, w)) && Prompt(s)
    ensures Prompt(Step(s, PlaybackCommand(c, w)))
  {
    hide Command, SliceOf, Prompt, OthersAlike;
    Names(s);
    if c in s.owner {
      var i := s.owner[c];
      OwnerIsStarted(s, c);
      CommandActs(s, i, w);
      if Command(s, i, w) != s {
        if Upgrades(s, i, w) {
          PlayingDoesNotWait(s, i);
        } else {
          HushedDoesNotWait(s, Command(s, i, w), i);
        }
        PlayingPrompt(s, Command(s, i, w), i);
      }
    }
  }

  lemma HushedDoesNotWait(s: State, r: State, i: int)
    requires Inv(s) && Hushes(s, r, i)
    ensures !Waits(SliceOf(s, i))
  {
    TargetIsGood(s, i);
  }

  lemma OthersPrompt(s: State, e: Event)
    requires Inv(s) && Enabled(s, e) && FinishTarget(s, e).None? && Prompt(s)
    requires !e.Start? && !e.IdleStart?
    ensures Prompt(Step(s, e))
  {
    hide OnPlayReply, OnStopReply, SliceOf, Error, OnStarted, OnVolumeTimer, StopById, FinishBySender, FinishByCategory, OnCommand, Prompt;
    Names(s);
    match e
    case PlayReply(i, granted) => ReplyActs(s, i, granted); ServingPrompt(s, s, Step(s, e), i);
    case StopReply(i) => StopReplyActs(s, i); ServingPrompt(s, s, Step(s, e), i);
    case PlaybackStarted(i) => CallbackPrompt(s, e, i);
    case PlaybackError(i) => CallbackPrompt(s, e, i);
    case VolumeTimerFires(i) => CallbackPrompt(s, e, i);
    case PlaybackCommand(c, w) => CommandPrompt(s, c, w);
    case SystemHint(allowed) => HintSame(s, allowed); FewerPrompt(s, Step(s, e));
    case Stop(_) => StopsFewer(s, e); FewerPrompt(s, Step(s, e));
    case SenderGone(_) => StopsFewer(s, e); FewerPrompt(s, Step(s, e));
    case CategoryRead(_) => StopsFewer(s, e); FewerPrompt(s, Step(s, e));
    case PlaybackSucceeded(_) =>
  }

  lemma AskingStepIsPrompt(s: State, e: Event)
    requires Inv(s) && Enabled(s, e) && AllAsk(s) && Prompt(s) && NobodyRefused(s) && !Refuses(s, e)
    ensures Prompt(Step(s, e)) && NobodyRefused(Step(s, e))
  {
    hide Step, Prompt, SliceOf, Refuses, AllAsk, NobodyRefused, FinishTarget;
    NobodyNewlyRefused(s, e);
    if FinishTarget(s, e).Some? {
      FinishingPrompt(s, e);
    } else if e.Start? || e.IdleStart? {
      BeginningPrompt(s, e);
    } else {
      OthersPrompt(s, e);
    }
  }

  /**
   In a run in which every newcomer asks and nobody is refused, whenever somebody waits, somebody is due or
   a reply or an idle finish is pending that brings it about.
   */
  lemma {:induction false} NoStranding(s: State, es: seq<Event>)
    requires Inv(s) && Possible(s, es) && AllAsk(s) && Prompt(s) && NobodyRefused(s)
    requires StartsAsk(es) && NeverRefuses(s, es)
    ensures Prompt(Run(s, es)) && NobodyRefused(Run(s, es)) && AllAsk(Run(s, es))
    decreases |es|
  {
    hide Step, Prompt, NobodyRefused, AllAsk, Refuses, Inv, Enabled;
    if es != [] {
      var e := es[0];
      assert e in es;
      StepKeepsInv(s, e);
      StepAsks(s, e);
      AskingStepIsPrompt(s, e);
      assert forall f :: f in es[1..] ==> f in es;
      NoStranding(Step(s, e), es[1..]);
    }
  }

  /** Nothing that was asked or scheduled is outstanding. */
  predicate NothingPending(s: State) {
    s.requests == map[] && s.idleStarts == multiset{} && s.idleFinishes == multiset{}
  }

  /** So once nothing is pending, the queue is empty, and whoever is left was told to play and not to stop. */
  lemma QuietIsEmpty(s: State)
    requires Inv(s) && Prompt(s) && NobodyRefused(s) && NothingPending(s)
    ensures s.queue == []
    ensures forall i :: i in s.notifs ==> s.notifs[i].status == Playing && !s.notifs[i].stopped && PlaceOf(s, i).Started?
  {
    hide SliceOf;
    forall i ensures !Waits(SliceOf(s, i)) {
      PendingIsNothing(s, i);
    }
    forall i | i in s.notifs ensures s.notifs[i].status == Playing && !s.notifs[i].stopped && PlaceOf(s, i).Started? {
      PendingIsNothing(s, i);
      assert !IsRefused(SliceOf(s, i));
    }
  }

  lemma PendingIsNothing(s: State, i: int)
    requires Inv(s) && NothingPending(s)
    ensures !Waits(SliceOf(s, i))
    ensures i in s.notifs && s.queue == [] && !IsRefused(SliceOf(s, i)) ==>
              s.notifs[i].status == Playing && !s.notifs[i].stopped && PlaceOf(s, i).Started?
  {
    if i in s.notifs {
      assert GoodSlice(SliceOf(s, i));
    }
  }

  // ---------------------------------------------------------------- one live notification per class

  ghost predicate OnePerClass(s: State) {
    forall i, j :: i in s.notifs && j in s.notifs && i != j && Asynchronous(s.notifs[i].Class()) ==>
      s.notifs[i].Class() != s.notifs[j].Class()
  }

  /** No accepted notification of the class is left; the System class has no slot to fight for. */
  ghost predicate ClassIsFree(s: State, c: PolicyClass) {
    Asynchronous(c) ==> forall i :: i in s.notifs ==> s.notifs[i].Class() != c
  }

  /** The caller starts a notification only when its class is free. */
  ghost predicate FreeStarts(s: State, es: seq<Event>)
    requires Inv(s) && Possible(s, es)
    decreases |es|
  {
    es == [] || ((es[0].Start? ==> ClassIsFree(s, es[0].n.Class())) &&
                 (StepKeepsInv(s, es[0]); FreeStarts(Step(s, es[0]), es[1..])))
  }

  lemma OnePerClassLasts(u: State, r: State)
    requires OnePerClass(u) && SameOrders(u, r)
    ensures OnePerClass(r)
  {
    forall i, j | i in r.notifs && j in r.notifs && i != j && Asynchronous(r.notifs[i].Class())
      ensures r.notifs[i].Class() != r.notifs[j].Class()
    {
      assert SameOrder(u, r, i) && SameOrder(u, r, j);
    }
  }

  lemma AdmittedOnePerClass(s: State, n: Notification)
    requires OnePerClass(s) && ClassIsFree(s, n.Class())
    ensures OnePerClass(Admitted(s, n)) && OnePerClass(Enqueued(s, n))
  {
  }

  lemma BegunSameOrders(u: State, r: State, i: int)
    requires Begins(u, r, i)
    ensures SameOrders(u, r)
  {
    hide Inv;
    forall j ensures SameOrder(u, r, j) {
      if j != i {
        assert Untouched(SliceOf(u, j), SliceOf(r, j));
      }
    }
  }

  lemma StartOnePerClass(s: State, n: Notification, initialized: bool)
    requires Inv(s) && n.Fresh() && OnePerClass(s) && ClassIsFree(s, n.Class())
    ensures Consistent(s) && OnePerClass(Manager.Start(s, n, initialized).0)
  {
    hide Finish, StartNotification, OnePerClass;
    InvConsistent(s);
    StartIs(s, n, initialized);
    AdmittedOnePerClass(s, n);
    if Accepts(s, n, initialized) {
      if s.current.Some? {
        var u, i := Enqueued(s, n), s.current.value;
        EnqueuedKeeps(s, n);
        EnqueuedStarted(s, n, i);
        FinishKeeps(u, i);
        KeepsWorks(u, Finish(u, i), i);
        WorksOnePerClass(u, Finish(u, i));
      } else {
        var u, i := Admitted(s, n), s.lastId + 1;
        StartAtOnceKeeps(s, n);
        BegunSameOrders(u, StartNotification(u, i), i);
        OnePerClassLasts(u, StartNotification(u, i));
      }
    }
  }

  lemma WorksOnePerClass(s: State, r: State)
    requires Works(s, r) && OnePerClass(s)
    ensures OnePerClass(r)
  {
    hide Inv, SliceOf;
    if r != s {
      OnePerClassLasts(s, r);
    }
  }

  lemma StepOnePerClass(s: State, e: Event)
    requires Inv(s) && Enabled(s, e) && OnePerClass(s) && (e.Start? ==> ClassIsFree(s, e.n.Class()))
    ensures OnePerClass(Step(s, e))
  {
    hide OnePerClass;
    match e
    case Start(n, initialized) => StartOnePerClass(s, n, initialized);
    case SystemHint(allowed) => HintOnePerClass(s, allowed);
    case _ => StepWorks(s, e); WorksOnePerClass(s, Step(s, e));
  }

  lemma HintOnePerClass(s: State, allowed: bool)
    requires OnePerClass(s)
    ensures OnePerClass(s.(systemAllowed := allowed))
  {
  }

  lemma OnePerClassRefusesNobody(s: State, e: Event)
    requires Inv(s) && Enabled(s, e) && OnePerClass(s) && (e.Start? ==> ClassIsFree(s, e.n.Class()))
    ensures !Refuses(s, e)
  {
    Names(s);
    if e.IdleStart? {
      var c := s.notifs[e.i].Class();
      if c in s.owner {
        DueWaits(s, e.i);
        OwnerStarted(s, c);
        OwnerIsStarted(s, c);
      }
    } else if e.Start? && e.n.Class() in s.owner {
      OwnerIsStarted(s, e.n.Class());
    }
  }

  /** A caller that starts a notification only when its class is free never has one refused. */
  lemma {:induction false} FreeStartsAreNotRefused(s: State, es: seq<Event>)
    requires Inv(s) && Possible(s, es) && OnePerClass(s) && FreeStarts(s, es)
    ensures NeverRefuses(s, es)
    decreases |es|
  {
    hide Step, OnePerClass, ClassIsFree, Refuses, Inv, Enabled;
    if es != [] {
      StepKeepsInv(s, es[0]);
      StepOnePerClass(s, es[0]);
      OnePerClassRefusesNobody(s, es[0]);
      FreeStartsAreNotRefused(Step(s, es[0]), es[1..]);
    }
  }

  // ---------------------------------------------------------------- a message without sound

  /** A manager on which nobody waits, is due or serves begins a silent message at once. */
  lemma SilentStart(s: State, n: Notification)
    requires Inv(s) && s.current.None? && s.queue == [] && s.idleStarts == multiset{} && !SomeoneServes(s)
    requires n.Fresh() && !n.order.UsesPolicy()
    ensures var r, i := Step(s, Event.Start(n, true)), s.lastId + 1;
            && Inv(r) && r.current == Some(i) && r.queue == [] && r.idleStarts == multiset{}
            && i in r.notifs && r.notifs[i].order == n.order && !r.notifs[i].policy && !OthersServe(r, i, None)
  {
    hide StartNotification, SliceOf, Inv, Server, Opens;
    var a, i := Admitted(s, n), s.lastId + 1;
    var r := StartNotification(a, i);
    InvConsistent(s);
    StartIs(s, n, true);
    StartAtOnceKeeps(s, n);
    StartAtOnceActs(s, n);
    SilentFrame(a, i);
    CurrentStarted(r);
    PolicyAsOrdered(r, i);
    forall j | j != i ensures !Server(SliceOf(r, j), j, None) {
      assert !Server(SliceOf(s, j), j, s.current);
      NotStartedServesNobody(SliceOf(r, j), j);
    }
  }

  lemma NotStartedServesNobody(v: Slice, j: int)
    ensures Server(v, j, None) ==> IsStarted(v)
  {
  }

  lemma SilentFrame(a: State, i: int)
    requires i in a.notifs && !a.notifs[i].order.UsesPolicy() && a.queue == []
    ensures var r := StartNotification(a, i); r.queue == a.queue && r.idleStarts == a.idleStarts
  {
    hide TryNext;
    TryNextFrame(Opened(a, i, false), i, true);
  }

  lemma PolicyAsOrdered(s: State, i: int)
    requires Inv(s) && i in s.notifs && PlaceOf(s, i).Started?
    ensures s.notifs[i].policy == s.notifs[i].order.UsesPolicy()
  {
    StartedBut(s, i);
  }

  lemma RunTwo(s: State, e: Event, f: Event)
    requires Inv(s) && Enabled(s, e)
    requires Inv(Step(s, e)) && Enabled(Step(s, e), f)
    ensures Possible(s, [e, f]) && Run(s, [e, f]) == Step(Step(s, e), f)
  {
    hide Inv, Enabled, Step;
    StepKeepsInv(s, e);
    StepKeepsInv(Step(s, e), f);
    assert [e, f][1..] == [f] && [f][1..] == [];
    assert Possible(Step(s, e), [f]);
    assert Run(Step(s, e), [f]) == Step(Step(s, e), f);
  }

  /** A silent message, then anything that displaces it: the second one waits in a queue nobody serves. */
  lemma SilentMessageStrandsNext(s: State, n: Notification, m: Notification)
    requires Inv(s) && s.current.None? && s.queue == [] && s.idleStarts == multiset{} && !SomeoneServes(s)
    requires n.Fresh() && !n.order.UsesPolicy() && m.Fresh() && Displaces(m.Category(), n.Category())
    ensures Possible(s, [Event.Start(n, true), Event.Start(m, true)])
    ensures !Served(Run(s, [Event.Start(n, true), Event.Start(m, true)]))
  {
    hide Step, Inv, Served, SliceOf;
    var r := Step(s, Event.Start(n, true));
    SilentStart(s, n);
    StrandsBehindSilent(r, m);
    RunTwo(s, Event.Start(n, true), Event.Start(m, true));
  }

  lemma StrandsBehindSilent(s: State, m: Notification)
    requires Inv(s) && s.current.Some? && s.idleStarts == multiset{} && s.queue == []
    requires s.current.value in s.notifs && !s.notifs[s.current.value].policy && !OthersServe(s, s.current.value, None)
    requires m.Fresh() && Displaces(m.Category(), s.notifs[s.current.value].Category())
    ensures !Served(Step(s, Event.Start(m, true)))
  {
    hide Step;
    ExactlyTheseStrand(s, Event.Start(m, true));
  }
}
