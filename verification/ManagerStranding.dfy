/**
 Which steps leave the queue without anybody to serve it, and which refuse somebody: exactly, for every
 event in every state that the invariant allows.
 */
module ManagerStranding {
  import opened Wrappers
  import opened Categories
  import opened Manager
  import opened ManagerInvariant
  import opened ManagerReplies
  import opened ManagerRuns
  import opened ManagerServing

  // ---------------------------------------------------------------- the steps in question

  /** Nobody is due, and somebody waits, or is just being queued. */
  predicate SomeoneWaits(s: State, e: Event) {
    s.idleStarts == multiset{} && (s.queue != [] || e.Start?)
  }

  /** One that has no policy ends, and nobody else serves; if it was current, the pointer is lost with it. */
  ghost predicate EndsSilently(s: State, e: Event)
    requires Inv(s) && Enabled(s, e)
  {
    var t := FinishTarget(s, e);
    && t.Some? && t.value in s.notifs && !s.notifs[t.value].policy
    && SomeoneWaits(s, e)
    && !OthersServe(s, t.value, if s.current == t then None else s.current)
  }

  /** An accepted start waits behind a current notification that was refused, and nobody serves. */
  ghost predicate QueuesBehindRefused(s: State, e: Event)
    requires Inv(s) && Enabled(s, e)
  {
    var t := FinishTarget(s, e);
    && e.Start? && t.Some? && IsRefused(SliceOf(s, t.value))
    && SomeoneWaits(s, e)
    && !SomeoneServes(s)
  }

  /** A STOP command silences one that is not current and cannot be upgraded, and nobody else serves. */
  ghost predicate HushesLast(s: State, e: Event)
    requires Inv(s) && Enabled(s, e)
  {
    && e.PlaybackCommand? && e.w.WantStop? && s.current.Some?
    && e.c in s.owner && s.owner[e.c] in s.notifs
    && var i := s.owner[e.c];
       && s.notifs[i].playing && s.current != Some(i) && !IsUpgradable(s.notifs[i]) && s.idleFinishes[i] == 0
       && SomeoneWaits(s, e)
       && !OthersServe(s, i, s.current)
  }

  /** The last one due begins, is refused, and takes the pointer from whom only that kept in reach. */
  ghost predicate BeginsRefused(s: State, e: Event)
    requires Inv(s) && Enabled(s, e)
  {
    && e.IdleStart? && e.i in s.notifs && WillBeRefused(s, s.notifs[e.i])
    && s.queue != [] && s.idleStarts == multiset{e.i}
    && !OthersServe(s, e.i, Some(e.i))
  }

  ghost predicate Strands(s: State, e: Event)
    requires Inv(s) && Enabled(s, e)
  {
    EndsSilently(s, e) || QueuesBehindRefused(s, e) || HushesLast(s, e) || BeginsRefused(s, e)
  }

  // ---------------------------------------------------------------- the queue after a step

  lemma ServingServed(s: State, u: State, r: State, i: int)
    requires OthersAlike(s, r, i) && Serving(s, u, r, i)
    ensures Served(r)
  {
    hide SliceOf, StartNext;
    if Advances(u, r) {
      AdvancesServes(u, r);
    } else {
      assert Server(SliceOf(r, i), i, r.current);
    }
  }

  lemma OpensServed(u: State, r: State, i: int)
    requires Opens(u, r, i, false)
    ensures Served(r)
  {
    hide SliceOf, StartNext;
    if Advances(u, r) {
      AdvancesServes(u, r);
    } else {
      assert Server(SliceOf(r, i), i, r.current);
    }
  }

  lemma StaysServed(s: State, r: State, i: int)
    requires OthersAlike(s, r, i) && Stays(s, r, i)
    ensures Served(r) <==> Served(s)
  {
    hide SliceOf;
    WhoServes(s, r, i);
    WhoServes(s, s, i);
  }

  lemma HushesServed(s: State, r: State, i: int)
    requires OthersAlike(s, r, i) && Hushes(s, r, i)
    ensures Served(r) <==>
            (s.queue != [] && s.idleStarts == multiset{} ==>
               || s.idleFinishes[i] > 0 || s.current == Some(i) || (s.current.Some? && IsUpgradable(s.notifs[i]))
               || OthersServe(s, i, s.current))
  {
    hide SliceOf;
    WhoServes(s, r, i);
  }

  lemma FewerServed(s: State, r: State)
    requires FewerWait(s, r)
    ensures Served(s) ==> Served(r)
    ensures SomeoneServes(s) <==> SomeoneServes(r)
  {
    hide SliceOf;
    forall j ensures Server(SliceOf(r, j), j, r.current) <==> Server(SliceOf(s, j), j, s.current) {
      assert Alike(SliceOf(s, j), SliceOf(r, j));
    }
  }

  lemma HintSame(s: State, allowed: bool)
    ensures FewerWait(s, s.(systemAllowed := allowed))
  {
    var r := s.(systemAllowed := allowed);
    assert forall j {:trigger SliceOf(r, j)} :: SliceOf(r, j) == SliceOf(s, j);
  }

  // ---------------------------------------------------------------- the events

  /** What is left of the line when a target that serves nobody was finished. */
  ghost predicate LineAfter(s: State, e: Event, r: State) {
    r.idleStarts == s.idleStarts && r.queue == (if e.Start? then s.queue + [s.lastId + 1] else s.queue)
  }

  lemma RefusedTarget(s: State, e: Event, r: State, i: int)
    requires Inv(s) && Enabled(s, e) && FinishTarget(s, e) == Some(i) && Served(s) && i in s.notifs
    requires IsRefused(SliceOf(s, i)) && IsRefused(SliceOf(r, i)) && OthersAlike(s, r, i)
    requires LineAfter(s, e, r) && r.current == s.current && !e.PlaybackCommand? && !e.IdleStart?
    ensures Served(r) <==> !Strands(s, e)
  {
    hide SliceOf, FinishTarget, Inv, Enabled, OthersServe, SomeoneServes;
    WhoServes(s, r, i);
    WhoServes(s, s, i);
    RefusedHasPolicy(s, i);
    RefusedIsNobody(r, i);
  }

  lemma RefusedIsNobody(r: State, i: int)
    requires IsRefused(SliceOf(r, i))
    ensures !Server(SliceOf(r, i), i, r.current)
  {
  }

  lemma SilentTarget(s: State, e: Event, r: State, i: int)
    requires Inv(s) && Enabled(s, e) && FinishTarget(s, e) == Some(i) && i in s.notifs
    requires !IsRefused(SliceOf(s, i)) && !s.notifs[i].policy && i !in r.notifs && OthersAlike(s, r, i)
    requires LineAfter(s, e, r) && r.current == (if s.current == Some(i) then None else s.current)
    requires !e.PlaybackCommand? && !e.IdleStart?
    ensures Served(r) <==> !Strands(s, e)
  {
    hide SliceOf, FinishTarget, Inv, Enabled, OthersServe, SomeoneServes;
    WhoServes(s, r, i);
    GoneIsNobody(r, i);
  }

  lemma PolicyTarget(s: State, e: Event, i: int)
    requires Inv(s) && Enabled(s, e) && FinishTarget(s, e) == Some(i) && i in s.notifs
    requires !IsRefused(SliceOf(s, i)) && s.notifs[i].policy && !e.PlaybackCommand? && !e.IdleStart?
    ensures !Strands(s, e)
  {
    hide SliceOf, FinishTarget, Inv, Enabled, OthersServe, SomeoneServes;
  }

  lemma FinishingStrands(s: State, e: Event)
    requires Inv(s) && Enabled(s, e) && FinishTarget(s, e).Some? && Served(s)
    ensures Served(Step(s, e)) <==> !Strands(s, e)
  {
    hide Step, BeforeFinish, FinishTarget, SliceOf, Inv, Enabled, Served, Strands, OthersAlike, Serving;
    var i, u, r := FinishTarget(s, e).value, BeforeFinish(s, e), Step(s, e);
    FinishingStep(s, e);
    FinishingActs(s, e);
    TargetEvents(s, e);
    if IsRefused(SliceOf(s, i)) {
      RefusedTarget(s, e, r, i);
    } else if s.notifs[i].policy {
      PolicyTarget(s, e, i);
      ServingServed(s, u, r, i);
    } else {
      SilentTarget(s, e, r, i);
    }
  }

  lemma TargetEvents(s: State, e: Event)
    requires Inv(s) && Enabled(s, e) && FinishTarget(s, e).Some?
    ensures !e.PlaybackCommand? && !e.IdleStart?
  {
  }

  lemma RefusedHasPolicy(s: State, i: int)
    requires Inv(s) && i in s.notifs && IsRefused(SliceOf(s, i))
    ensures s.notifs[i].policy && !Server(SliceOf(s, i), i, s.current)
  {
    TargetIsGood(s, i);
  }

  lemma GoneIsNobody(r: State, i: int)
    requires i !in r.notifs
    ensures !IsStarted(SliceOf(r, i))
  {
  }

  lemma IdleStartStrands(s: State, i: int)
    requires Inv(s) && Enabled(s, IdleStart(i))
    ensures Served(Step(s, IdleStart(i))) <==> !Strands(s, IdleStart(i))
  {
    hide StartNotification, SliceOf;
    IdleStartActs(s, i);
    var u := s.(idleStarts := s.idleStarts - multiset{i});
    var r := StartNotification(u, i);
    if WillBeRefused(s, s.notifs[i]) {
      WhoServes(s, r, i);
      LastDue(s.idleStarts, i);
    } else {
      OpensServed(u, r, i);
    }
  }

  lemma LastDue(due: multiset<int>, i: int)
    requires i in due
    ensures due - multiset{i} == multiset{} <==> due == multiset{i}
  {
    if due - multiset{i} == multiset{} {
      forall j ensures due[j] == multiset{i}[j] {
        assert (due - multiset{i})[j] == 0;
      }
    }
  }

  /** A start at once serves the queue, or is refused, and somebody who served still does. */
  lemma StartStrands(s: State, n: Notification, initialized: bool)
    requires Inv(s) && Enabled(s, Start(n, initialized)) && FinishTarget(s, Start(n, initialized)).None? && Served(s)
    ensures Served(Step(s, Start(n, initialized)))
  {
    hide StartNotification, SliceOf;
    InvConsistent(s);
    StartIs(s, n, initialized);
    if Accepts(s, n, initialized) {
      StartAtOnceActs(s, n);
      var i := s.lastId + 1;
      var r := StartNotification(Admitted(s, n), i);
      if WillBeRefused(s, n) {
        WhoServes(s, r, i);
        if s.queue != [] && s.idleStarts == multiset{} {
          var j :| Server(SliceOf(s, j), j, s.current);
          NewIsNobody(s, i);
          assert j != i && Server(SliceOf(s, j), j, Some(i));
        }
      } else {
        OpensServed(s, r, i);
      }
    }
  }

  lemma NewIsNobody(s: State, i: int)
    requires Inv(s) && i == s.lastId + 1
    ensures !IsStarted(SliceOf(s, i))
  {
  }

  lemma CommandStrands(s: State, c: PolicyClass, w: Wanted)
    requires Inv(s) && Enabled(s, PlaybackCommand(c, w)) && Served(s)
    ensures Served(Step(s, PlaybackCommand(c, w))) <==> !Strands(s, PlaybackCommand(c, w))
  {
    hide Command, Upgrades, SliceOf, Hushes, Stays, OthersAlike, Served, IsUpgradable;
    Names(s);
    if c in s.owner {
      var i := s.owner[c];
      OwnerIsStarted(s, c);
      CommandActs(s, i, w);
      var r := Command(s, i, w);
      if s.current.Some? && w.WantStop? && s.notifs[i].playing {
        HushesServed(s, r, i);
      } else if Upgrades(s, i, w) {
        StaysServed(s, r, i);
        UpgradeIsPlay(s, i, w);
      }
    }
  }

  lemma UpgradeIsPlay(s: State, i: int, w: Wanted)
    requires i in s.notifs && Upgrades(s, i, w)
    ensures w.WantPlay?
  {
  }

  lemma OthersStrandNobody(s: State, e: Event)
    requires Inv(s) && Enabled(s, e) && FinishTarget(s, e).None? && Served(s)
    requires !e.Start? && !e.IdleStart? && !e.PlaybackCommand?
    ensures Served(Step(s, e))
  {
    hide OnPlayReply, OnStopReply, SliceOf, Error, OnStarted, OnVolumeTimer, StopById, FinishBySender, FinishByCategory, Served;
    Names(s);
    match e
    case PlayReply(i, granted) => ReplyActs(s, i, granted); ServingServed(s, s, Step(s, e), i);
    case StopReply(i) => StopReplyActs(s, i); ServingServed(s, s, Step(s, e), i);
    case PlaybackStarted(i) => CallbackActs(s, e, i); StaysServed(s, Step(s, e), i);
    case PlaybackError(i) => CallbackActs(s, e, i); StaysServed(s, Step(s, e), i);
    case VolumeTimerFires(i) => CallbackActs(s, e, i); StaysServed(s, Step(s, e), i);
    case SystemHint(allowed) => HintSame(s, allowed); FewerServed(s, Step(s, e));
    case Stop(_) => StopsFewer(s, e); FewerServed(s, Step(s, e));
    case SenderGone(_) => StopsFewer(s, e); FewerServed(s, Step(s, e));
    case CategoryRead(_) => StopsFewer(s, e); FewerServed(s, Step(s, e));
    case PlaybackSucceeded(_) =>
  }

  /**
   Exactly four kinds of step strand a queue that was served: one without a policy ends, an accepted start
   is queued behind a refused notification, a STOP command silences one that is out of reach, or one that
   is refused becomes current; each while nobody is due to start and nobody else serves.
   */
  lemma ExactlyTheseStrand(s: State, e: Event)
    requires Inv(s) && Enabled(s, e) && Served(s)
    ensures Served(Step(s, e)) <==>
            !EndsSilently(s, e) && !QueuesBehindRefused(s, e) && !HushesLast(s, e) && !BeginsRefused(s, e)
  {
    hide Step, FinishTarget, Served, EndsSilently, QueuesBehindRefused, HushesLast, BeginsRefused;
    if FinishTarget(s, e).Some? {
      FinishingStrands(s, e);
    } else {
      NoTargetNoEnd(s, e);
      match e
      case Start(n, initialized) => StartStrands(s, n, initialized);
      case IdleStart(i) => IdleStartStrands(s, i);
      case PlaybackCommand(c, w) => CommandStrands(s, c, w);
      case _ => OthersStrandNobody(s, e);
    }
  }

  lemma NoTargetNoEnd(s: State, e: Event)
    requires Inv(s) && Enabled(s, e) && FinishTarget(s, e).None?
    ensures !EndsSilently(s, e) && !QueuesBehindRefused(s, e)
    ensures !e.PlaybackCommand? ==> !HushesLast(s, e)
    ensures !e.IdleStart? ==> !BeginsRefused(s, e)
  {
  }

  // ---------------------------------------------------------------- refusals

  /** The step begins a notification whose class has an owner. */
  predicate Refuses(s: State, e: Event)
    requires Inv(s) && Enabled(s, e)
  {
    Names(s);
    match e
    case IdleStart(i) => WillBeRefused(s, s.notifs[i])
    case Start(n, initialized) => Accepts(s, n, initialized) && s.current.None? && WillBeRefused(s, n)
    case _ => false
  }

  ghost predicate NewlyRefused(s: State, r: State, i: int) {
    IsRefused(SliceOf(r, i)) && !IsRefused(SliceOf(s, i))
  }

  /** At most i is newly refused. */
  lemma OnlyOneNew(s: State, r: State, i: int)
    requires OthersAlike(s, r, i)
    ensures (exists j {:trigger NewlyRefused(s, r, j)} :: NewlyRefused(s, r, j)) <==> NewlyRefused(s, r, i)
  {
    hide SliceOf;
    forall j | j != i ensures !NewlyRefused(s, r, j) {
      assert Alike(SliceOf(s, j), SliceOf(r, j));
    }
  }

  lemma FewerRefusesNobody(s: State, r: State)
    requires FewerWait(s, r)
    ensures !exists j {:trigger NewlyRefused(s, r, j)} :: NewlyRefused(s, r, j)
  {
    hide SliceOf;
    forall j ensures !NewlyRefused(s, r, j) {
      assert Alike(SliceOf(s, j), SliceOf(r, j));
    }
  }

  lemma BeginningRefuses(s: State, e: Event)
    requires Inv(s) && Enabled(s, e) && FinishTarget(s, e).None? && (e.Start? || e.IdleStart?)
    ensures (exists i {:trigger NewlyRefused(s, Step(s, e), i)} :: NewlyRefused(s, Step(s, e), i)) <==> Refuses(s, e)
  {
    hide StartNotification, SliceOf, NewlyRefused;
    Names(s);
    match e
    case IdleStart(i) =>
      IdleStartActs(s, i);
      DueWaits(s, i);
      OnlyOneNew(s, Step(s, e), i);
      assert NewlyRefused(s, Step(s, e), i) <==> Refuses(s, e) by { ItIsNew(s, Step(s, e), i); }
    case Start(n, initialized) =>
      StartIs(s, n, initialized);
      if Accepts(s, n, initialized) {
        StartAtOnceActs(s, n);
        NewIsNobody(s, s.lastId + 1);
        OnlyOneNew(s, Step(s, e), s.lastId + 1);
        assert NewlyRefused(s, Step(s, e), s.lastId + 1) <==> Refuses(s, e) by { ItIsNew(s, Step(s, e), s.lastId + 1); }
      } else {
        FewerItself(s);
        FewerRefusesNobody(s, s);
      }
  }

  lemma FewerItself(s: State)
    ensures FewerWait(s, s)
  {
    hide SliceOf;
  }

  lemma ItIsNew(s: State, r: State, i: int)
    requires !IsStarted(SliceOf(s, i))
    ensures NewlyRefused(s, r, i) <==> IsRefused(SliceOf(r, i))
  {
    hide SliceOf;
  }

  lemma FinishingRefusesNobody(s: State, e: Event)
    requires Inv(s) && Enabled(s, e) && FinishTarget(s, e).Some?
    ensures !exists i {:trigger NewlyRefused(s, Step(s, e), i)} :: NewlyRefused(s, Step(s, e), i)
  {
    hide Step, BeforeFinish, FinishTarget, Inv;
    FinishingActs(s, e);
    OnlyOneNew(s, Step(s, e), FinishTarget(s, e).value);
  }

  lemma OthersRefuseNobody(s: State, e: Event)
    requires Inv(s) && Enabled(s, e) && FinishTarget(s, e).None? && !e.Start? && !e.IdleStart?
    ensures !exists i {:trigger NewlyRefused(s, Step(s, e), i)} :: NewlyRefused(s, Step(s, e), i)
  {
    hide OnPlayReply, OnStopReply, SliceOf, Error, OnStarted, OnVolumeTimer, StopById, FinishBySender, FinishByCategory, Command, Upgrades;
    Names(s);
    match e
    case PlayReply(i, granted) => ReplyActs(s, i, granted); OnlyOneNew(s, Step(s, e), i);
    case StopReply(i) => StopReplyActs(s, i); OnlyOneNew(s, Step(s, e), i);
    case PlaybackStarted(i) => CallbackActs(s, e, i); PlayingIsNotRefused(s, Step(s, e), i); OnlyOneNew(s, Step(s, e), i);
    case PlaybackError(i) => CallbackActs(s, e, i); PlayingIsNotRefused(s, Step(s, e), i); OnlyOneNew(s, Step(s, e), i);
    case VolumeTimerFires(i) => CallbackActs(s, e, i); PlayingIsNotRefused(s, Step(s, e), i); OnlyOneNew(s, Step(s, e), i);
    case PlaybackCommand(c, w) => CommandRefusesNobody(s, c, w);
    case SystemHint(allowed) => HintSame(s, allowed); FewerRefusesNobody(s, Step(s, e));
    case Stop(_) => StopsFewer(s, e); FewerRefusesNobody(s, Step(s, e));
    case SenderGone(_) => StopsFewer(s, e); FewerRefusesNobody(s, Step(s, e));
    case CategoryRead(_) => StopsFewer(s, e); FewerRefusesNobody(s, Step(s, e));
    case PlaybackSucceeded(_) => FewerItself(s); FewerRefusesNobody(s, Step(s, e));
  }

  lemma PlayingIsNotRefused(s: State, r: State, i: int)
    requires i in r.notifs && r.notifs[i].status == Playing
    ensures !NewlyRefused(s, r, i)
  {
  }

  lemma CommandRefusesNobody(s: State, c: PolicyClass, w: Wanted)
    requires Inv(s) && Enabled(s, PlaybackCommand(c, w))
    ensures var r := Step(s, PlaybackCommand(c, w));
            !exists i {:trigger NewlyRefused(s, r, i)} :: NewlyRefused(s, r, i)
  {
    hide Command, Upgrades, SliceOf;
    Names(s);
    FewerItself(s);
    FewerRefusesNobody(s, s);
    if c in s.owner {
      var i := s.owner[c];
      OwnerIsStarted(s, c);
      CommandActs(s, i, w);
      OnlyOneNew(s, Command(s, i, w), i);
      if Command(s, i, w) != s {
        PlayingIsNotRefused(s, Command(s, i, w), i);
      }
    }
  }

  /** Somebody is refused exactly by a step that begins one whose class has an owner. */
  lemma ExactlyTheseRefuse(s: State, e: Event)
    requires Inv(s) && Enabled(s, e)
    ensures (exists i {:trigger NewlyRefused(s, Step(s, e), i)} :: NewlyRefused(s, Step(s, e), i)) <==> Refuses(s, e)
  {
    hide Step, FinishTarget, NewlyRefused;
    if FinishTarget(s, e).Some? {
      FinishingRefusesNobody(s, e);
      TargetsAreNotRefused(s, e);
    } else if e.Start? || e.IdleStart? {
      BeginningRefuses(s, e);
    } else {
      OthersRefuseNobody(s, e);
    }
  }

  lemma TargetsAreNotRefused(s: State, e: Event)
    requires Inv(s) && Enabled(s, e) && FinishTarget(s, e).Some?
    ensures !Refuses(s, e)
  {
  }

  lemma NobodyNewlyRefused(s: State, e: Event)
    requires Inv(s) && Enabled(s, e) && NobodyRefused(s) && !Refuses(s, e)
    ensures NobodyRefused(Step(s, e))
  {
    hide Step, SliceOf, Refuses;
    ExactlyTheseRefuse(s, e);
    forall i ensures !IsRefused(SliceOf(Step(s, e), i)) {
      assert !NewlyRefused(s, Step(s, e), i);
    }
  }
}
