/**
 A manager that is wedged: no continuation begins anybody, whatever is started. That is so exactly when
 nobody is due, a refused notification is current, and nobody serves or nobody can be queued. Three alarms,
 each started while the one before it is still around, lead there, and a STOP command sooner.
 */
module ManagerWedge {
  import opened Wrappers
  import opened Categories
  import opened Manager
  import opened ManagerInvariant
  import opened ManagerSteps
  import opened ManagerReplies
  import opened ManagerRuns
  import opened ManagerTheorems
  import opened ManagerOrder
  import opened ManagerServing
  import opened ManagerStranding
  import opened ManagerProgress

  /** A refused ringtone lets no newcomer into the queue. */
  ghost predicate Wedged(s: State) {
    && s.idleStarts == multiset{}
    && s.current.Some? && s.current.value in s.notifs && IsRefused(SliceOf(s, s.current.value))
    && (!SomeoneServes(s) || (s.queue == [] && s.notifs[s.current.value].Category().Ringtone?))
  }

  // ---------------------------------------------------------------- a wedged manager stays so

  lemma RejectedByRingtone(s: State, e: Event)
    requires Inv(s) && Enabled(s, e) && e.Start?
    requires s.current.Some? && s.current.value in s.notifs && s.notifs[s.current.value].Category().Ringtone?
    ensures Step(s, e) == s && Consistent(s) && !Accepts(s, e.n, e.initialized)
  {
    InvConsistent(s);
    StartIs(s, e.n, e.initialized);
    RegisteredRanks(e.n.Category(), Ringtone);
  }

  lemma StillRingtone(s: State, e: Event, i: int)
    requires Inv(s) && Enabled(s, e) && i in s.notifs && s.notifs[i].Category().Ringtone? && i in Step(s, e).notifs
    requires e.Start? ==> Step(s, e) == s
    ensures Step(s, e).notifs[i].Category().Ringtone?
  {
    hide Step, Inv, SliceOf, Enabled;
    if !IsInput(e) {
      StepWorks(s, e);
      if Step(s, e) != s {
        assert SameOrder(s, Step(s, e), i);
      }
    } else if e.SystemHint? {
      HintKeepsRecords(s, e);
    }
  }

  lemma HintKeepsRecords(s: State, e: Event)
    requires Inv(s) && Enabled(s, e) && e.SystemHint?
    ensures Step(s, e).notifs == s.notifs
  {
  }

  /** Nothing that occurs unwedges the manager. */
  lemma WedgedStaysWedged(s: State, e: Event)
    requires Inv(s) && Wedged(s) && Enabled(s, e) && Occurs(s, e)
    ensures Wedged(Step(s, e)) && Step(s, e).current == s.current && NobodyNew(s, Step(s, e))
  {
    hide Step, SliceOf, Inv, Enabled, Occurs, SomeoneServes, NobodyNew;
    if SomeoneServes(s) {
      if e.Start? {
        RejectedByRingtone(s, e);
      }
      EmptyStep(s, e);
      RefusedIsThere(Step(s, e));
      StillRingtone(s, e, s.current.value);
    } else {
      NobodyServesStep(s, e);
      RefusedIsThere(Step(s, e));
    }
  }

  lemma RefusedIsThere(s: State)
    requires s.current.Some? && IsRefused(SliceOf(s, s.current.value))
    ensures s.current.value in s.notifs
  {
  }

  lemma {:induction false} WedgedForever(s: State, es: seq<Event>)
    requires Inv(s) && Wedged(s) && Possible(s, es) && Occur(s, es)
    ensures Wedged(Run(s, es)) && Run(s, es).current == s.current && NobodyNew(s, Run(s, es))
    decreases |es|
  {
    hide Step, Inv, Enabled, Occurs, NobodyNew, Wedged;
    if es != [] {
      var e := es[0];
      WedgedStaysWedged(s, e);
      StepKeepsInv(s, e);
      WedgedForever(Step(s, e), es[1..]);
      NobodyNewTwice(s, Step(s, e), Run(s, es));
    } else {
      FewerItself(s);
      FewerHolds(s, s);
    }
  }

  /** Behind a refused ringtone with nobody in the queue every start is rejected, whoever else plays on. */
  lemma {:induction false} RefusedRingtoneRejectsAll(s: State, es: seq<Event>)
    requires Inv(s) && Wedged(s) && s.queue == [] && s.notifs[s.current.value].Category().Ringtone?
    requires Possible(s, es) && Occur(s, es)
    ensures Returned(s, es) == []
    decreases |es|
  {
    hide Step, Inv, Enabled, Occurs, SliceOf, SomeoneServes, NobodyNew, Outside;
    if es != [] {
      var e := es[0];
      if e.Start? {
        RejectedByRingtone(s, e);
      }
      EmptyStep(s, e);
      StepKeepsInv(s, e);
      RefusedIsThere(Step(s, e));
      StillRingtone(s, e, s.current.value);
      RefusedRingtoneRejectsAll(Step(s, e), es[1..]);
    }
  }

  // ---------------------------------------------------------------- any other manager can begin somebody

  /** The pointer is lost or stays, and nobody is refused, unless something begins. */
  lemma PointerStays(s: State, e: Event)
    requires Inv(s) && Enabled(s, e) && Occurs(s, e) && !IsInput(e) && s.idleStarts == multiset{} && s.current.Some?
    requires !IsRefused(SliceOf(s, s.current.value))
    ensures var r := Step(s, e);
            r.current.Some? ==> r.current == s.current && !IsRefused(SliceOf(r, r.current.value))
  {
    hide Step, Inv, Enabled, SliceOf, Server, Occurs;
    assert !e.IdleStart? by { DueIsThere(s, e); }
    BeginsNobody(s, e);
    ExactlyTheseRefuse(s, e);
    assert !NewlyRefused(s, Step(s, e), s.current.value);
    var i := MoveOf(s, e);
    if i.Some? {
      assert Line(s, e) == s;
    }
  }

  lemma BeginsNobody(s: State, e: Event)
    requires Inv(s) && Enabled(s, e) && !e.IdleStart? && !e.Start?
    ensures !Refuses(s, e)
  {
  }

  /** The current notification, unless it was refused, can be brought to its end. */
  lemma CurrentHelps(s: State) returns (e: Event)
    requires Inv(s) && s.current.Some? && !IsRefused(SliceOf(s, s.current.value)) && s.idleStarts == multiset{}
    ensures Enabled(s, e) && Occurs(s, e) && !IsInput(e) && Step(s, e) != s
    ensures SameLine(s, Step(s, e)) || Advances(s, Step(s, e))
  {
    hide Step, Inv, Enabled, SliceOf, Server, HoldsItsEnd, IsUpgradable, Occurs, FinishTarget;
    var i := s.current.value;
    CurrentStarted(s);
    if s.notifs[i].policy {
      CurrentServes(s, i);
      e := ServerHelps(s, i);
    } else {
      e := Event.Stop(i);
      SilentEnds(s, i);
    }
  }

  lemma CurrentServes(s: State, i: int)
    requires Inv(s) && s.current == Some(i) && i in s.notifs && PlaceOf(s, i).Started?
    requires s.notifs[i].policy && !IsRefused(SliceOf(s, i))
    ensures Server(SliceOf(s, i), i, s.current)
  {
    TargetIsGood(s, i);
  }

  lemma SilentEnds(s: State, i: int)
    requires Inv(s) && s.current == Some(i) && i in s.notifs && PlaceOf(s, i).Started? && !s.notifs[i].policy
    ensures Enabled(s, Event.Stop(i)) && Occurs(s, Event.Stop(i)) && Step(s, Event.Stop(i)) != s
    ensures SameLine(s, Step(s, Event.Stop(i)))
  {
    hide Finish;
    InvConsistent(s);
    TargetIsGood(s, i);
    FinishSilently(s, i);
  }

  /** While the current notification was not refused, some continuation begins another one. */
  lemma {:induction false} CurrentLeads(s: State) returns (es: seq<Event>, j: int)
    requires Inv(s) && s.idleStarts == multiset{} && s.current.Some? && !IsRefused(SliceOf(s, s.current.value))
    ensures Leads(s, es, j)
    decreases Measure(s)
  {
    hide Step, Enabled, Occurs, SliceOf, Leads, Inv, Outside, StartNext;
    var e := CurrentHelps(s);
    var r := Step(s, e);
    StepSettles(s, e);
    StepKeepsLastId(s, e);
    PointerStays(s, e);
    if r.idleStarts != multiset{} {
      j := SomeoneDue(r.idleStarts);
      DueBegins(r, j);
      es := [IdleStart(j)];
    } else if r.current.None? {
      StartBegins(r);
      es, j := [Event.Start(Fresh(CALL), true)], r.lastId + 1;
    } else {
      es, j := CurrentLeads(r);
    }
    LeadsOutside(r, es, j);
    OutsideBefore(s, r, j);
    LeadsAfter(s, e, es, j);
    es := [e] + es;
  }

  /** Behind a refused notification that a call displaces, the call can be queued; whoever served still does. */
  lemma QueueingLeads(s: State, i: int) returns (es: seq<Event>, j: int)
    requires Inv(s) && s.idleStarts == multiset{} && Server(SliceOf(s, i), i, s.current)
    requires s.current.Some? && s.current.value in s.notifs && IsRefused(SliceOf(s, s.current.value))
    requires !s.notifs[s.current.value].Category().Ringtone?
    ensures Leads(s, es, j)
  {
    hide Step, Enabled, SliceOf, Leads, Inv, Outside, StartNext, Server, Serving, Stays, Hushes;
    var e := Event.Start(Fresh(CALL), true);
    CallIsAccepted(s);
    StepKeepsInv(s, e);
    FinishingStep(s, e);
    FinishingActs(s, e);
    var r := Step(s, e);
    RefusedIsNobody(s, s.current.value);
    assert i != s.current.value;
    ServerIsStarted(s, i);
    assert SliceOf(r, i) == SliceOf(s, i);
    es, j := ServerLeads(r, i);
    LeadsOutside(r, es, j);
    StartKeepsOutside(s, e, j);
    LeadsAfter(s, e, es, j);
    es := [e] + es;
  }

  lemma ServerIsStarted(s: State, i: int)
    requires Server(SliceOf(s, i), i, s.current)
    ensures IsStarted(SliceOf(s, i))
  {
    hide SliceOf;
  }

  lemma CallIsAccepted(s: State)
    requires Inv(s) && s.current.Some? && s.current.value in s.notifs && !s.notifs[s.current.value].Category().Ringtone?
    ensures var e := Event.Start(Fresh(CALL), true);
            Enabled(s, e) && Occurs(s, e) && FinishTarget(s, e) == s.current
  {
    Names(s);
    RegisteredRanks(Ringtone, s.notifs[s.current.value].Category());
  }

  lemma StartKeepsOutside(s: State, e: Event, j: int)
    requires Inv(s) && Enabled(s, e) && e.Start? && FinishTarget(s, e).Some?
    requires IsRefused(SliceOf(s, FinishTarget(s, e).value)) && Outside(Step(s, e), j)
    ensures Outside(s, j)
  {
    hide Step, FinishTarget, BeforeFinish, Finish, SliceOf, Serving;
    StepIds(s, e);
    FinishingActs(s, e);
    FinishingStep(s, e);
  }

  /**
   A manager is wedged exactly when no continuation begins anybody who has not begun yet, however many
   notifications are started.
   */
  lemma ExactlyTheseAreWedged(s: State)
    requires Inv(s)
    ensures (forall es, j :: !Leads(s, es, j)) <==> Wedged(s)
  {
    hide Inv, Leads, SliceOf, Server;
    if Wedged(s) {
      forall es, j ensures !Leads(s, es, j) {
        WedgedNeverLeads(s, es, j);
      }
    } else {
      var es, j := UnwedgedLeads(s);
    }
  }

  lemma WedgedNeverLeads(s: State, es: seq<Event>, j: int)
    requires Inv(s) && Wedged(s)
    ensures !Leads(s, es, j)
  {
    hide Inv, SliceOf, Outside, Possible, Occur, Wedged;
    if Leads(s, es, j) {
      WedgedForever(s, es);
      OutsideIsNotStarted(s, j);
    }
  }

  lemma UnwedgedLeads(s: State) returns (es: seq<Event>, j: int)
    requires Inv(s) && !Wedged(s)
    ensures Leads(s, es, j)
  {
    hide Inv, Leads, SliceOf, Server;
    if s.idleStarts != multiset{} {
      j := SomeoneDue(s.idleStarts);
      DueBegins(s, j);
      es := [IdleStart(j)];
    } else if s.current.None? {
      StartBegins(s);
      es, j := [Event.Start(Fresh(CALL), true)], s.lastId + 1;
    } else if !IsRefused(SliceOf(s, s.current.value)) {
      es, j := CurrentLeads(s);
    } else {
      CurrentStarted(s);
      var i :| Server(SliceOf(s, i), i, s.current);
      if s.queue != [] {
        es, j := ServerLeads(s, i);
      } else {
        es, j := QueueingLeads(s, i);
      }
    }
  }
}
