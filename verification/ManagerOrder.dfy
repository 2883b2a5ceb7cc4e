/**
 Ids, and who displaces whom: theorems about runs.
 */
module ManagerOrder {
  import opened Categories
  import opened Manager
  import opened ManagerInvariant
  import opened ManagerReplies
  import opened ManagerRuns
  import opened ManagerTheorems

  // ---------------------------------------------------------------- ids

  /** The ids returned by the accepted starts of a run. */
  ghost function Returned(s: State, es: seq<Event>): seq<int>
    requires Inv(s) && Possible(s, es)
    decreases |es|
  {
    if es == [] then []
    else
      var e := es[0];
      Names(s);
      StepKeepsInv(s, e);
      var rest := Returned(Step(s, e), es[1..]);
      if e.Start? && Accepts(s, e.n, e.initialized) then [Manager.Start(s, e.n, e.initialized).1] + rest else rest
  }

  lemma StartIds(s: State, n: Notification, initialized: bool)
    requires Inv(s) && n.Fresh()
    ensures Consistent(s)
    ensures var (r, id) := Manager.Start(s, n, initialized);
            if Accepts(s, n, initialized) then r.lastId == s.lastId + 1 == id && id in r.notifs
            else r == s
  {
    InvConsistent(s);
    StartIs(s, n, initialized);
    if Accepts(s, n, initialized) {
      StartKeeps(s, n, initialized);
    }
  }

  lemma StepIds(s: State, e: Event)
    requires Inv(s) && Enabled(s, e)
    ensures Consistent(s)
    ensures var r := Step(s, e);
            if e.Start? && Accepts(s, e.n, e.initialized)
            then r.lastId == s.lastId + 1 == Manager.Start(s, e.n, e.initialized).1 && r.lastId in r.notifs
            else r.lastId == s.lastId
  {
    if e.Start? {
      StartIds(s, e.n, e.initialized);
    } else {
      Names(s);
      if !e.SystemHint? {
        StepWorks(s, e);
      }
    }
  }

  /** The ids handed out in a run are positive, strictly increasing and never reused. */
  lemma {:induction false} IdsIncrease(s: State, es: seq<Event>)
    requires Inv(s) && Possible(s, es)
    ensures Increasing(Returned(s, es))
    ensures forall k :: 0 <= k < |Returned(s, es)| ==> s.lastId < Returned(s, es)[k]
    decreases |es|
  {
    hide Inv, Step;
    if es != [] {
      var e := es[0];
      StepIds(s, e);
      StepKeepsInv(s, e);
      IdsIncrease(Step(s, e), es[1..]);
    }
  }

  // ---------------------------------------------------------------- displacement

  /** The registered table: who makes a current notification of which category finish. */
  lemma RegisteredRanks(newcomer: Category, current: Category)
    ensures Displaces(newcomer, current) <==>
            match current
            case Ringtone => false
            case Clock | Calendar => newcomer.Ringtone? || newcomer.Clock? || newcomer.Calendar?
            case Sms | Email | Chat | Sound => newcomer.Ringtone? || newcomer.Clock? || newcomer.Calendar?
            case System | Critical => true
  {
  }

  /**
   A start is accepted exactly when its notification was initialized and nobody is current, or somebody of a
   category that it displaces; otherwise -1 is returned and nothing happens.
   */
  lemma AcceptedExactly(s: State, n: Notification, initialized: bool)
    requires Inv(s) && Enabled(s, Event.Start(n, initialized))
    ensures Consistent(s)
    ensures var (r, id) := Manager.Start(s, n, initialized);
            var c := n.order.category;
            && (if initialized &&
                   (s.current.Some? ==>
                      match s.notifs[s.current.value].order.category
                      case Ringtone => false
                      case Clock | Calendar | Sms | Email | Chat | Sound => c.Ringtone? || c.Clock? || c.Calendar?
                      case System | Critical => true)
                then id == s.lastId + 1 == r.lastId
                else id == -1 && r == s)
  {
    hide Finish, StartNotification;
    InvConsistent(s);
    StartIs(s, n, initialized);
    StepIds(s, Event.Start(n, initialized));
    if s.current.Some? {
      RegisteredRanks(n.order.category, s.notifs[s.current.value].order.category);
    }
  }

  /** The newcomer of a start is ready and displaces a current notification of this category. */
  predicate Displacer(e: Event, current: Category) {
    e.Start? && e.initialized && Displaces(e.n.Category(), current)
  }

  /**
   A run of starts leaves the current notification alone, and everything else with it, exactly when no
   newcomer in it displaces that category: then no id is handed out, otherwise one is.
   */
  lemma {:induction false} OnlyDisplacersAreAccepted(s: State, es: seq<Event>)
    requires Inv(s) && Possible(s, es) && s.current.Some? && s.current.value in s.notifs
    requires forall e :: e in es ==> e.Start?
    ensures Returned(s, es) == [] <==> forall e :: e in es ==> !Displacer(e, s.notifs[s.current.value].Category())
    ensures Returned(s, es) == [] ==> Run(s, es) == s
    decreases |es|
  {
    hide Inv, Displaces, Manager.Start;
    if es != [] {
      var e := es[0];
      assert e in es;
      Names(s);
      StartIs(s, e.n, e.initialized);
      StepKeepsInv(s, e);
      assert forall f :: f in es[1..] ==> f in es;
      if !Displacer(e, s.notifs[s.current.value].Category()) {
        assert Step(s, e) == s;
        assert forall f :: f in es ==> f == e || f in es[1..];
        OnlyDisplacersAreAccepted(s, es[1..]);
      }
    }
  }

  /** Whatever changes about the current notification in a run of starts, a displacer is behind it. */
  lemma OnlyDisplacersDisturb(s: State, es: seq<Event>)
    requires Inv(s) && Possible(s, es) && s.current.Some? && s.current.value in s.notifs
    requires forall e :: e in es ==> e.Start?
    ensures SliceOf(Run(s, es), s.current.value) != SliceOf(s, s.current.value) ==>
              exists e :: e in es && Displacer(e, s.notifs[s.current.value].Category())
  {
    hide Inv, SliceOf, Displacer;
    OnlyDisplacersAreAccepted(s, es);
  }

  /** While a ringtone is current every start is refused, and changes nothing at all. */
  lemma RingtoneCannotBeDisplaced(s: State, es: seq<Event>)
    requires Inv(s) && Possible(s, es) && s.current.Some? && s.current.value in s.notifs
    requires s.notifs[s.current.value].Category().Ringtone? && forall e :: e in es ==> e.Start?
    ensures Run(s, es) == s && Returned(s, es) == []
  {
    hide Inv, Displaces;
    OnlyDisplacersAreAccepted(s, es);
    forall e | e in es ensures !Displacer(e, Ringtone) {
      RegisteredRanks(e.n.Category(), Ringtone);
    }
  }
}
