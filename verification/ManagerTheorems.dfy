/**
 What holds in every run of the manager.
 */
module ManagerTheorems {
  import opened Categories
  import opened Lifecycle
  import opened Manager
  import opened ManagerInvariant
  import opened ManagerSteps
  import opened ManagerReplies
  import opened ManagerRuns
  import Impl = Implementations

  ghost predicate Possible(s: State, es: seq<Event>)
    requires Inv(s)
    decreases |es|
  {
    es == [] || (Enabled(s, es[0]) && (StepKeepsInv(s, es[0]); Possible(Step(s, es[0]), es[1..])))
  }

  ghost function Run(s: State, es: seq<Event>): State
    requires Inv(s) && Possible(s, es)
    decreases |es|
  {
    if es == [] then s
    else
      StepKeepsInv(s, es[0]);
      Run(Step(s, es[0]), es[1..])
  }

  lemma {:induction false} RunKeepsInv(s: State, es: seq<Event>)
    requires Inv(s) && Possible(s, es)
    ensures Inv(Run(s, es))
    decreases |es|
  {
    if es != [] {
      StepKeepsInv(s, es[0]);
      RunKeepsInv(Step(s, es[0]), es[1..]);
    }
  }

  ghost predicate Reachable(s: State) {
    Inv(INITIAL) && exists es :: Possible(INITIAL, es) && Run(INITIAL, es) == s
  }

  lemma ReachableInv(s: State)
    requires Reachable(s)
    ensures Inv(s)
  {
    var es :| Possible(INITIAL, es) && Run(INITIAL, es) == s;
    RunKeepsInv(INITIAL, es);
  }

  lemma {:induction false} RunOneMore(s: State, es: seq<Event>, e: Event)
    requires Inv(s) && Possible(s, es)
    requires Inv(Run(s, es)) && Enabled(Run(s, es), e)
    ensures Possible(s, es + [e]) && Run(s, es + [e]) == Step(Run(s, es), e)
    decreases |es|
  {
    if es == [] {
      assert [] + [e] == [e] && [e][1..] == [];
      StepKeepsInv(s, e);
    } else {
      assert (es + [e])[0] == es[0] && (es + [e])[1..] == es[1..] + [e];
      StepKeepsInv(s, es[0]);
      RunOneMore(Step(s, es[0]), es[1..], e);
    }
  }

  lemma InitialIsReachable()
    ensures Reachable(INITIAL)
  {
    InitialInv();
    assert Possible(INITIAL, []) && Run(INITIAL, []) == INITIAL;
  }

  /** What one turn of the main loop makes of a reachable state is reachable. */
  lemma StepIsReachable(s: State, e: Event)
    requires Reachable(s) && Inv(s) && Enabled(s, e)
    ensures Inv(Step(s, e)) && Reachable(Step(s, e))
  {
    hide Inv, Step, Enabled;
    var es :| Possible(INITIAL, es) && Run(INITIAL, es) == s;
    StepKeepsInv(s, e);
    RunOneMore(INITIAL, es, e);
    assert Run(INITIAL, es + [e]) == Step(s, e);
  }

  lemma {:induction false} RunIsReachable(s: State, es: seq<Event>)
    requires Reachable(s) && Inv(s) && Possible(s, es)
    ensures Reachable(Run(s, es))
    decreases |es|
  {
    hide Inv, Step, Enabled, Reachable;
    if es != [] {
      StepIsReachable(s, es[0]);
      RunIsReachable(Step(s, es[0]), es[1..]);
    }
  }

  // ---------------------------------------------------------------- one in flight per class

  /** Between the play request and the end of the stop. */
  ghost predicate InFlight(s: State, i: int) {
    i in s.trace && AskPlay in s.trace[i] && Count(s.trace[i], Shutdowns) == 0
  }

  lemma {:induction false} TurnedNeverAsked(t: seq<Action>)
    requires Legal(t) && (LifeOf(t).phase.Turned? || LifeOf(t).phase.Waiting? || LifeOf(t).phase.Begun?)
    ensures AskPlay !in t
  {
    if t != [] {
      PrefixesAreLegal(t, |t| - 1);
      TurnedNeverAsked(t[..|t| - 1]);
      assert t == t[..|t| - 1] + [t[|t| - 1]];
    }
  }

  lemma {:induction false} AskedEarlier(t: seq<Action>)
    requires Legal(t)
    requires var l := LifeOf(t);
             l.phase.Asked? || l.phase.Cancelled? || l.phase.Late? || ((l.phase.Stopping? || l.phase.Active?) && l.asked)
    ensures AskPlay in t
  {
    PrefixesAreLegal(t, |t| - 1);
    var u := t[..|t| - 1];
    assert t == u + [t[|t| - 1]];
    if !t[|t| - 1].AskPlay? {
      AskedEarlier(u);
    }
  }

  lemma {:induction false} AskIsRemembered(t: seq<Action>)
    requires AskPlay in t
    ensures LifeOf(t).asked
  {
    var u := t[..|t| - 1];
    assert t == u + [t[|t| - 1]];
    if !t[|t| - 1].AskPlay? {
      AskIsRemembered(u);
    }
  }

  lemma InFlightOwns(s: State, i: int)
    requires Inv(s) && InFlight(s, i)
    ensures i in s.notifs && (Asynchronous(s.notifs[i].Class()) ==> Owns(s, i))
  {
    assert GoodSlice(SliceOf(s, i));
    RequestTally(s.trace[i]);
    AskIsRemembered(s.trace[i]);
    if LifeOf(s.trace[i]).phase.Turned? {
      TurnedNeverAsked(s.trace[i]);
    }
  }

  lemma OwnerIsInFlight(s: State, c: PolicyClass)
    requires Inv(s) && c in s.owner
    ensures InFlight(s, s.owner[c]) && s.owner[c] in s.notifs && s.notifs[s.owner[c]].Class() == c && Asynchronous(c)
  {
    var i := s.owner[c];
    OwnerIsStarted(s, c);
    RequestTally(s.trace[i]);
    AskedEarlier(s.trace[i]);
  }

  /**
   In every reachable state at most one notification of an asynchronous class is between its play
   request and its stop reply, and that one has the slot of the class.
   */
  lemma MutualExclusion(s: State, i: int, j: int)
    requires Reachable(s) && InFlight(s, i) && InFlight(s, j)
    ensures i in s.notifs && j in s.notifs
    ensures var c := s.notifs[i].Class();
            c == s.notifs[j].Class() && Asynchronous(c) ==> i == j && c in s.owner && s.owner[c] == i
  {
    ReachableInv(s);
    InFlightOwns(s, i);
    InFlightOwns(s, j);
  }

  /** The owner of a slot is alive, of that class, and in flight: commands reach nobody else. */
  lemma OwnersAreInFlight(s: State, c: PolicyClass)
    requires Reachable(s) && c in s.owner
    ensures InFlight(s, s.owner[c]) && s.owner[c] in s.notifs && s.notifs[s.owner[c]].Class() == c && Asynchronous(c)
  {
    ReachableInv(s);
    OwnerIsInFlight(s, c);
  }

  // ---------------------------------------------------------------- every accepted notification is in one place

  ghost predicate Destroyed(s: State, i: int) {
    Count(History(s, i), Destructions) == 1
  }

  ghost predicate Running(s: State, i: int) {
    Count(History(s, i), Starts) == 1 && Count(History(s, i), Destructions) == 0
  }

  /** How often i stands in the queue. */
  function Occurrences(q: seq<int>, i: int): nat {
    multiset(q)[i]
  }

  lemma {:induction false} IncreasingOccursOnce(q: seq<int>, i: int)
    requires Increasing(q)
    ensures Occurrences(q, i) == One(i in q)
  {
    if q != [] {
      IncreasingOccursOnce(q[1..], i);
      assert q == [q[0]] + q[1..];
      assert multiset(q) == multiset([q[0]]) + multiset(q[1..]);
      assert forall k :: 0 <= k < |q[1..]| ==> q[0] < q[1..][k];
    }
  }

  lemma PartitionHolds(s: State, i: int)
    requires Inv(s) && 1 <= i <= s.lastId
    ensures Occurrences(s.queue, i) + s.idleStarts[i] + One(Running(s, i)) + One(Destroyed(s, i)) == 1
    ensures i in s.notifs <==> !Destroyed(s, i)
    ensures Legal(History(s, i))
  {
    InvConsistent(s);
    IncreasingOccursOnce(s.queue, i);
    QueueIsFresh(s.dequeued, s.queue);
    assert GoodSlice(SliceOf(s, i));
    RequestTally(History(s, i));
    if !LifeOf(History(s, i)).phase.Waiting? {
      BegunTally(History(s, i));
    }
  }

  lemma {:induction false} BegunTally(t: seq<Action>)
    requires Legal(t) && !LifeOf(t).phase.Waiting?
    ensures !LifeOf(t).phase.Shut? && !LifeOf(t).phase.Gone? ==> Count(t, Starts) == 1
  {
    PrefixesAreLegal(t, |t| - 1);
    var u := t[..|t| - 1];
    RequestTally(t);
    RequestTally(u);
    if !LifeOf(u).phase.Waiting? {
      BegunTally(u);
    }
  }

  /**
   In every reachable state each accepted notification is once in the queue, or once due to start, or
   running, or destroyed; nothing that the manager or the policy names is destroyed; and ids have left
   the queue in the order in which they were accepted.
   */
  lemma OwnershipPartition(s: State)
    requires Reachable(s)
    ensures forall i :: 1 <= i <= s.lastId ==>
              Occurrences(s.queue, i) + s.idleStarts[i] + One(Running(s, i)) + One(Destroyed(s, i)) == 1
    ensures s.current.Some? ==> Running(s, s.current.value)
    ensures forall i :: i in s.requests ==> Running(s, i)
    ensures forall c :: c in s.owner ==> Running(s, s.owner[c])
    ensures Increasing(s.dequeued + s.queue)
  {
    ReachableInv(s);
    forall i | 1 <= i <= s.lastId
      ensures Occurrences(s.queue, i) + s.idleStarts[i] + One(Running(s, i)) + One(Destroyed(s, i)) == 1
    {
      PartitionHolds(s, i);
    }
    if s.current.Some? {
      StartedRuns(s, s.current.value);
    }
    forall i | i in s.requests ensures Running(s, i) {
      RequestedIsStarted(s, i);
      StartedRuns(s, i);
    }
    forall c | c in s.owner ensures Running(s, s.owner[c]) {
      OwnerIsStarted(s, c);
      StartedRuns(s, s.owner[c]);
    }
  }

  lemma StartedRuns(s: State, i: int)
    requires Inv(s) && i in s.notifs && PlaceOf(s, i).Started?
    ensures Running(s, i)
  {
    assert GoodSlice(SliceOf(s, i));
    RequestTally(History(s, i));
    BegunTally(History(s, i));
  }

  // ---------------------------------------------------------------- histories

  /**
   Every history of every run is legal. With the lemmas of Lifecycle: begun, asked for, stopped and
   destroyed at most once, played at most three times, play and stop alternating, shut down only when
   silent and released; a cancelled or refused notification is never played.
   */
  lemma EveryHistoryIsLegal(s: State, i: int)
    requires Reachable(s) && i in s.trace
    ensures Legal(s.trace[i])
    ensures Count(s.trace[i], Plays) <= 3 && Count(s.trace[i], Starts) <= 1 && Count(s.trace[i], Destructions) <= 1
    ensures Count(s.trace[i], Destructions) == 1 <==> i !in s.notifs
  {
    ReachableInv(s);
    PartitionHolds(s, i);
    LegalCounts(s.trace[i]);
  }

  /**
   A finish that comes before the play reply wins in every run: the notification is never played, and
   after its late reply there is one stop request, then shutdown and destruction.
   */
  lemma OvertakingStopWins(s: State, i: int, k: nat)
    requires Reachable(s) && i in s.trace && k < |s.trace[i]| && s.trace[i][k].Cancel?
    ensures forall j :: 0 <= j < |s.trace[i]| ==> !s.trace[i][j].Sounded? && !s.trace[i][j].Failed?
    ensures IsEnding(s.trace[i][k + 1..]) || forall j :: k < j < |s.trace[i]| ==> s.trace[i][j].Cancel?
  {
    EveryHistoryIsLegal(s, i);
    CancelledIsUnplayed(s.trace[i], k);
    CancelWins(s.trace[i], k);
  }

  lemma CancelledIsUnplayed(t: seq<Action>, k: nat)
    requires Legal(t) && k < |t| && t[k].Cancel?
    ensures forall j :: 0 <= j < |t| ==> !t[j].Sounded? && !t[j].Failed?
  {
    CancelWins(t, k);
    PrefixesAreLegal(t, k + 1);
    CancelWins(t[..k + 1], k);
    forall j | 0 <= j < |t| ensures !t[j].Sounded? && !t[j].Failed? {
      if j <= k {
        UnplayedBefore(t[..k + 1], j);
      } else if !LifeOf(t).phase.Turned? {
        assert t[j] == t[k + 1..][j - k - 1];
      }
    }
  }

  lemma {:induction false} UnplayedBefore(t: seq<Action>, j: nat)
    requires Legal(t) && j < |t|
    requires var p := LifeOf(t).phase; p.Waiting? || p.Begun? || p.Asked? || p.Turned? || p.Cancelled?
    ensures !t[j].Sounded? && !t[j].Failed?
  {
    PrefixesAreLegal(t, |t| - 1);
    if j < |t| - 1 {
      UnplayedBefore(t[..|t| - 1], j);
    }
  }

  /** Once no reply and no idle finish of it is pending, a cancelled notification is gone, unless it was refused. */
  lemma CancelledIsDestroyed(s: State, i: int)
    requires Reachable(s) && i in s.trace && Cancel in s.trace[i] && Refused !in s.trace[i]
    requires i !in s.requests && i !in s.idleFinishes
    ensures i !in s.notifs
  {
    ReachableInv(s);
    var t := s.trace[i];
    assert GoodSlice(SliceOf(s, i));
    if i in s.notifs {
      var k :| 0 <= k < |t| && t[k] == Cancel;
      CancelWins(t, k);
      RefusedIsRemembered(t);
    }
  }

  /**
   A manager with nothing pending has settled: whoever is left waits in the queue, was refused, or has
   been told to play and not to stop.
   */
  lemma SettledManager(s: State, i: int)
    requires Reachable(s) && i in s.notifs
    requires s.requests == map[] && s.idleStarts == multiset{} && s.idleFinishes == multiset{}
    ensures i in s.queue || Refused in History(s, i) || (s.notifs[i].status == Playing && !s.notifs[i].stopped)
  {
    ReachableInv(s);
    assert GoodSlice(SliceOf(s, i));
    if i !in s.queue && s.notifs[i].status == Initialized {
      RefusedIsRemembered(History(s, i));
    }
  }

  /** The playing flag agrees with what the implementation holds, vibration included. */
  lemma PlayingAgrees(s: State, i: int)
    requires Reachable(s) && i in s.notifs
    ensures var n := s.notifs[i];
            && (n.playing ==> Impl.Sounding(n.order, n.granted, n.held) && n.status == Playing)
            && (n.playing ==>
                  (n.held.vibra <==>
                     && n.order.vibraEnabled && !n.Category().System? && !n.Category().Critical?
                     && (|| n.held.announced
                         || (IsMessage(n.Category()) && !n.held.playback)
                         || (n.Category().Ringtone? && n.granted && !n.order.soundEnabled))))
            && (!n.playing ==> !n.held.playback && !n.held.tone && !n.held.timer && !n.held.step)
            && (!n.playing && n.held.vibra ==> IsMessage(n.Category()) && !n.granted)
    ensures s.notifs[i].playing <==> LifeOf(History(s, i)).sounding
  {
    ReachableInv(s);
    assert GoodSlice(SliceOf(s, i));
  }

  /** Two notifications of one asynchronous class that asked for permission never play at the same time. */
  lemma PlaysAlone(s: State, i: int, j: int)
    requires Reachable(s) && i in s.notifs && j in s.notifs && i != j
    requires s.notifs[i].playing && s.notifs[i].policy && s.notifs[j].playing && s.notifs[j].policy
    requires Asynchronous(s.notifs[i].Class())
    ensures s.notifs[i].Class() != s.notifs[j].Class()
  {
    ReachableInv(s);
    assert GoodSlice(SliceOf(s, i)) && GoodSlice(SliceOf(s, j));
  }

  /** So no two ringtones, no two alarms and no two messages that asked play at the same time. */
  lemma KindsPlayAlone(s: State, i: int, j: int)
    requires Reachable(s) && i in s.notifs && j in s.notifs && i != j
    requires s.notifs[i].playing && s.notifs[i].policy && s.notifs[j].playing && s.notifs[j].policy
    ensures var c, d := s.notifs[i].order.category, s.notifs[j].order.category;
            && !(c.Ringtone? && d.Ringtone?)
            && !((c.Clock? || c.Calendar?) && (d.Clock? || d.Calendar?))
            && !((c.Sms? || c.Email? || c.Chat? || c.Sound?) && (d.Sms? || d.Email? || d.Chat? || d.Sound?))
  {
    hide Reachable;
    if Asynchronous(s.notifs[i].Class()) {
      PlaysAlone(s, i, j);
    }
  }

  // ---------------------------------------------------------------- settling

  function Total(s: State, k: nat): nat {
    if k == 0 then 0 else Weight(SliceOf(s, k)) + Total(s, k - 1)
  }

  function Measure(s: State): nat
    requires s.lastId >= 0
  {
    Total(s, s.lastId)
  }

  lemma {:induction false} TotalFalls(s: State, r: State, k: nat)
    requires forall j :: 1 <= j <= k ==> Weight(SliceOf(r, j)) <= Weight(SliceOf(s, j))
    ensures Total(r, k) <= Total(s, k)
    ensures (exists i :: 1 <= i <= k && Weight(SliceOf(r, i)) < Weight(SliceOf(s, i))) ==> Total(r, k) < Total(s, k)
  {
    if k > 0 {
      TotalFalls(s, r, k - 1);
    }
  }

  /** Every step but an input either changes nothing or lowers the measure. */
  lemma StepSettles(s: State, e: Event)
    requires Inv(s) && Enabled(s, e) && !IsInput(e)
    ensures Inv(Step(s, e))
    ensures Step(s, e) == s || Measure(Step(s, e)) < Measure(s)
  {
    var r := Step(s, e);
    StepWorks(s, e);
    if r != s {
      var i :| Weight(SliceOf(r, i)) < Weight(SliceOf(s, i));
      assert i in s.notifs;
      TotalFalls(s, r, s.lastId);
    }
  }

  ghost function EffectiveSteps(s: State, es: seq<Event>): nat
    requires Inv(s) && Possible(s, es)
    decreases |es|
  {
    if es == [] then 0
    else
      StepKeepsInv(s, es[0]);
      One(Step(s, es[0]) != s) + EffectiveSteps(Step(s, es[0]), es[1..])
  }

  /** Without new inputs the manager settles: the measure bounds the steps that still do something. */
  lemma {:induction false} Settles(s: State, es: seq<Event>)
    requires Inv(s) && Possible(s, es)
    requires forall e :: e in es ==> !IsInput(e)
    ensures Inv(Run(s, es))
    ensures EffectiveSteps(s, es) + Measure(Run(s, es)) <= Measure(s)
    decreases |es|
  {
    if es != [] {
      assert es[0] in es;
      StepSettles(s, es[0]);
      assert forall e :: e in es[1..] ==> e in es;
      Settles(Step(s, es[0]), es[1..]);
    }
  }
}
