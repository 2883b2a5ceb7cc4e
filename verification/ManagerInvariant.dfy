/**
 The one invariant of the manager. It is stated on slices: what the state says about one accepted
 notification. Each handler changes the slice of the notification it is about and, when it serves
 the queue, the place of the queue's head.
 */
module ManagerInvariant {
  import opened Wrappers
  import opened Categories
  import opened Lifecycle
  import opened Manager
  import Impl = Implementations

  datatype Place = Queued | Due | Started

  datatype Slice =
    | Dead(t: seq<Action>)
    | Live(place: Place, n: Notification, request: Option<Request>, owns: bool, finishes: nat, t: seq<Action>)

  function PlaceOf(s: State, i: int): Place {
    if i in s.queue then Queued else if i in s.idleStarts then Due else Started
  }

  predicate Owns(s: State, i: int)
    requires i in s.notifs
  {
    var c := s.notifs[i].Class();
    c in s.owner && s.owner[c] == i
  }

  function RequestOf(s: State, i: int): Option<Request> {
    if i in s.requests then Some(s.requests[i]) else None
  }

  function SliceOf(s: State, i: int): Slice {
    if i !in s.notifs then Dead(History(s, i))
    else Live(PlaceOf(s, i), s.notifs[i], RequestOf(s, i), Owns(s, i), s.idleFinishes[i], History(s, i))
  }

  /** The playing flag, the private record and the history say the same. */
  predicate Sounds(n: Notification, l: Life) {
    && l.sounding == n.playing && (n.playing ==> l.grant == n.granted)
    && l.fellBack == n.fallback
    && (l.upgraded ==> n.granted)
    && (if n.playing then Impl.Sounding(n.order, n.granted, n.held)
        else Impl.Resting(n.order, n.granted, n.held))
  }

  predicate GoodStarted(v: Slice)
    requires v.Live?
  {
    var n, l := v.n, LifeOf(v.t);
    && n.policy == n.order.UsesPolicy() == l.asked
    && Sounds(n, l)
    && match n.status
       case Initialized =>
         && n.policy && Asynchronous(n.Class()) && !n.playing && !n.fallback && !n.granted && n.held == NOTHING
         && (if v.request.None? then l.phase.Turned? && !v.owns
             else v.request == Some(ForPlay) && v.owns && l.phase == if n.stopped then Cancelled else Asked)
       case Unknown =>
         && n.policy && Asynchronous(n.Class()) && !n.playing && n.stopped
         && v.request.None? && v.owns && v.finishes > 0 && l.phase.Late?
       case Playing =>
         && !n.stopped && v.request.None? && l.phase.Active?
         && v.owns == (n.policy && Asynchronous(n.Class()))
       case Stopped =>
         && n.policy && Asynchronous(n.Class()) && !n.playing
         && v.request == Some(ForStop) && v.owns && l.phase.Stopping?
  }

  predicate GoodSlice(v: Slice) {
    match v
    case Dead(t) => LifeOf(t).phase.Gone?
    case Live(place, n, request, owns, finishes, t) =>
      if place.Started? then GoodStarted(v)
      else n.Fresh() && request.None? && !owns && finishes == 0 && t == []
  }

  /** What the pointers, the queue, the slots and the pending callbacks name. */
  ghost predicate Shape(s: State) {
    && s.lastId >= 0
    && (forall i :: i in s.trace <==> 1 <= i <= s.lastId)
    && s.notifs.Keys <= s.trace.Keys
    && Increasing(s.dequeued + s.queue)
    && (forall k :: 0 <= k < |s.dequeued| ==> 1 <= s.dequeued[k] <= s.lastId)
    && (forall k :: 0 <= k < |s.queue| ==> s.queue[k] in s.notifs)
    && (forall i :: i in s.idleStarts ==> s.idleStarts[i] == 1 && i in s.notifs && i in s.dequeued)
    && (forall i :: i in s.idleFinishes ==> i in s.trace)
    && (s.current.Some? ==> s.current.value in s.notifs && PlaceOf(s, s.current.value).Started?)
    && s.requests.Keys <= s.notifs.Keys
    && (forall c :: c in s.owner ==> s.owner[c] in s.notifs && s.notifs[s.owner[c]].Class() == c)
  }

  ghost predicate Inv(s: State) {
    && Shape(s)
    && forall i {:trigger GoodSlice(SliceOf(s, i))} :: i in s.trace ==> GoodSlice(SliceOf(s, i))
  }

  lemma InitialInv()
    ensures Inv(INITIAL)
  {
  }

  lemma InvConsistent(s: State)
    requires Inv(s)
    ensures Consistent(s)
  {
    assert forall k :: 0 <= k < |s.queue| ==> s.queue[k] == (s.dequeued + s.queue)[|s.dequeued| + k];
    forall k | 0 <= k < |s.queue| ensures Unstarted(s.notifs[s.queue[k]]) {
      assert GoodSlice(SliceOf(s, s.queue[k]));
    }
  }

  // ---------------------------------------------------------------- serving the queue

  lemma QueueIsFresh(done: seq<int>, q: seq<int>)
    requires Increasing(done + q)
    ensures forall i :: i in q ==> i !in done
    ensures q != [] ==> q[0] !in q[1..]
    ensures q != [] ==> done + [q[0]] + q[1..] == done + q
  {
    var all := done + q;
    assert forall k :: 0 <= k < |q| ==> all[|done| + k] == q[k];
    assert forall k :: 0 <= k < |done| ==> all[k] == done[k];
    if q != [] {
      assert forall k :: 0 <= k < |q[1..]| ==> q[1..][k] == all[|done| + 1 + k];
    }
  }

  lemma StartNextPlaces(s: State, i: int)
    requires Shape(s)
    ensures PlaceOf(StartNext(s), i) == if s.queue != [] && i == s.queue[0] then Due else PlaceOf(s, i)
  {
    QueueIsFresh(s.dequeued, s.queue);
    if s.queue != [] {
      assert s.queue == [s.queue[0]] + s.queue[1..];
    }
  }

  lemma StartNextShape(s: State)
    requires Shape(s)
    ensures Shape(StartNext(s))
  {
    QueueIsFresh(s.dequeued, s.queue);
    if s.queue != [] {
      var r := StartNext(s);
      assert s.queue == [s.queue[0]] + r.queue;
      assert r.dequeued == s.dequeued + [s.queue[0]];
      assert s.queue[0] !in s.dequeued;
      assert s.queue[0] in s.notifs;
      forall i | i in r.idleStarts ensures r.idleStarts[i] == 1 && i in r.notifs && i in r.dequeued {
        if i == s.queue[0] {
          assert i in [s.queue[0]];
          assert s.idleStarts[i] == 0;
        }
      }
      if s.current.Some? {
        StartNextPlaces(s, s.current.value);
      }
    }
  }

  /** The head of the queue is due; every other slice stays. */
  function AfterServing(s: State, i: int): Slice {
    if s.queue == [] || i != s.queue[0] || i !in s.notifs then SliceOf(s, i)
    else Live(Due, s.notifs[i], RequestOf(s, i), Owns(s, i), s.idleFinishes[i], History(s, i))
  }

  lemma StartNextSlice(s: State, i: int)
    requires Shape(s)
    ensures SliceOf(StartNext(s), i) == AfterServing(s, i)
  {
    StartNextPlaces(s, i);
  }

  lemma StartNextKeeps(s: State)
    requires Inv(s)
    ensures Inv(StartNext(s))
    ensures forall i {:trigger SliceOf(StartNext(s), i)} :: SliceOf(StartNext(s), i) == AfterServing(s, i)
    ensures s.queue != [] ==> PlaceOf(s, s.queue[0]).Queued?
  {
    var r := StartNext(s);
    StartNextShape(s);
    forall i ensures SliceOf(r, i) == AfterServing(s, i) && (i in r.trace ==> GoodSlice(SliceOf(r, i))) {
      StartNextSlice(s, i);
      if i in s.trace {
        assert GoodSlice(SliceOf(s, i));
        assert s.queue != [] && i == s.queue[0] ==> PlaceOf(s, i).Queued?;
      }
    }
  }

  // ---------------------------------------------------------------- changes to one notification

  /** The invariant for every notification but i, which has been started. */
  ghost predicate InvBut(s: State, i: int) {
    && Shape(s)
    && i in s.notifs && PlaceOf(s, i).Started?
    && forall j {:trigger GoodSlice(SliceOf(s, j))} :: j in s.trace && j != i ==> GoodSlice(SliceOf(s, j))
  }

  /** r is s but for the slice of i. */
  ghost predicate Only(s: State, r: State, i: int) {
    && r.queue == s.queue && r.dequeued == s.dequeued && r.idleStarts == s.idleStarts
    && r.lastId == s.lastId && r.current == s.current && r.systemAllowed == s.systemAllowed
    && forall j {:trigger SliceOf(r, j)} :: j != i ==> SliceOf(r, j) == SliceOf(s, j)
  }

  ghost predicate Changes(s: State, r: State, i: int, v: Slice) {
    InvBut(r, i) && Only(s, r, i) && SliceOf(r, i) == v
  }

  /** s with another slice for the started notification i. */
  function Edit(s: State, i: int, n: Notification, t: seq<Action>, request: Option<Request>, owns: bool, more: nat): State
    requires i in s.notifs
  {
    var c := s.notifs[i].Class();
    s.(notifs := s.notifs[i := n],
       trace := s.trace[i := t],
       requests := if request.None? then s.requests - {i} else s.requests[i := request.value],
       owner := if owns then s.owner[c := i] else if Owns(s, i) then s.owner - {c} else s.owner,
       idleFinishes := s.idleFinishes[i := s.idleFinishes[i] + more])
  }

  ghost predicate CanEdit(s: State, i: int, n: Notification, owns: bool) {
    && Shape(s) && i in s.notifs && PlaceOf(s, i).Started?
    && n.Class() == s.notifs[i].Class()
    && (owns ==> n.Class() !in s.owner || Owns(s, i))
  }

  lemma EditShape(s: State, i: int, n: Notification, t: seq<Action>, request: Option<Request>, owns: bool, more: nat)
    requires CanEdit(s, i, n, owns)
    ensures Shape(Edit(s, i, n, t, request, owns, more))
  {
  }

  lemma EditOthers(s: State, i: int, n: Notification, t: seq<Action>, request: Option<Request>, owns: bool, more: nat, j: int)
    requires CanEdit(s, i, n, owns) && j != i
    ensures SliceOf(Edit(s, i, n, t, request, owns, more), j) == SliceOf(s, j)
  {
  }

  lemma EditSlice(s: State, i: int, n: Notification, t: seq<Action>, request: Option<Request>, owns: bool, more: nat)
    requires CanEdit(s, i, n, owns)
    ensures SliceOf(Edit(s, i, n, t, request, owns, more), i)
            == Live(Started, n, request, owns, s.idleFinishes[i] + more, t)
  {
  }

  lemma EditChanges(s: State, i: int, n: Notification, t: seq<Action>, request: Option<Request>, owns: bool, more: nat)
    requires InvBut(s, i) && CanEdit(s, i, n, owns)
    ensures Changes(s, Edit(s, i, n, t, request, owns, more), i,
                    Live(Started, n, request, owns, s.idleFinishes[i] + more, t))
  {
    var r := Edit(s, i, n, t, request, owns, more);
    EditShape(s, i, n, t, request, owns, more);
    EditSlice(s, i, n, t, request, owns, more);
    forall j | j != i ensures SliceOf(r, j) == SliceOf(s, j) {
      EditOthers(s, i, n, t, request, owns, more, j);
    }
  }

  // ---------------------------------------------------------------- the building blocks as edits

  /** The requests, the slots and the pending callbacks stay. */
  lemma SameEdit(s: State, i: int, n: Notification, t: seq<Action>)
    requires i in s.notifs
    ensures Edit(s, i, n, t, RequestOf(s, i), Owns(s, i), 0) == s.(notifs := s.notifs[i := n], trace := s.trace[i := t])
  {
    assert s.idleFinishes[i := s.idleFinishes[i] + 0] == s.idleFinishes;
  }

  lemma LogIsEdit(s: State, i: int, a: Action)
    requires i in s.notifs
    ensures Log(s, i, a) == Edit(s, i, s.notifs[i], History(s, i) + [a], RequestOf(s, i), Owns(s, i), 0)
  {
    SameEdit(s, i, s.notifs[i], History(s, i) + [a]);
    assert s.notifs[i := s.notifs[i]] == s.notifs;
  }

  lemma IdleIsEdit(s: State, i: int)
    requires i in s.notifs && i in s.trace
    ensures s.(idleFinishes := s.idleFinishes + multiset{i})
            == Edit(s, i, s.notifs[i], History(s, i), RequestOf(s, i), Owns(s, i), 1)
  {
    assert s.idleFinishes + multiset{i} == s.idleFinishes[i := s.idleFinishes[i] + 1];
    assert s.notifs[i := s.notifs[i]] == s.notifs && s.trace[i := History(s, i)] == s.trace;
  }

  lemma AnswerIsEdit(s: State, i: int)
    requires i in s.notifs && i in s.trace
    ensures s.(requests := s.requests - {i}) == Edit(s, i, s.notifs[i], History(s, i), None, Owns(s, i), 0)
  {
    assert s.idleFinishes[i := s.idleFinishes[i] + 0] == s.idleFinishes;
    assert s.notifs[i := s.notifs[i]] == s.notifs && s.trace[i := History(s, i)] == s.trace;
  }

  lemma AskIsEdit(s: State, i: int, q: Request)
    requires i in s.notifs && i in s.trace
    ensures s.(owner := s.owner[s.notifs[i].Class() := i], requests := s.requests[i := q])
            == Edit(s, i, s.notifs[i], History(s, i), Some(q), true, 0)
  {
    assert s.idleFinishes[i := s.idleFinishes[i] + 0] == s.idleFinishes;
    assert s.notifs[i := s.notifs[i]] == s.notifs && s.trace[i := History(s, i)] == s.trace;
  }

  lemma PutChanges(s: State, i: int, n: Notification)
    requires InvBut(s, i) && n.Class() == s.notifs[i].Class()
    ensures Changes(s, Put(s, i, n), i, Live(Started, n, RequestOf(s, i), Owns(s, i), s.idleFinishes[i], History(s, i)))
  {
    SameEdit(s, i, n, History(s, i));
    assert s.trace[i := History(s, i)] == s.trace;
    EditChanges(s, i, n, History(s, i), RequestOf(s, i), Owns(s, i), 0);
  }

  lemma LogChanges(s: State, i: int, a: Action)
    requires InvBut(s, i)
    ensures Changes(s, Log(s, i, a), i, 
                    Live(Started, s.notifs[i], RequestOf(s, i), Owns(s, i), s.idleFinishes[i], History(s, i) + [a]))
  {
    var t := History(s, i) + [a];
    LogIsEdit(s, i, a);
    EditChanges(s, i, s.notifs[i], t, RequestOf(s, i), Owns(s, i), 0);
  }

  lemma AskChanges(s: State, i: int, q: Request)
    requires InvBut(s, i) && (s.notifs[i].Class() !in s.owner || Owns(s, i))
    ensures Changes(s, s.(owner := s.owner[s.notifs[i].Class() := i], requests := s.requests[i := q]), i,
                    Live(Started, s.notifs[i], Some(q), true, s.idleFinishes[i], History(s, i)))
  {
    AskIsEdit(s, i, q);
    EditChanges(s, i, s.notifs[i], History(s, i), Some(q), true, 0);
  }

  lemma AnswerChanges(s: State, i: int)
    requires InvBut(s, i)
    ensures Changes(s, s.(requests := s.requests - {i}), i, 
                    Live(Started, s.notifs[i], None, Owns(s, i), s.idleFinishes[i], History(s, i)))
  {
    AnswerIsEdit(s, i);
    EditChanges(s, i, s.notifs[i], History(s, i), None, Owns(s, i), 0);
  }

  lemma IdleChanges(s: State, i: int)
    requires InvBut(s, i)
    ensures Changes(s, s.(idleFinishes := s.idleFinishes + multiset{i}), i,
                    Live(Started, s.notifs[i], RequestOf(s, i), Owns(s, i), s.idleFinishes[i] + 1, History(s, i)))
  {
    IdleIsEdit(s, i);
    EditChanges(s, i, s.notifs[i], History(s, i), RequestOf(s, i), Owns(s, i), 1);
  }
}
