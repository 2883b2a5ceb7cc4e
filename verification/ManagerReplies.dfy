/**
 Starting, leaving a waiting place, the permission replies and the stop command keep the invariant.
 */
module ManagerReplies {
  import opened Wrappers
  import opened Categories
  import opened Lifecycle
  import opened Manager
  import opened ManagerInvariant
  import opened ManagerSteps
  import Impl = Implementations

  // ---------------------------------------------------------------- leaving a waiting place

  /** r is s with i in no waiting place. */
  ghost predicate TakesOut(s: State, r: State, i: int) {
    && r == s.(queue := r.queue, idleStarts := r.idleStarts)
    && (forall j {:trigger j in r.queue} {:trigger j in s.queue} :: j in r.queue <==> j in s.queue && j != i)
    && (forall j :: j != i ==> r.idleStarts[j] == s.idleStarts[j])
    && r.idleStarts[i] == 0
    && Increasing(r.dequeued + r.queue)
  }

  lemma TakenOutShape(s: State, r: State, i: int)
    requires Inv(s) && i in s.notifs && !PlaceOf(s, i).Started? && TakesOut(s, r, i)
    ensures Shape(r)
  {
    assert forall j :: j in s.queue ==> j in s.notifs;
    forall k | 0 <= k < |r.queue| ensures r.queue[k] in r.notifs {
      var j := r.queue[k];
      assert j in r.queue;
      assert j in s.queue;
    }
  }

  lemma TakenOut(s: State, r: State, i: int)
    requires Inv(s) && i in s.notifs && !PlaceOf(s, i).Started? && TakesOut(s, r, i)
    ensures Unbegun(r, i) && SameShape(s, r)
    ensures forall j {:trigger SliceOf(r, j)} :: j != i ==> SliceOf(r, j) == SliceOf(s, j)
  {
    TakenOutShape(s, r, i);
    assert GoodSlice(SliceOf(s, i));
    forall j | j != i ensures SliceOf(r, j) == SliceOf(s, j) {
      assert PlaceOf(r, j) == PlaceOf(s, j);
    }
  }

  lemma DueUnbegun(s: State, i: int)
    requires Inv(s) && i in s.idleStarts
    ensures var r := s.(idleStarts := s.idleStarts - multiset{i});
            Unbegun(r, i) && SameShape(s, r) && forall j {:trigger SliceOf(r, j)} :: j != i ==> SliceOf(r, j) == SliceOf(s, j)
  {
    QueueIsFresh(s.dequeued, s.queue);
    TakenOut(s, s.(idleStarts := s.idleStarts - multiset{i}), i);
  }

  lemma {:induction false} WithoutMembers(q: seq<int>, i: int)
    requires Increasing(q)
    ensures forall j :: j in Without(q, i) <==> j in q && j != i
  {
    if q != [] {
      WithoutMembers(q[1..], i);
      assert q == [q[0]] + q[1..];
    }
  }

  /** r is q without its k-th element. */
  ghost predicate OneLess(q: seq<int>, r: seq<int>, k: nat) {
    && k < |q| && |r| == |q| - 1
    && forall j {:trigger r[j]} :: 0 <= j < |r| ==> r[j] == q[if j < k then j else j + 1]
  }

  lemma {:induction false} WithoutIsOneLess(q: seq<int>, i: int) returns (k: nat)
    requires i in q
    ensures OneLess(q, Without(q, i), k)
  {
    k := 0;
    if q[0] != i {
      var j := WithoutIsOneLess(q[1..], i);
      OneLessBehind(q[0], q[1..], Without(q[1..], i), j);
      assert q == [q[0]] + q[1..];
      k := j + 1;
    }
  }

  lemma OneLessBehind(h: int, q: seq<int>, r: seq<int>, k: nat)
    requires OneLess(q, r, k)
    ensures OneLess([h] + q, [h] + r, k + 1)
  {
    forall j | 0 < j < |r| + 1 ensures ([h] + r)[j] == ([h] + q)[if j < k + 1 then j else j + 1] {
      assert ([h] + r)[j] == r[j - 1];
    }
  }

  lemma {:induction false} WithoutNothing(q: seq<int>, i: int)
    requires i !in q
    ensures Without(q, i) == q
  {
    if q != [] {
      WithoutNothing(q[1..], i);
    }
  }

  lemma OneLessIncreases(d: seq<int>, q: seq<int>, r: seq<int>, k: nat)
    requires Increasing(d + q) && OneLess(q, r, k)
    ensures Increasing(d + r)
  {
    var n := |d|;
    forall a, b | 0 <= a < b < n + |r| ensures (d + r)[a] < (d + r)[b] {
      assert (d + r)[a] == (d + q)[if a < n + k then a else a + 1];
      assert (d + r)[b] == (d + q)[if b < n + k then b else b + 1];
    }
  }

  lemma WithoutIncreasing(d: seq<int>, q: seq<int>, i: int)
    requires Increasing(d + q)
    ensures Increasing(d + Without(q, i))
  {
    if i in q {
      var k := WithoutIsOneLess(q, i);
      OneLessIncreases(d, q, Without(q, i), k);
    } else {
      WithoutNothing(q, i);
    }
  }

  lemma QueuedUnbegun(s: State, i: int)
    requires Inv(s) && i in s.queue
    ensures var r := s.(queue := Without(s.queue, i));
            Unbegun(r, i) && SameShape(s, r) && forall j {:trigger SliceOf(r, j)} :: j != i ==> SliceOf(r, j) == SliceOf(s, j)
  {
    InvConsistent(s);
    WithoutMembers(s.queue, i);
    WithoutIncreasing(s.dequeued, s.queue, i);
    QueueIsFresh(s.dequeued, s.queue);
    TakenOut(s, s.(queue := Without(s.queue, i)), i);
  }

  lemma DropKeeps(s: State, i: int)
    requires Inv(s) && i in s.queue
    ensures i in s.notifs && Unstarted(s.notifs[i])
    ensures Keeps(s, Drop(s, i), i) && i !in Drop(s, i).notifs
  {
    var r := s.(queue := Without(s.queue, i));
    var n := s.notifs[i];
    var m := n.(status := Stopped);
    InvConsistent(s);
    QueuedUnbegun(s, i);
    PutChanges(r, i, m);
    LifeOfAppend([], Shutdown(n.order, n.granted, n.held));
    assert [] + [Shutdown(n.order, n.granted, n.held)] == [Shutdown(n.order, n.granted, n.held)];
    DisposedKeeps(Put(r, i, m), i);
    LighterByOne(s, Drop(s, i), i);
  }

  lemma DueWeighs(s: State, i: int)
    requires Inv(s) && i in s.idleStarts
    ensures i in s.notifs && Weight(SliceOf(s, i)) == 800
  {
    QueueIsFresh(s.dequeued, s.queue);
  }

  lemma IdleStartKeeps(s: State, i: int)
    requires Inv(s) && i in s.idleStarts
    ensures i in s.notifs
    ensures var u := s.(idleStarts := s.idleStarts - multiset{i}); Keeps(s, StartNotification(u, i), i)
  {
    DueUnbegun(s, i);
    BeginKeeps(s.(idleStarts := s.idleStarts - multiset{i}), i);
    DueWeighs(s, i);
  }

  // ---------------------------------------------------------------- nsv_notification_start

  lemma AdmittedShape(s: State, n: Notification)
    requires Shape(s)
    ensures Shape(Admitted(s, n)) && s.lastId + 1 !in s.trace && PlaceOf(s, s.lastId + 1).Started?
    ensures s.lastId + 1 !in s.idleFinishes
  {
    hide Weight, LifeOf;
    assert forall i :: i in s.queue ==> i in s.notifs;
  }

  lemma AdmittedOthers(s: State, n: Notification, j: int)
    requires j != s.lastId + 1
    ensures SliceOf(Admitted(s, n), j) == SliceOf(s, j)
  {
  }

  lemma AdmittedUnbegun(s: State, n: Notification)
    requires Inv(s) && n.Fresh()
    ensures Unbegun(Admitted(s, n), s.lastId + 1)
    ensures forall j {:trigger SliceOf(Admitted(s, n), j)} :: j != s.lastId + 1 ==> SliceOf(Admitted(s, n), j) == SliceOf(s, j)
  {
    var r := Admitted(s, n);
    AdmittedShape(s, n);
    forall j | j != s.lastId + 1
      ensures SliceOf(r, j) == SliceOf(s, j) && (j in r.trace ==> GoodSlice(SliceOf(r, j)))
    {
      AdmittedOthers(s, n, j);
      assert j in s.trace ==> GoodSlice(SliceOf(s, j));
    }
  }

  lemma EnqueuedShape(s: State, n: Notification)
    requires Inv(s) && n.Fresh()
    ensures Shape(Enqueued(s, n))
  {
    hide GoodSlice;
    var r := Enqueued(s, n);
    AdmittedShape(s, n);
    var all := s.dequeued + s.queue;
    assert r.dequeued + r.queue == all + [s.lastId + 1];
    forall k | 0 <= k < |all| ensures all[k] <= s.lastId {
      if k >= |s.dequeued| {
        assert s.queue[k - |s.dequeued|] in s.notifs;
      }
    }
    forall i ensures i in r.queue <==> i in s.queue || i == s.lastId + 1 {
    }
  }

  lemma EnqueuedKeeps(s: State, n: Notification)
    requires Inv(s) && n.Fresh()
    ensures Inv(Enqueued(s, n))
    ensures forall j {:trigger SliceOf(Enqueued(s, n), j)} :: j != s.lastId + 1 ==> SliceOf(Enqueued(s, n), j) == SliceOf(s, j)
  {
    hide Shape;
    var u, r := Admitted(s, n), Enqueued(s, n);
    EnqueuedShape(s, n);
    AdmittedUnbegun(s, n);
    forall j ensures (j != s.lastId + 1 ==> SliceOf(r, j) == SliceOf(s, j)) && (j in r.trace ==> GoodSlice(SliceOf(r, j))) {
      if j != s.lastId + 1 {
        assert PlaceOf(r, j) == PlaceOf(u, j);
        assert SliceOf(r, j) == SliceOf(u, j) == SliceOf(s, j);
        assert j in s.trace ==> GoodSlice(SliceOf(s, j));
      } else {
        assert PlaceOf(r, j).Queued?;
      }
    }
  }

  lemma HaltedNotifs(s: State, i: int)
    requires i in s.notifs
    ensures Halted(s, i).notifs.Keys == s.notifs.Keys
  {
    var a := Put(s, i, s.notifs[i].(status := Stopped));
    assert a.notifs.Keys == s.notifs.Keys;
    assert Put(a, i, StopRecord(a.notifs[i])).notifs.Keys == a.notifs.Keys;
  }

  lemma StopPermissionNotifs(s: State, i: int)
    requires i in s.notifs
    ensures StopPermission(s, i).notifs == s.notifs || StopPermission(s, i).notifs == s.notifs - {i}
  {
    DisposedNotifs(Log(s, i, AskStop), i);
  }

  /** Finishing i destroys nothing but i. */
  lemma FinishNotifs(s: State, i: int)
    requires i in s.notifs
    ensures s.notifs.Keys - {i} <= Finish(s, i).notifs.Keys <= s.notifs.Keys
  {
    hide Halted, StopPermission, Disposed;
    if s.notifs[i].status == Unknown || s.notifs[i].status == Playing {
      HaltedNotifs(s, i);
      StopPermissionNotifs(Halted(s, i), i);
      DisposedNotifs(Halted(s, i), i);
    } else {
      assert Put(s, i, s.notifs[i].(stopped := true)).notifs.Keys == s.notifs.Keys;
    }
  }

  lemma DisposedNotifs(s: State, i: int)
    requires i in s.notifs
    ensures Disposed(s, i).notifs == s.notifs - {i} && StartNext(Disposed(s, i)).notifs == s.notifs - {i}
  {
  }

  lemma EnqueuedStarted(s: State, n: Notification, i: int)
    requires Inv(s) && s.current == Some(i)
    ensures i in Enqueued(s, n).notifs && PlaceOf(Enqueued(s, n), i).Started? && i != s.lastId + 1
  {
    AdmittedShape(s, n);
  }

  lemma StartQueuesKeeps(s: State, n: Notification, i: int)
    requires Inv(s) && n.Fresh() && s.current == Some(i)
    ensures i in s.notifs
    ensures var r := Finish(Enqueued(s, n), i);
            Inv(r) && r.lastId == s.lastId + 1 && s.lastId + 1 in r.notifs
  {
    var u := Enqueued(s, n);
    EnqueuedKeeps(s, n);
    EnqueuedStarted(s, n, i);
    FinishKeeps(u, i);
    FinishNotifs(u, i);
    assert s.lastId + 1 in u.notifs;
  }

  lemma StartAtOnceKeeps(s: State, n: Notification)
    requires Inv(s) && n.Fresh()
    ensures Begins(Admitted(s, n), StartNotification(Admitted(s, n), s.lastId + 1), s.lastId + 1)
  {
    AdmittedUnbegun(s, n);
    BeginKeeps(Admitted(s, n), s.lastId + 1);
  }

  lemma StartIs(s: State, n: Notification, initialized: bool)
    requires Consistent(s)
    ensures !Accepts(s, n, initialized) ==> Start(s, n, initialized) == (s, -1)
    ensures Accepts(s, n, initialized) ==> Start(s, n, initialized).1 == s.lastId + 1
    ensures Accepts(s, n, initialized) ==>
              Start(s, n, initialized).0 ==
              if s.current.Some? then Finish(Enqueued(s, n), s.current.value)
              else StartNotification(Admitted(s, n), s.lastId + 1)
  {
  }

  /** The id returned names a live notification; a rejected start changes nothing. */
  lemma StartKeeps(s: State, n: Notification, initialized: bool)
    requires Inv(s) && n.Fresh() && Accepts(s, n, initialized)
    ensures var (r, id) := Start(s, n, initialized);
            Inv(r) && id == s.lastId + 1 == r.lastId && id in r.notifs
  {
    InvConsistent(s);
    StartIs(s, n, initialized);
    if s.current.Some? {
      StartQueuesKeeps(s, n, s.current.value);
    } else {
      StartAtOnceKeeps(s, n);
    }
  }

  // ---------------------------------------------------------------- policy replies

  lemma RequestedIsStarted(s: State, i: int)
    requires Inv(s) && i in s.requests
    ensures InvBut(s, i) && GoodStarted(SliceOf(s, i))
  {
    assert GoodSlice(SliceOf(s, i));
  }

  lemma LateIsGood(v: Slice)
    requires v.Live? && v.place.Started? && GoodStarted(v) && v.request == Some(ForPlay) && v.n.stopped
    ensures var w := Live(Started, v.n.(status := Unknown), None, v.owns, v.finishes + 1, v.t + [LateReply]);
            GoodStarted(w) && Weight(w) < Weight(v)
  {
    LifeOfAppend(v.t, LateReply);
  }

  lemma LateReplyChanges(s: State, i: int, granted: bool)
    requires InvBut(s, i) && s.notifs[i].stopped
    ensures Changes(s, OnPlayReply(s, i, granted), i,
                    Live(Started, s.notifs[i].(status := Unknown), None, Owns(s, i), s.idleFinishes[i] + 1,
                         History(s, i) + [LateReply]))
  {
    var u := s.(requests := s.requests - {i});
    var n := s.notifs[i].(status := Unknown);
    AnswerChanges(s, i);
    PutChanges(u, i, n);
    LogChanges(Put(u, i, n), i, LateReply);
    IdleChanges(Log(Put(u, i, n), i, LateReply), i);
  }

  lemma LateReplyKeeps(s: State, i: int, granted: bool)
    requires Inv(s) && i in s.requests && s.requests[i] == ForPlay && s.notifs[i].stopped
    ensures Keeps(s, OnPlayReply(s, i, granted), i)
  {
    RequestedIsStarted(s, i);
    LateReplyChanges(s, i, granted);
    LateIsGood(SliceOf(s, i));
    ButInv(OnPlayReply(s, i, granted), i);
    LighterByOne(s, OnPlayReply(s, i, granted), i);
  }

  lemma AnsweredIsReady(v: Slice, granted: bool)
    requires v.Live? && v.place.Started? && GoodStarted(v) && v.request == Some(ForPlay) && !v.n.stopped
    ensures Ready(v.(request := None, n := v.n.(status := Playing, granted := granted)), Reply)
    ensures Weight(v) == 600 + v.finishes
  {
  }

  lemma PlayReplyKeeps(s: State, i: int, granted: bool)
    requires Inv(s) && i in s.requests && s.requests[i] == ForPlay && !s.notifs[i].stopped
    ensures Keeps(s, OnPlayReply(s, i, granted), i)
  {
    var u := s.(requests := s.requests - {i});
    RequestedIsStarted(s, i);
    AnswerChanges(s, i);
    PutChanges(u, i, u.notifs[i].(status := Playing, granted := granted));
    AnsweredIsReady(SliceOf(s, i), granted);
    TryNextKeeps(u, i, granted);
    LighterEverywhere(s, OnPlayReply(s, i, granted), i);
  }

  lemma LighterEverywhere(s: State, r: State, i: int)
    requires forall j {:trigger SliceOf(r, j)} :: j != i ==> Untouched(SliceOf(s, j), SliceOf(r, j))
    requires Weight(SliceOf(r, i)) < Weight(SliceOf(s, i))
    ensures Lighter(s, r, i)
  {
  }

  lemma ReleasedChanges(s: State, i: int)
    requires Inv(s) && i in s.requests && s.requests[i] == ForStop
    ensures var u := s.(requests := s.requests - {i}, owner := s.owner - {s.notifs[i].Class()});
            Changes(s, u, i, Live(Started, s.notifs[i], None, false, s.idleFinishes[i], History(s, i)))
  {
    RequestedIsStarted(s, i);
    EditChanges(s, i, s.notifs[i], History(s, i), None, false, 0);
    ReleasedIsEdit(s, i);
  }

  lemma ReleasedIsEdit(s: State, i: int)
    requires i in s.notifs && i in s.trace && Owns(s, i)
    ensures s.(requests := s.requests - {i}, owner := s.owner - {s.notifs[i].Class()})
            == Edit(s, i, s.notifs[i], History(s, i), None, false, 0)
  {
    assert s.idleFinishes[i := s.idleFinishes[i] + 0] == s.idleFinishes;
    assert s.notifs[i := s.notifs[i]] == s.notifs && s.trace[i := History(s, i)] == s.trace;
  }

  lemma StopReplyKeeps(s: State, i: int)
    requires Inv(s) && i in s.requests && s.requests[i] == ForStop
    ensures Keeps(s, OnStopReply(s, i), i)
  {
    hide LifeOf;
    var n := s.notifs[i];
    var u := s.(requests := s.requests - {i}, owner := s.owner - {n.Class()});
    RequestedIsStarted(s, i);
    ReleasedChanges(s, i);
    LifeOfAppend(History(s, i), Shutdown(n.order, n.granted, n.held));
    DisposedKeeps(u, i);
    LighterByOne(s, Disposed(u, i), i);
    ServedKeeps(s, Disposed(u, i), i);
  }

  // ---------------------------------------------------------------- commands

  lemma OwnerIsStarted(s: State, c: PolicyClass)
    requires Inv(s) && c in s.owner
    ensures var i := s.owner[c];
            InvBut(s, i) && GoodStarted(SliceOf(s, i)) && s.notifs[i].Class() == c && Asynchronous(c) && s.notifs[i].policy
  {
    assert GoodSlice(SliceOf(s, s.owner[c]));
  }

  lemma SilencedIsGood(v: Slice)
    requires v.Live? && v.place.Started? && GoodStarted(v) && v.n.playing && Asynchronous(v.n.Class())
    ensures GoodStarted(StopSlice(v)) && Weight(StopSlice(v)) < Weight(v)
  {
    Impl.StopReleasesItsMode(v.n.order, v.n.granted, v.n.held);
    LifeOfAppend(v.t, Silence(v.n.granted));
  }

  lemma CommandStopKeeps(s: State, i: int)
    requires InvBut(s, i) && GoodStarted(SliceOf(s, i)) && Asynchronous(s.notifs[i].Class())
    ensures Keeps(s, Silenced(s, i), i)
  {
    ButInv(s, i);
    if s.notifs[i].playing {
      SilencedChanges(s, i);
      SilencedIsGood(SliceOf(s, i));
      ButInv(Silenced(s, i), i);
      LighterByOne(s, Silenced(s, i), i);
    }
  }
}
