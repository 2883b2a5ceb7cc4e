/**
 What stopping by id, by sender and by category removes from the queue.
 */
module ManagerStops {
  import opened Wrappers
  import opened Categories
  import opened Manager
  import opened ManagerInvariant
  import opened ManagerSteps
  import opened ManagerReplies
  import opened ManagerRuns
  import opened ManagerQueue

  /** r is s without the queued notifications in ids, which are destroyed; nothing else happened. */
  ghost predicate Removes(s: State, r: State, ids: set<int>, q: seq<int>) {
    && r.queue == q && r.notifs == s.notifs - ids
    && r.current == s.current && r.idleStarts == s.idleStarts && r.idleFinishes == s.idleFinishes
    && r.owner == s.owner && r.requests == s.requests && r.lastId == s.lastId
  }

  lemma DropRemoves(s: State, i: int)
    requires Inv(s) && i in s.queue
    ensures i in s.notifs && Removes(s, Drop(s, i), {i}, Without(s.queue, i))
  {
    InvConsistent(s);
    DropTakesOne(s, i);
    var u := s.(queue := Without(s.queue, i));
    HaltedFrame(u, i);
    DisposedFrame(Halted(u, i), i);
    assert s.current != Some(i);
    HaltedUnstarted(u, i);
  }

  lemma HaltedUnstarted(u: State, i: int)
    requires i in u.notifs && Unstarted(u.notifs[i])
    ensures var r := Finish(u, i); r.requests == u.requests && r.idleFinishes == u.idleFinishes && r.lastId == u.lastId
  {
  }

  // ---------------------------------------------------------------- by category

  /** The ids of the other categories, in queue order. */
  function Others(s: State, q: seq<int>, c: Category): seq<int>
    requires forall k :: 0 <= k < |q| ==> q[k] in s.notifs
  {
    if q == [] then []
    else if s.notifs[q[0]].Category() != c then [q[0]] + Others(s, q[1..], c)
    else Others(s, q[1..], c)
  }

  function WithoutAll(q: seq<int>, ids: seq<int>): seq<int>
    decreases |ids|
  {
    if ids == [] then q else WithoutAll(Without(q, ids[0]), ids[1..])
  }

  lemma {:induction false} WithoutAllBehind(h: int, q: seq<int>, ids: seq<int>)
    requires h !in ids
    ensures WithoutAll([h] + q, ids) == [h] + WithoutAll(q, ids)
    decreases |ids|
  {
    if ids != [] {
      assert ([h] + q)[1..] == q;
      WithoutAllBehind(h, Without(q, ids[0]), ids[1..]);
    }
  }

  lemma {:induction false} WithoutAllFilters(s: State, q: seq<int>, c: Category)
    requires forall k :: 0 <= k < |q| ==> q[k] in s.notifs
    requires Increasing(q)
    ensures WithoutAll(q, OfCategory(s, q, c)) == Others(s, q, c)
  {
    if q != [] {
      var h, t := q[0], q[1..];
      var ids := OfCategory(s, t, c);
      WithoutAllFilters(s, t, c);
      assert q == [h] + t;
      if s.notifs[h].Category() == c {
        assert OfCategory(s, q, c)[1..] == ids;
      } else {
        assert forall i :: i in ids ==> i in t;
        WithoutAllBehind(h, t, ids);
      }
    }
  }

  function ToSet(ids: seq<int>): set<int> {
    set i | i in ids
  }

  lemma ToSetHead(ids: seq<int>)
    requires ids != []
    ensures ToSet(ids) == {ids[0]} + ToSet(ids[1..])
  {
    assert ids == [ids[0]] + ids[1..];
  }

  lemma RemovesOneMore(s: State, u: State, r: State, ids: seq<int>)
    requires ids != []
    requires Removes(s, u, {ids[0]}, Without(s.queue, ids[0]))
    requires Removes(u, r, ToSet(ids[1..]), WithoutAll(u.queue, ids[1..]))
    ensures Removes(s, r, ToSet(ids), WithoutAll(s.queue, ids))
  {
    ToSetHead(ids);
    assert s.notifs - {ids[0]} - ToSet(ids[1..]) == s.notifs - ToSet(ids);
  }

  lemma {:induction false} DropAllRemoves(s: State, ids: seq<int>)
    requires Inv(s) && Increasing(ids)
    requires forall k :: 0 <= k < |ids| ==> ids[k] in s.queue && ids[k] in s.notifs && Unstarted(s.notifs[ids[k]])
    ensures Removes(s, DropAll(s, ids), ToSet(ids), WithoutAll(s.queue, ids))
    decreases |ids|
  {
    if ids != [] {
      var u := Drop(s, ids[0]);
      DropRemoves(s, ids[0]);
      DropKeeps(s, ids[0]);
      DropLeaves(s, ids);
      DropAllRemoves(u, ids[1..]);
      RemovesOneMore(s, u, DropAll(u, ids[1..]), ids);
    }
  }

  lemma OfCategoryAreDroppable(s: State, c: Category)
    requires Inv(s)
    ensures Consistent(s)
    ensures var ids := OfCategory(s, s.queue, c);
            && Increasing(ids)
            && forall k :: 0 <= k < |ids| ==> ids[k] in s.queue && ids[k] in s.notifs && Unstarted(s.notifs[ids[k]])
  {
    InvConsistent(s);
    var ids := OfCategory(s, s.queue, c);
    OfCategoryIncreasing(s, s.queue, c);
    forall k | 0 <= k < |ids| ensures ids[k] in s.queue && ids[k] in s.notifs && Unstarted(s.notifs[ids[k]]) {
      assert ids[k] in ids;
    }
  }

  /** When the current notification is of another category, exactly the queued ones of c go. */
  lemma FinishByCategoryFilters(s: State, c: Category)
    requires Inv(s) && (s.current.Some? && s.current.value in s.notifs ==> s.notifs[s.current.value].Category() != c)
    ensures Consistent(s)
    ensures Removes(s, FinishByCategory(s, c), ToSet(OfCategory(s, s.queue, c)), Others(s, s.queue, c))
    ensures forall i :: i in ToSet(OfCategory(s, s.queue, c)) <==> i in s.queue && i in s.notifs && s.notifs[i].Category() == c
  {
    OfCategoryAreDroppable(s, c);
    OfCategoryIs(s, s.queue, c);
    WithoutAllFilters(s, s.queue, c);
    DropAllRemoves(s, OfCategory(s, s.queue, c));
  }

  lemma {:induction false} OfCategoryIs(s: State, q: seq<int>, c: Category)
    requires forall k :: 0 <= k < |q| ==> q[k] in s.notifs
    ensures forall i :: i in OfCategory(s, q, c) <==> i in q && i in s.notifs && s.notifs[i].Category() == c
  {
    if q != [] {
      OfCategoryIs(s, q[1..], c);
      assert q == [q[0]] + q[1..];
    }
  }

  // ---------------------------------------------------------------- by sender and by id

  lemma {:induction false} FirstSentByIsFirst(s: State, q: seq<int>, sender: string)
    requires forall k :: 0 <= k < |q| ==> q[k] in s.notifs
    ensures var f := FirstSentBy(s, q, sender);
            && (f.None? <==> forall k :: 0 <= k < |q| ==> !SentBy(s.notifs[q[k]], sender))
            && (f.Some? ==> exists k :: 0 <= k < |q| && q[k] == f.value &&
                                        forall j :: 0 <= j < k ==> !SentBy(s.notifs[q[j]], sender))
  {
    if q != [] {
      var f := FirstSentBy(s, q, sender);
      if SentBy(s.notifs[q[0]], sender) {
        assert q[0] == f.value;
      } else {
        FirstSentByIsFirst(s, q[1..], sender);
        if f.Some? {
          var k :| 0 <= k < |q[1..]| && q[1..][k] == f.value &&
                   forall j :: 0 <= j < k ==> !SentBy(s.notifs[q[1..][j]], sender);
          assert q[k + 1] == f.value;
          forall j | 0 <= j < k + 1 ensures !SentBy(s.notifs[q[j]], sender) {
            if j > 0 {
              assert q[j] == q[1..][j - 1];
            }
          }
        } else {
          forall k | 0 <= k < |q| ensures !SentBy(s.notifs[q[k]], sender) {
            if k > 0 {
              assert q[k] == q[1..][k - 1];
            }
          }
        }
      }
    }
  }

  /** When the current notification is not the sender's, only the first queued one of the sender goes. */
  lemma FinishBySenderTakesFirst(s: State, sender: string)
    requires Inv(s) && (s.current.Some? && s.current.value in s.notifs ==> !SentBy(s.notifs[s.current.value], sender))
    ensures Consistent(s)
    ensures var r := FinishBySender(s, sender);
            if exists k :: 0 <= k < |s.queue| && SentBy(s.notifs[s.queue[k]], sender)
            then exists k :: 0 <= k < |s.queue| && SentBy(s.notifs[s.queue[k]], sender)
                             && (forall j :: 0 <= j < k ==> !SentBy(s.notifs[s.queue[j]], sender))
                             && Removes(s, r, {s.queue[k]}, Without(s.queue, s.queue[k]))
            else r == s
  {
    InvConsistent(s);
    FirstSentByIsFirst(s, s.queue, sender);
    var f := FirstSentBy(s, s.queue, sender);
    if f.Some? {
      DropRemoves(s, f.value);
    }
  }

  /** A stop by id finishes the current notification of that id, or removes the queued one, or does nothing. */
  lemma StopByIdTakesOne(s: State, id: int)
    requires Inv(s)
    ensures Consistent(s)
    ensures s.current == Some(id) ==> id in s.notifs && StopById(s, id) == Finish(s, id)
    ensures s.current != Some(id) && id in s.queue ==> Removes(s, StopById(s, id), {id}, Without(s.queue, id))
    ensures s.current != Some(id) && id !in s.queue ==> StopById(s, id) == s
  {
    InvConsistent(s);
    if s.current != Some(id) && id in s.queue {
      DropRemoves(s, id);
    }
  }

  // ---------------------------------------------------------------- whom it concerns

  /** A ringtone that the sender asked for: the only notifications that end with their sender. */
  predicate Called(n: Notification, sender: string) {
    n.order.category.Ringtone? && n.order.sender.Some? && n.order.sender.value == sender
  }

  lemma CalledIsSentBy(n: Notification, sender: string)
    ensures Called(n, sender) <==> SentBy(n, sender)
  {
  }

  /** Everybody but i keeps its slice, or is made due. */
  ghost predicate OnlyConcerns(s: State, r: State, i: int) {
    forall j {:trigger SliceOf(s, j)} :: j != i ==> Untouched(SliceOf(s, j), SliceOf(r, j))
  }

  lemma KeepsConcerns(s: State, r: State, i: int)
    requires Keeps(s, r, i)
    ensures OnlyConcerns(s, r, i)
  {
    hide Inv, SliceOf;
    forall j | j != i ensures Untouched(SliceOf(s, j), SliceOf(r, j)) {
      if r != s {
        assert Untouched(SliceOf(s, j), SliceOf(r, j));
      }
    }
  }

  lemma DropConcerns(s: State, i: int)
    requires Inv(s) && i in s.queue
    ensures i in s.notifs && OnlyConcerns(s, Drop(s, i), i)
  {
    DropRemoves(s, i);
    DropKeeps(s, i);
    KeepsConcerns(s, Drop(s, i), i);
  }

  /** A stop by id concerns that notification only. */
  lemma StopConcerns(s: State, id: int)
    requires Inv(s)
    ensures Consistent(s) && OnlyConcerns(s, StopById(s, id), id)
  {
    hide SliceOf, Finish, Drop;
    InvConsistent(s);
    if s.current == Some(id) {
      CurrentIsStarted(s, id);
      FinishKeeps(s, id);
      KeepsConcerns(s, Finish(s, id), id);
    } else if id in s.queue {
      DropConcerns(s, id);
    } else {
      NobodyConcerned(s);
    }
  }

  lemma CurrentIsStarted(s: State, id: int)
    requires Inv(s) && s.current == Some(id)
    ensures id in s.notifs && InvBut(s, id) && GoodStarted(SliceOf(s, id))
  {
    StartedBut(s, id);
  }

  lemma NobodyConcerned(s: State)
    ensures forall i :: OnlyConcerns(s, s, i)
  {
  }

  ghost predicate CurrentCalled(s: State, sender: string) {
    s.current.Some? && s.current.value in s.notifs && Called(s.notifs[s.current.value], sender)
  }

  /** The k-th in the queue is the first that the sender called. */
  ghost predicate FirstCalled(s: State, sender: string, k: int)
    requires Consistent(s)
  {
    && 0 <= k < |s.queue| && Called(s.notifs[s.queue[k]], sender)
    && forall j :: 0 <= j < k ==> !Called(s.notifs[s.queue[j]], sender)
  }

  /** Nobody whom the sender did not call is concerned. */
  ghost predicate OnlyItsCalls(s: State, r: State, sender: string) {
    forall j {:trigger SliceOf(s, j)} :: !(j in s.notifs && Called(s.notifs[j], sender)) ==> Untouched(SliceOf(s, j), SliceOf(r, j))
  }

  lemma OneConcernsItsCalls(s: State, r: State, i: int, sender: string)
    requires OnlyConcerns(s, r, i) && i in s.notifs && Called(s.notifs[i], sender)
    ensures OnlyItsCalls(s, r, sender)
  {
    hide SliceOf, Called;
  }

  /**
   When a sender leaves the bus, a current ringtone of that sender is stopped as by its id; otherwise the
   first queued one is, and if there is none nothing happens. Nobody else is concerned: no other category
   and no other sender.
   */
  lemma SenderGoneEndsItsCall(s: State, sender: string)
    requires Inv(s)
    ensures Consistent(s)
    ensures var r := Step(s, SenderGone(sender));
            && (CurrentCalled(s, sender) ==> r == StopById(s, s.current.value))
            && (forall k :: !CurrentCalled(s, sender) && FirstCalled(s, sender, k) ==> r == StopById(s, s.queue[k]))
            && (!CurrentCalled(s, sender) && (forall k :: !FirstCalled(s, sender, k)) ==> r == s)
            && OnlyItsCalls(s, r, sender)
  {
    hide SliceOf, FinishBySender, StopById, Called, SentBy, OnlyItsCalls, FirstCalled, Inv;
    InvConsistent(s);
    forall n: Notification ensures Called(n, sender) <==> SentBy(n, sender) {
      CalledIsSentBy(n, sender);
    }
    if CurrentCalled(s, sender) {
      CurrentCall(s, sender);
    } else {
      QueuedCall(s, sender);
    }
  }

  lemma CurrentCall(s: State, sender: string)
    requires Inv(s) && Consistent(s) && CurrentCalled(s, sender)
    requires forall n: Notification :: Called(n, sender) <==> SentBy(n, sender)
    ensures var r := FinishBySender(s, sender); r == StopById(s, s.current.value) && OnlyItsCalls(s, r, sender)
  {
    hide SliceOf, Finish, Called, SentBy;
    StopConcerns(s, s.current.value);
    OneConcernsItsCalls(s, Finish(s, s.current.value), s.current.value, sender);
  }

  lemma QueuedCall(s: State, sender: string)
    requires Inv(s) && Consistent(s) && !CurrentCalled(s, sender)
    requires forall n: Notification :: Called(n, sender) <==> SentBy(n, sender)
    ensures var r := FinishBySender(s, sender);
            && (forall k :: FirstCalled(s, sender, k) ==> r == StopById(s, s.queue[k]))
            && ((forall k :: !FirstCalled(s, sender, k)) ==> r == s)
            && OnlyItsCalls(s, r, sender)
  {
    hide SliceOf, Finish, Drop, Called, SentBy, Removes;
    FirstSentByIsFirst(s, s.queue, sender);
    var f := FirstSentBy(s, s.queue, sender);
    if f.Some? {
      var k :| 0 <= k < |s.queue| && s.queue[k] == f.value && forall j :: 0 <= j < k ==> !SentBy(s.notifs[s.queue[j]], sender);
      assert FirstCalled(s, sender, k);
      assert forall l :: FirstCalled(s, sender, l) ==> l == k;
      assert s.current != Some(f.value) by { QueuedIsNotCurrent(s, f.value); }
      StopConcerns(s, f.value);
      OneConcernsItsCalls(s, Drop(s, f.value), f.value, sender);
    } else {
      NobodyConcerned(s);
      assert forall k :: !FirstCalled(s, sender, k);
      NoneOfItsCalls(s, sender);
    }
  }

  lemma QueuedIsNotCurrent(s: State, i: int)
    requires Inv(s) && i in s.queue
    ensures s.current != Some(i)
  {
  }

  lemma NoneOfItsCalls(s: State, sender: string)
    ensures OnlyItsCalls(s, s, sender)
  {
    hide SliceOf;
  }

  /** Reading the messages of a category stops a current notification of that category as by its id. */
  lemma ReadIsStop(s: State, c: Category)
    requires Inv(s) && s.current.Some? && s.current.value in s.notifs && s.notifs[s.current.value].order.category == c
    ensures Step(s, CategoryRead(c)) == Step(s, Event.Stop(s.current.value))
  {
    hide Finish;
    InvConsistent(s);
  }
}
