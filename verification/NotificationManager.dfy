/**
 nsv-notification.c and nsv-policy.c as they run: one manager object, the policy slots, and the
 notifications it updates in place. Every handler is proved to do to the heap what the function of
 the same name in Manager does to a state, so the theorems about runs are theorems about it.
 */
module NotificationManagers {
  import opened Wrappers
  import opened Categories
  import opened Lifecycle
  import opened NotificationObjects
  import M = Manager
  import I = ManagerInvariant
  import R = ManagerRuns
  import T = ManagerTheorems
  import N = ManagerInputs
  import Impl = Implementations

  class NotificationManager {
    // the global manager
    var current: Option<int>
    var queue: seq<int>
    var lastId: int
    var notifs: map<int, NsvNotification>
    var idleStarts: multiset<int>
    var idleFinishes: multiset<int>
    // the policy slots and requests
    var owner: map<PolicyClass, int>
    var requests: map<int, M.Request>
    var systemAllowed: bool
    /** The state this object stands for, history included. */
    ghost var contents: M.State

    constructor ()
      ensures Valid() && contents == M.INITIAL && T.Reachable(contents) && Came([])
    {
      current, queue, lastId, notifs := None, [], 0, map[];
      idleStarts, idleFinishes := multiset{}, multiset{};
      owner, requests, systemAllowed := map[], map[], false;
      contents := M.INITIAL;
      T.InitialIsReachable();
    }

    ghost predicate Fields()
      reads this
    {
      && contents.current == current && contents.queue == queue && contents.lastId == lastId
      && contents.idleStarts == idleStarts && contents.idleFinishes == idleFinishes
      && contents.owner == owner && contents.requests == requests && contents.systemAllowed == systemAllowed
      && contents.notifs.Keys == notifs.Keys
    }

    /** Different names, different objects. */
    ghost predicate Distinct()
      reads this
    {
      forall i, j :: i in notifs && j in notifs && i != j ==> notifs[i] != notifs[j]
    }

    /** The fields and the records of the objects are those of the contents. */
    ghost predicate Valid()
      reads this, notifs.Values
    {
      && Fields()
      && Distinct()
      && forall i :: i in notifs ==> notifs[i].Snapshot() == contents.notifs[i]
    }

    // ---------------------------------------------------------------- what the objects promise

    /** The events es, from the beginning, led here. */
    ghost predicate Came(es: seq<R.Event>)
      reads this
    {
      I.Inv(M.INITIAL) && T.Possible(M.INITIAL, es) && T.Run(M.INITIAL, es) == contents
    }

    /** Each object is the notification that was started under its id, and plays as the events permitted. */
    lemma PlaysAsTold(es: seq<R.Event>, i: int)
      requires Valid() && Came(es) && i in notifs
      ensures N.Ordered(es, i).Some?
      ensures var was := N.Ordered(es, i).value;
              && notifs[i].order == was.order
              && notifs[i].soundFile == (if notifs[i].fallback then notifs[i].order.fallbackFile else was.soundFile)
              && notifs[i].volume == (if notifs[i].order.category.Calendar? && !notifs[i].order.soundEnabled && notifs[i].granted then 0
                                      else was.volume)
      ensures notifs[i].status == Playing ==> N.Permission(es, i) == Some(notifs[i].granted)
    {
      hide Valid, I.Inv, T.Run, T.Possible, N.Ordered, N.Permission;
      RecordOf(i);
      N.EverybodyPlaysWhatWasOrdered(es, i);
      if notifs[i].status == Playing {
        N.EverybodyPlaysAsPermitted(es, i);
      }
    }

    /** i plays with the permission of its class, or with its refusal, but not without having asked. */
    predicate Exclusive(i: int)
      requires i in notifs
      reads this, notifs[i]
    {
      notifs[i].playing && notifs[i].policy && Asynchronous(ClassOf(notifs[i].order.category))
    }

    /** Whoever plays holds what its mode takes, and nobody else holds anything that sounds or fires. */
    lemma PlayingIsHeld(i: int)
      requires Valid() && T.Reachable(contents) && i in notifs
      ensures notifs[i].playing ==>
                && notifs[i].status == Playing && Impl.Sounding(notifs[i].order, notifs[i].granted, notifs[i].Resources())
                  && (notifs[i].vibra <==> Impl.Vibrates(notifs[i].order, notifs[i].granted, notifs[i].Resources()))
      ensures !notifs[i].playing ==>
                !notifs[i].playback && !notifs[i].tone && !notifs[i].timer && !notifs[i].step
    {
      hide Valid, T.Reachable, Impl.Sounding;
      RecordOf(i);
      T.PlayingAgrees(contents, i);
    }

    /** No two that asked for the permission of one class play at the same time. */
    lemma PlaysAlone(i: int, j: int)
      requires Valid() && T.Reachable(contents) && i in notifs && j in notifs && i != j && Exclusive(i) && Exclusive(j)
      ensures ClassOf(notifs[i].order.category) != ClassOf(notifs[j].order.category)
    {
      hide Valid, T.Reachable;
      RecordOf(i);
      RecordOf(j);
      T.PlaysAlone(contents, i, j);
    }

    /**
     At any turn of the main loop: the names lead to objects; whoever plays holds what its mode takes and
     nobody else holds anything that sounds or fires; no two of one class play that asked for permission.
     */
    lemma Promises()
      requires Valid() && T.Reachable(contents)
      ensures current.Some? ==> current.value in notifs
      ensures forall k :: 0 <= k < |queue| ==> queue[k] in notifs
      ensures forall c :: c in owner ==> owner[c] in notifs
      ensures forall i :: i in notifs && notifs[i].playing ==>
                && notifs[i].status == Playing && Impl.Sounding(notifs[i].order, notifs[i].granted, notifs[i].Resources())
                  && (notifs[i].vibra <==> Impl.Vibrates(notifs[i].order, notifs[i].granted, notifs[i].Resources()))
      ensures forall i :: i in notifs && !notifs[i].playing ==>
                !notifs[i].playback && !notifs[i].tone && !notifs[i].timer && !notifs[i].step
      ensures forall i, j :: i in notifs && j in notifs && i != j && Exclusive(i) && Exclusive(j) ==>
                ClassOf(notifs[i].order.category) != ClassOf(notifs[j].order.category)
    {
      hide Valid, T.Reachable, I.Inv, Impl.Sounding, Exclusive;
      FieldsAgree();
      T.ReachableInv(contents);
      R.Names(contents);
      forall i | i in notifs
        ensures notifs[i].playing ==>
                  && notifs[i].status == Playing && Impl.Sounding(notifs[i].order, notifs[i].granted, notifs[i].Resources())
                  && (notifs[i].vibra <==> Impl.Vibrates(notifs[i].order, notifs[i].granted, notifs[i].Resources()))
        ensures !notifs[i].playing ==>
                  !notifs[i].playback && !notifs[i].tone && !notifs[i].timer && !notifs[i].step
      {
        PlayingIsHeld(i);
      }
      forall i, j | i in notifs && j in notifs && i != j && Exclusive(i) && Exclusive(j)
        ensures ClassOf(notifs[i].order.category) != ClassOf(notifs[j].order.category)
      {
        PlaysAlone(i, j);
      }
    }

    // ---------------------------------------------------------------- building blocks

    lemma RecordOf(i: int)
      requires Valid() && i in notifs
      ensures Fields() && i in contents.notifs && notifs[i].Snapshot() == contents.notifs[i]
    {
      hide NsvNotification.Snapshot;
    }

    lemma FieldsAgree()
      requires Valid()
      ensures Fields()
    {
    }

    /** What the fields of the manager were just set to. */
    ghost method Note()
      requires Distinct() && contents.notifs.Keys == notifs.Keys
      requires forall i :: i in notifs ==> notifs[i].Snapshot() == contents.notifs[i]
      modifies `contents
      ensures Valid()
      ensures contents == old(contents).(current := current, queue := queue, lastId := lastId,
                            idleStarts := idleStarts, idleFinishes := idleFinishes,
                            owner := owner, requests := requests, systemAllowed := systemAllowed)
    {
      hide NsvNotification.Snapshot;
      contents := contents.(current := current, queue := queue, lastId := lastId,
                            idleStarts := idleStarts, idleFinishes := idleFinishes,
                            owner := owner, requests := requests, systemAllowed := systemAllowed);
    }

    ghost method Log(i: int, a: Action)
      requires Valid()
      modifies `contents
      ensures Valid() && contents == M.Log(old(contents), i, a)
    {
      contents := M.Log(contents, i, a);
    }

    /** What was just written to one object. */
    ghost method Record(i: int)
      requires Fields() && Distinct() && i in notifs
      requires forall j :: j in notifs && j != i ==> notifs[j].Snapshot() == contents.notifs[j]
      modifies `contents
      ensures Valid() && contents == M.Put(old(contents), i, notifs[i].Snapshot())
    {
      contents := M.Put(contents, i, notifs[i].Snapshot());
    }

    method SetStatus(i: int, status: Status)
      requires Valid() && i in notifs
      modifies `contents, notifs[i]
      ensures Valid() && contents == M.Put(old(contents), i, old(contents).notifs[i].(status := status))
    {
      hide NsvNotification.Snapshot, M.Put;
      notifs[i].SetStatus(status);
      Record(i);
    }

    method SetStopped(i: int)
      requires Valid() && i in notifs
      modifies `contents, notifs[i]
      ensures Valid() && contents == M.Put(old(contents), i, old(contents).notifs[i].(stopped := true))
    {
      hide NsvNotification.Snapshot, M.Put;
      notifs[i].SetStopped();
      Record(i);
    }

    method SetPlaying(i: int, granted: bool)
      requires Valid() && i in notifs
      modifies `contents, notifs[i]
      ensures Valid()
      ensures contents == M.Put(old(contents), i, old(contents).notifs[i].(status := Playing, granted := granted))
    {
      hide NsvNotification.Snapshot, M.Put;
      notifs[i].SetPlaying(granted);
      Record(i);
    }

    /** nsv_policy_new. */
    method SetPolicy(i: int)
      requires Valid() && i in notifs
      modifies `contents, notifs[i]
      ensures Valid() && contents == M.Put(old(contents), i, old(contents).notifs[i].(policy := true))
    {
      hide NsvNotification.Snapshot, M.Put;
      notifs[i].SetPolicy();
      Record(i);
    }

    method AddIdleFinish(i: int)
      requires Valid()
      modifies `contents, `idleFinishes
      ensures Valid()
      ensures contents == old(contents).(idleFinishes := old(contents).idleFinishes + multiset{i})
    {
      hide NsvNotification.Snapshot;
      idleFinishes := idleFinishes + multiset{i};
      Note();
    }

    method Request(i: int, r: M.Request)
      requires Valid() && i in notifs
      modifies `contents, `owner, `requests
      ensures Valid()
      ensures var s, c := old(contents), old(contents).notifs[i].Class();
              contents == s.(owner := s.owner[c := i], requests := s.requests[i := r])
    {
      RecordOf(i);
      hide NsvNotification.Snapshot;
      owner := owner[ClassOf(notifs[i].order.category) := i];
      requests := requests[i := r];
      Note();
    }

    method SilenceRecord(i: int)
      requires Valid() && i in notifs && notifs[i].playing
      modifies `contents, notifs[i]
      ensures Valid() && contents == M.Put(old(contents), i, M.StopRecord(old(contents).notifs[i]))
    {
      hide NsvNotification.Snapshot, M.Put, M.StopRecord;
      notifs[i].Silence();
      Record(i);
    }

    method Silence(i: int)
      requires Valid() && i in notifs
      modifies `contents, notifs[i]
      ensures Valid() && contents == M.Silenced(old(contents), i)
    {
      hide Valid, Impl.Stop;
      RecordOf(i);
      if notifs[i].playing {
        ghost var granted := notifs[i].granted;
        SilenceRecord(i);
        Log(i, Action.Silence(granted));
      }
    }

    method PlayRecord(i: int) returns (ok: bool)
      requires Valid() && i in notifs
      modifies `contents, notifs[i]
      ensures Valid() && ok == M.PlaySucceeds(old(contents).notifs[i])
      ensures contents == M.Put(old(contents), i, M.PlayRecord(old(contents).notifs[i]))
    {
      hide NsvNotification.Snapshot, M.Put, M.PlayRecord, M.PlaySucceeds;
      ok := notifs[i].Sound();
      Record(i);
    }

    method Play(i: int, cause: Cause)
      requires Valid() && i in notifs
      modifies `contents, `idleFinishes, notifs[i]
      ensures Valid() && contents == M.Played(old(contents), i, cause)
    {
      hide Valid, M.PlayRecord, M.PlaySucceeds;
      RecordOf(i);
      ghost var granted := notifs[i].granted;
      var ok := PlayRecord(i);
      if ok {
        Log(i, Sounded(cause, granted));
      } else {
        Log(i, Failed(cause));
        AddIdleFinish(i);
      }
    }

    method ClearCurrent(i: int)
      requires Valid()
      modifies `contents, `current
      ensures Valid()
      ensures var s := old(contents); contents == s.(current := if s.current == Some(i) then None else s.current)
    {
      hide NsvNotification.Snapshot;
      if current == Some(i) {
        current := None;
      }
      Note();
    }

    method Forget(i: int)
      requires Valid()
      modifies `contents, `notifs
      ensures Valid() && notifs == old(notifs) - {i}
      ensures contents == old(contents).(notifs := old(contents).notifs - {i})
    {
      hide NsvNotification.Snapshot;
      notifs := notifs - {i};
      contents := contents.(notifs := contents.notifs - {i});
    }

    method ClearSlot(c: PolicyClass)
      requires Valid()
      modifies `contents, `owner
      ensures Valid() && contents == old(contents).(owner := old(contents).owner - {c})
    {
      hide NsvNotification.Snapshot;
      owner := owner - {c};
      Note();
    }

    method Free(i: int)
      requires Valid() && i in notifs
      modifies `contents, `current, `notifs, `owner
      ensures Valid() && notifs == old(notifs) - {i}
      ensures contents == M.Freed(old(contents), i)
    {
      hide Valid;
      RecordOf(i);
      ClearCurrent(i);
      if notifs[i].policy {
        ClearSlot(ClassOf(notifs[i].order.category));
      }
      Forget(i);
    }

    method Dispose(i: int)
      requires Valid() && i in notifs
      modifies `contents, `current, `notifs, `owner
      ensures Valid() && notifs == old(notifs) - {i}
      ensures contents == M.Disposed(old(contents), i)
    {
      hide Valid;
      RecordOf(i);
      ghost var n := contents.notifs[i];
      Log(i, Shutdown(n.order, n.granted, n.held));
      Log(i, Destroy);
      Free(i);
    }

    method StartNext()
      requires Valid()
      modifies `contents, `queue, `idleStarts
      ensures Valid() && contents == M.StartNext(old(contents))
    {
      if queue != [] {
        var i := queue[0];
        queue := queue[1..];
        idleStarts := idleStarts + multiset{i};
      }
      contents := M.StartNext(contents);
    }

    // ---------------------------------------------------------------- finishing

    method StopReplied(i: int)
      requires Valid() && i in notifs
      modifies this
      ensures Valid() && notifs == old(notifs) - {i}
      ensures contents == M.StopReplied(old(contents), i)
    {
      hide Valid;
      Dispose(i);
      StartNext();
    }

    /** The slot of the class is taken until the reply; the System class replies at once. */
    method StopPermission(i: int)
      requires Valid() && i in notifs
      modifies this
      ensures Valid() && notifs.Keys <= old(notifs.Keys) && forall j :: j in notifs ==> notifs[j] == old(notifs[j])
      ensures contents == M.StopPermission(old(contents), i)
    {
      hide Valid;
      RecordOf(i);
      var c := ClassOf(notifs[i].order.category);
      if c in owner && owner[c] != i {
        return;
      }
      Log(i, AskStop);
      if Asynchronous(c) {
        Request(i, M.ForStop);
      } else {
        StopReplied(i);
      }
    }

    method Halt(i: int)
      requires Valid() && i in notifs
      modifies `contents, notifs[i]
      ensures Valid() && contents == M.Halted(old(contents), i)
    {
      hide Valid;
      SetStatus(i, Stopped);
      Silence(i);
    }

    method End(i: int)
      requires Valid() && i in notifs
      modifies this, notifs[i]
      ensures Valid() && notifs.Keys <= old(notifs.Keys) && forall j :: j in notifs ==> notifs[j] == old(notifs[j])
      ensures var s := M.Halted(old(contents), i);
              contents == if old(contents).notifs[i].policy then M.StopPermission(s, i) else M.Disposed(s, i)
    {
      hide Valid, M.Halted, M.StopPermission, M.Disposed;
      RecordOf(i);
      var policy := notifs[i].policy;
      Halt(i);
      if policy {
        StopPermission(i);
      } else {
        Dispose(i);
      }
    }

    method Finish(i: int)
      requires Valid() && i in notifs
      modifies this, notifs[i]
      ensures Valid() && notifs.Keys <= old(notifs.Keys) && forall j :: j in notifs ==> notifs[j] == old(notifs[j])
      ensures contents == M.Finish(old(contents), i)
    {
      hide Valid;
      RecordOf(i);
      var n := notifs[i];
      if n.status == Stopped {
        return;
      }
      if n.status == Initialized {
        if !n.stopped {
          SetStopped(i);
          Log(i, Cancel);
        }
        return;
      }
      End(i);
    }

    // ---------------------------------------------------------------- starting

    method TryNext(i: int, granted: bool)
      requires Valid() && i in notifs
      modifies this, notifs[i]
      ensures Valid() && notifs == old(notifs)
      ensures contents == M.TryNext(old(contents), i, granted)
    {
      hide Valid;
      SetPlaying(i, granted);
      Play(i, Reply);
      StartNext();
    }

    method PlayReplied(i: int, granted: bool)
      requires Valid() && i in notifs
      modifies this, notifs[i]
      ensures Valid() && notifs == old(notifs)
      ensures contents == M.PlayReplied(old(contents), i, granted)
    {
      hide Valid;
      RecordOf(i);
      if notifs[i].stopped {
        SetStatus(i, Unknown);
        Log(i, LateReply);
        AddIdleFinish(i);
      } else {
        TryNext(i, granted);
      }
    }

    method PlayPermission(i: int)
      requires Valid() && i in notifs
      modifies this, notifs[i]
      ensures Valid() && notifs == old(notifs)
      ensures contents == M.PlayPermission(old(contents), i)
    {
      hide Valid;
      RecordOf(i);
      var c := ClassOf(notifs[i].order.category);
      if c in owner {
        Log(i, Refused);
        return;
      }
      Log(i, AskPlay);
      if Asynchronous(c) {
        Request(i, M.ForPlay);
      } else {
        PlayReplied(i, systemAllowed);
      }
    }

    method SetCurrent(i: int)
      requires Valid()
      modifies `contents, `current
      ensures Valid() && contents == old(contents).(current := Some(i))
    {
      hide NsvNotification.Snapshot;
      current := Some(i);
      Note();
    }

    method BeginNotification(i: int)
      requires Valid() && i in notifs
      modifies `contents, `current, notifs[i]
      ensures Valid()
      ensures var s := M.Put(old(contents), i, old(contents).notifs[i].(status := Initialized));
              contents == M.Log(s, i, Begin).(current := Some(i))
    {
      hide Valid;
      SetCurrent(i);
      SetStatus(i, Initialized);
      Log(i, Begin);
    }

    method StartNotification(i: int)
      requires Valid() && i in notifs
      modifies this, notifs[i]
      ensures Valid() && notifs == old(notifs)
      ensures contents == M.StartNotification(old(contents), i)
    {
      hide Valid;
      RecordOf(i);
      var n := notifs[i];
      BeginNotification(i);
      if n.order.soundEnabled || !SilentSkipsPolicy(n.order.category) {
        SetPolicy(i);
        PlayPermission(i);
      } else {
        TryNext(i, true);
      }
    }

    method Admit(n: NsvNotification) returns (id: int)
      requires Valid() && forall i :: i in notifs ==> notifs[i] != n
      modifies `contents, `lastId, `notifs
      ensures Valid() && id == old(lastId) + 1 && notifs == old(notifs)[id := n]
      ensures contents == M.Admitted(old(contents), n.Snapshot())
    {
      lastId := lastId + 1;
      id := lastId;
      notifs := notifs[id := n];
      contents := M.Admitted(contents, n.Snapshot());
    }

    method Enqueue(n: NsvNotification) returns (id: int)
      requires Valid() && forall i :: i in notifs ==> notifs[i] != n
      modifies `contents, `lastId, `notifs, `queue
      ensures Valid() && id == old(lastId) + 1 && notifs == old(notifs)[id := n]
      ensures contents == M.Enqueued(old(contents), n.Snapshot())
    {
      hide Valid;
      FieldsAgree();
      id := Admit(n);
      Append(id);
    }

    method Append(id: int)
      requires Valid()
      modifies `contents, `queue
      ensures Valid() && contents == old(contents).(queue := old(contents).queue + [id])
    {
      hide NsvNotification.Snapshot;
      queue := queue + [id];
      Note();
    }

    method EnqueueBehind(n: NsvNotification, now: int) returns (id: int)
      requires Valid() && now in notifs && forall i :: i in notifs ==> notifs[i] != n
      modifies this, n, notifs[now]
      ensures Valid() && id == old(lastId) + 1
      ensures contents == M.Finish(M.Enqueued(old(contents), old(n.Snapshot())), now)
    {
      hide Valid;
      id := Enqueue(n);
      Finish(now);
    }

    method AdmitAndStart(n: NsvNotification) returns (id: int)
      requires Valid() && forall i :: i in notifs ==> notifs[i] != n
      modifies this, n
      ensures Valid() && id == old(lastId) + 1
      ensures contents == M.StartNotification(M.Admitted(old(contents), old(n.Snapshot())), id)
    {
      hide Valid;
      id := Admit(n);
      StartNotification(id);
    }

    /** The priority test of nsv_notification_start. */
    method Outranks(n: NsvNotification) returns (ok: bool)
      requires Valid() && (current.Some? ==> current.value in notifs)
      ensures ok == M.Accepts(contents, n.Snapshot(), true)
    {
      if current.Some? {
        RecordOf(current.value);
        var newcomer, now := n.order.category, notifs[current.value].order.category;
        if DisplacesEqual(newcomer) {
          if Priority(newcomer) < Priority(now) {
            return false;
          }
        } else if Priority(newcomer) <= Priority(now) {
          return false;
        }
      }
      return true;
    }

    /** nsv_notification_start; n was just made, initialized is what its implementation answered. */
    method Start(n: NsvNotification, initialized: bool) returns (id: int)
      requires Valid() && forall i :: i in notifs ==> notifs[i] != n
      requires current.Some? ==> current.value in notifs
      modifies this, n, notifs.Values
      ensures Valid()
      ensures (contents, id) == M.Start(old(contents), old(n.Snapshot()), initialized)
    {
      hide M.Finish, M.StartNotification, M.Enqueued, M.Admitted, M.Displaces;
      var ok := Outranks(n);
      if !ok || !initialized {
        return -1;
      }
      if current.Some? {
        id := EnqueueBehind(n, current.value);
      } else {
        id := AdmitAndStart(n);
      }
    }

    // ---------------------------------------------------------------- stopping by id, sender, category

    method Unqueue(i: int)
      requires Valid()
      modifies `contents, `queue
      ensures Valid() && contents == old(contents).(queue := M.Without(old(contents).queue, i))
    {
      hide NsvNotification.Snapshot, M.Without;
      queue := M.Without(queue, i);
      Note();
    }

    method Drop(i: int)
      requires Valid() && i in notifs
      modifies this, notifs[i]
      ensures Valid() && notifs.Keys <= old(notifs.Keys) && forall j :: j in notifs ==> notifs[j] == old(notifs[j])
      ensures contents == M.Drop(old(contents), i)
    {
      hide Valid;
      Unqueue(i);
      Finish(i);
    }

    method Stop(id: int)
      requires Valid() && M.Consistent(contents)
      modifies this, notifs.Values
      ensures Valid() && contents == M.StopById(old(contents), id)
    {
      if current == Some(id) {
        Finish(id);
        return;
      }
      var k := 0;
      while k < |queue|
        invariant k <= |queue| && id !in queue[..k]
        invariant Valid() && contents == old(contents) && notifs == old(notifs)
      {
        if queue[k] == id {
          Drop(id);
          return;
        }
        k := k + 1;
      }
    }

    method FinishBySender(sender: string)
      requires Valid() && M.Consistent(contents)
      modifies this, notifs.Values
      ensures Valid() && contents == M.FinishBySender(old(contents), sender)
    {
      if current.Some? && Sent(current.value, sender) {
        Finish(current.value);
        return;
      }
      var k := 0;
      while k < |queue|
        invariant k <= |queue|
        invariant Valid() && contents == old(contents) && notifs == old(notifs)
        invariant M.FirstSentBy(contents, queue[k..], sender) == M.FirstSentBy(contents, queue, sender)
      {
        if Sent(queue[k], sender) {
          Drop(queue[k]);
          return;
        }
        assert queue[k..][1..] == queue[k + 1..];
        k := k + 1;
      }
    }

    predicate Sent(i: int, sender: string)
      requires i in notifs
      reads this, notifs[i]
    {
      TracksSender(notifs[i].order.category) && notifs[i].order.sender == Some(sender)
    }

    /** The walk goes over the links as they were when it began. */
    method FinishByCategory(c: Category)
      requires Valid() && M.Consistent(contents)
      modifies this, notifs.Values
      ensures Valid() && contents == M.FinishByCategory(old(contents), c)
    {
      if current.Some? {
        RecordOf(current.value);
        if notifs[current.value].order.category == c {
          Finish(current.value);
          return;
        }
      }
      RemainderStarts(contents, c);
      FinishLinks(queue, c, M.FinishByCategory(contents, c));
    }

    method FinishLink(i: int, c: Category)
      requires Valid() && i in notifs
      modifies this, notifs[i]
      ensures Valid() && notifs.Keys <= old(notifs.Keys) && forall j :: j in notifs ==> notifs[j] == old(notifs[j])
      ensures contents == if old(contents).notifs[i].Category() == c then M.Drop(old(contents), i) else old(contents)
    {
      RecordOf(i);
      if notifs[i].order.category == c {
        Drop(i);
      }
    }

    method FinishLinks(links: seq<int>, c: Category, ghost goal: M.State)
      requires Valid() && Remainder(contents, links, c, goal)
      modifies this, notifs.Values
      ensures Valid() && contents == goal
    {
      var k := 0;
      assert links[0..] == links;
      while k < |links|
        invariant k <= |links| && Valid()
        invariant forall j :: j in notifs ==> j in old(notifs) && notifs[j] == old(notifs[j])
        invariant Remainder(contents, links[k..], c, goal)
      {
        var i := links[k];
        assert links[k..][1..] == links[k + 1..] && links[k..][0] == i;
        RemainderShrinks(contents, links[k..], c, goal);
        FinishLink(i, c);
        k := k + 1;
      }
    }

    // ---------------------------------------------------------------- policy replies and commands

    method ClearRequest(i: int)
      requires Valid()
      modifies `contents, `requests
      ensures Valid() && contents == old(contents).(requests := old(contents).requests - {i})
    {
      hide NsvNotification.Snapshot;
      requests := requests - {i};
      Note();
    }

    method OnPlayReply(i: int, allowed: bool)
      requires Valid() && i in notifs
      modifies this, notifs[i]
      ensures Valid() && contents == M.OnPlayReply(old(contents), i, allowed)
    {
      hide Valid;
      ClearRequest(i);
      PlayReplied(i, allowed);
    }

    method OnStopReply(i: int)
      requires Valid() && i in notifs
      modifies this
      ensures Valid() && contents == M.OnStopReply(old(contents), i)
    {
      hide Valid;
      RecordOf(i);
      ClearRequest(i);
      ClearSlot(ClassOf(notifs[i].order.category));
      StopReplied(i);
    }

    method Upgrade(i: int)
      requires Valid() && i in notifs
      modifies this, notifs[i]
      ensures Valid() && contents == M.Upgraded(old(contents), i)
    {
      hide Valid;
      Silence(i);
      SetGranted(i);
      Play(i, Cause.Upgrade);
    }

    method SetGranted(i: int)
      requires Valid() && i in notifs
      modifies `contents, notifs[i]
      ensures Valid() && contents == M.Put(old(contents), i, old(contents).notifs[i].(granted := true))
    {
      hide NsvNotification.Snapshot, M.Put;
      notifs[i].SetGranted();
      Record(i);
    }

    /** A command reaches the notification that owns the slot of the class. */
    method OnCommand(c: PolicyClass, w: M.Wanted)
      requires Valid() && (c in owner ==> owner[c] in notifs)
      modifies this, notifs.Values
      ensures Valid() && contents == M.OnCommand(old(contents), c, w)
    {
      if c !in owner || current.None? {
        return;
      }
      var i := owner[c];
      RecordOf(i);
      if w.WantStop? {
        Silence(i);
      } else if w.WantPlay? && !notifs[i].granted && notifs[i].order.category.Ringtone? {
        Upgrade(i);
      }
    }

    // ---------------------------------------------------------------- callbacks

    method SetFallback(i: int)
      requires Valid() && i in notifs
      modifies `contents, notifs[i]
      ensures Valid()
      ensures var n := old(contents).notifs[i];
              contents == M.Put(old(contents), i, n.(soundFile := n.order.fallbackFile, fallback := true))
    {
      hide M.Put;
      RecordOf(i);
      notifs[i].SetFallback();
      Record(i);
    }

    method Restart(i: int)
      requires Valid() && i in notifs
      modifies this, notifs[i]
      ensures Valid() && contents == M.Restarted(old(contents), i)
    {
      hide Valid;
      SetFallback(i);
      Silence(i);
      Play(i, Fallback);
    }

    /** nsv_notification_error; dangling: the code would go on with a notification that is gone. */
    method Error(i: int) returns (dangling: bool)
      requires Valid() && i in notifs
      modifies this, notifs[i]
      ensures Valid()
      ensures M.Error(old(contents), i) == if dangling then M.Dangling else M.Done(contents)
    {
      if notifs[i].fallback {
        Finish(i);
        return false;
      }
      if notifs[i].order.fallbackFile.None? {
        Finish(i);
        if i !in notifs {
          return true;
        }
      }
      Restart(i);
      return false;
    }

    method OnError(i: int)
      requires Valid() && i in notifs && M.Error(contents, i).Done?
      modifies this, notifs[i]
      ensures Valid() && contents == M.Error(old(contents), i).state
    {
      hide Valid, M.Error;
      var dangling := Error(i);
    }

    method OnStarted(i: int)
      requires Valid() && i in notifs
      modifies `contents, notifs[i]
      ensures Valid() && contents == M.OnStarted(old(contents), i)
    {
      notifs[i].OnStarted();
      Record(i);
    }

    method OnSucceeded(i: int)
      requires Valid() && i in notifs
      modifies this, notifs[i]
      ensures Valid() && contents == M.OnSucceeded(old(contents), i)
    {
      RecordOf(i);
      if !notifs[i].order.category.Clock? {
        Finish(i);
      }
    }

    method TimerFired(i: int)
      requires Valid() && i in notifs
      modifies `contents, notifs[i]
      ensures Valid()
      ensures var n := old(contents).notifs[i];
              contents == M.Put(old(contents), i, n.(held := Impl.TimerFired(n.order, n.held)))
    {
      notifs[i].OnTimer();
      Record(i);
    }

    method OnTimer(i: int)
      requires Valid() && i in notifs
      modifies this, notifs[i]
      ensures Valid() && contents == M.OnTimer(old(contents), i)
    {
      hide Valid;
      TimerFired(i);
      Finish(i);
    }

    method VolumeStep(i: int) returns (done: bool)
      requires Valid() && i in notifs
      modifies `contents, notifs[i]
      ensures Valid()
      ensures var n := old(contents).notifs[i];
              && contents == M.Put(old(contents), i, n.(held := Impl.VolumeStep(n.held).0))
              && done == Impl.VolumeStep(n.held).1
    {
      done := notifs[i].OnVolumeTimer();
      Record(i);
    }

    method OnVolumeTimer(i: int)
      requires Valid() && i in notifs
      modifies this, notifs[i]
      ensures Valid() && contents == M.OnVolumeTimer(old(contents), i)
    {
      hide Valid;
      var done := VolumeStep(i);
      if done {
        Finish(i);
      }
    }

    method TakeIdleStart(i: int)
      requires Valid()
      modifies `contents, `idleStarts
      ensures Valid() && contents == old(contents).(idleStarts := old(contents).idleStarts - multiset{i})
    {
      hide NsvNotification.Snapshot;
      idleStarts := idleStarts - multiset{i};
      Note();
    }

    method TakeIdleFinish(i: int)
      requires Valid()
      modifies `contents, `idleFinishes
      ensures Valid() && contents == old(contents).(idleFinishes := old(contents).idleFinishes - multiset{i})
    {
      hide NsvNotification.Snapshot;
      idleFinishes := idleFinishes - multiset{i};
      Note();
    }

    method OnIdleStart(i: int)
      requires Valid() && i in notifs
      modifies this, notifs[i]
      ensures Valid()
      ensures var s := old(contents);
              contents == M.StartNotification(s.(idleStarts := s.idleStarts - multiset{i}), i)
    {
      hide Valid;
      TakeIdleStart(i);
      StartNotification(i);
    }

    method OnIdleFinish(i: int)
      requires Valid() && i in notifs
      modifies this, notifs[i]
      ensures Valid()
      ensures var s := old(contents);
              contents == M.Finish(s.(idleFinishes := s.idleFinishes - multiset{i}), i)
    {
      hide Valid;
      TakeIdleFinish(i);
      Finish(i);
    }

    method OnStateHint(allowed: bool)
      requires Valid()
      modifies `contents, `systemAllowed
      ensures Valid() && contents == old(contents).(systemAllowed := allowed)
    {
      systemAllowed := allowed;
      contents := contents.(systemAllowed := allowed);
    }

    method OnStart(n: Notification, initialized: bool)
      requires Valid() && n.Fresh() && (current.Some? ==> current.value in notifs)
      modifies this, notifs.Values
      ensures Valid() && contents == M.Start(old(contents), n, initialized).0
    {
      var newcomer := new NsvNotification(n.order, n.soundFile, n.volume);
      var id := Start(newcomer, initialized);
    }

    // ---------------------------------------------------------------- the main loop

    /** What the playback, the timers and the idle callbacks report. */
    method HandleCallback(e: R.Event)
      requires Valid() && I.Inv(contents) && R.Enabled(contents, e)
      requires e.IdleStart? || e.IdleFinish? || e.PlaybackStarted? || e.PlaybackSucceeded? || e.PlaybackError?
               || e.TimerFires? || e.VolumeTimerFires?
      modifies this, notifs.Values
      ensures Valid() && contents == R.Step(old(contents), e)
    {
      hide Valid, I.Inv, M.StartNotification, M.Finish, M.OnStarted, M.OnSucceeded, M.OnTimer, M.OnVolumeTimer;
      FieldsAgree();
      R.Names(contents);
      match e
      case IdleStart(i) => OnIdleStart(i);
      case IdleFinish(i) => OnIdleFinish(i);
      case PlaybackStarted(i) => OnStarted(i);
      case PlaybackSucceeded(i) => OnSucceeded(i);
      case PlaybackError(i) => OnError(i);
      case TimerFires(i) => OnTimer(i);
      case VolumeTimerFires(i) => OnVolumeTimer(i);
    }

    method Handle(e: R.Event)
      requires Valid() && I.Inv(contents) && R.Enabled(contents, e)
      modifies this, notifs.Values
      ensures Valid() && contents == R.Step(old(contents), e)
    {
      hide Valid, I.Inv, M.Start, M.OnPlayReply, M.OnStopReply, M.OnCommand,
           M.StopById, M.FinishBySender, M.FinishByCategory;
      FieldsAgree();
      R.Names(contents);
      match e
      case Start(n, initialized) => OnStart(n, initialized);
      case SystemHint(allowed) => OnStateHint(allowed);
      case PlayReply(i, allowed) => OnPlayReply(i, allowed);
      case StopReply(i) => OnStopReply(i);
      case PlaybackCommand(c, w) => OnCommand(c, w);
      case Stop(id) => Stop(id);
      case SenderGone(sender) => FinishBySender(sender);
      case CategoryRead(c) => FinishByCategory(c);
      case _ => HandleCallback(e);
    }

    /** One turn of the main loop: the objects go where the model goes, and never leave its runs. */
    method Dispatch(e: R.Event)
      requires Valid() && T.Reachable(contents) && I.Inv(contents) && R.Enabled(contents, e)
      modifies this, notifs.Values
      ensures Valid() && I.Inv(old(contents)) && R.Enabled(old(contents), e) && contents == R.Step(old(contents), e)
      ensures T.Reachable(contents) && I.Inv(contents)
      ensures forall es :: old(Came(es)) ==> Came(es + [e])
    {
      T.StepIsReachable(contents, e);
      LeadsOn(contents, e);
      Handle(e);
    }
  }

  lemma LeadsOn(s: M.State, e: R.Event)
    requires I.Inv(s) && R.Enabled(s, e)
    ensures forall es :: I.Inv(M.INITIAL) && T.Possible(M.INITIAL, es) && T.Run(M.INITIAL, es) == s ==>
              T.Possible(M.INITIAL, es + [e]) && T.Run(M.INITIAL, es + [e]) == R.Step(s, e)
  {
    hide I.Inv, R.Enabled, R.Step;
    forall es | I.Inv(M.INITIAL) && T.Possible(M.INITIAL, es) && T.Run(M.INITIAL, es) == s
      ensures T.Possible(M.INITIAL, es + [e]) && T.Run(M.INITIAL, es + [e]) == R.Step(s, e)
    {
      T.RunOneMore(M.INITIAL, es, e);
    }
  }

  ghost predicate AllUnstarted(s: M.State, q: seq<int>) {
    forall k :: 0 <= k < |q| ==> q[k] in s.notifs && M.Unstarted(s.notifs[q[k]])
  }

  /** Dropping those of the category that are left in q leads to the goal. */
  ghost predicate Remainder(s: M.State, q: seq<int>, c: Category, goal: M.State) {
    && M.Increasing(q) && AllUnstarted(s, q)
    && var ids := M.OfCategory(s, q, c);
       M.Increasing(ids) && AllUnstarted(s, ids) && M.DropAll(s, ids) == goal
  }

  lemma RemainderStarts(s: M.State, c: Category)
    requires M.Consistent(s)
    requires s.current.Some? ==> s.notifs[s.current.value].Category() != c
    ensures Remainder(s, s.queue, c, M.FinishByCategory(s, c))
  {
    var ids := M.OfCategory(s, s.queue, c);
    M.OfCategoryIncreasing(s, s.queue, c);
    assert forall k :: 0 <= k < |ids| ==> ids[k] in s.queue;
  }

  lemma RemainderShrinks(s: M.State, q: seq<int>, c: Category, goal: M.State)
    requires q != [] && Remainder(s, q, c, goal)
    ensures q[0] in s.notifs
    ensures Remainder(if s.notifs[q[0]].Category() == c then M.Drop(s, q[0]) else s, q[1..], c, goal)
  {
    hide M.Drop;
    var rest := M.OfCategory(s, q[1..], c);
    M.OfCategoryIncreasing(s, q[1..], c);
    assert forall k :: 0 <= k < |rest| ==> rest[k] in q[1..];
    if s.notifs[q[0]].Category() == c {
      var r := M.Drop(s, q[0]);
      M.DropTakesOne(s, q[0]);
      assert M.OfCategory(s, q, c)[1..] == rest;
      assert AllUnstarted(r, q[1..]) && AllUnstarted(r, rest);
      SameOfCategory(s, r, q[1..], c);
    }
  }

  lemma {:induction false} SameOfCategory(s: M.State, r: M.State, q: seq<int>, c: Category)
    requires AllUnstarted(s, q) && AllUnstarted(r, q)
    requires forall k :: 0 <= k < |q| ==> r.notifs[q[k]] == s.notifs[q[k]]
    ensures M.OfCategory(r, q, c) == M.OfCategory(s, q, c)
  {
    if q != [] {
      SameOfCategory(s, r, q[1..], c);
    }
  }
}
