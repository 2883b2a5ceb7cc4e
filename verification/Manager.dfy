/**
 The notification manager together with the policy objects it owns: the state behind
 nsv-notification.c and nsv-policy.c as one value, and each handler as a function on it.

 A notification is named by the id it gets when it is accepted. The two signals that a policy of the
 System class emits at once are the last thing its request does, so the handler is called there.
 `trace` and `dequeued` are history: no handler reads them.
 */
module Manager {
  import opened Wrappers
  import opened Categories
  import opened Lifecycle
  import Impl = Implementations

  datatype Request = ForPlay | ForStop

  datatype State = State(
    current: Option<int>,
    queue: seq<int>,
    lastId: int,
    notifs: map<int, Notification>,    // accepted and not yet destroyed
    idleStarts: multiset<int>,
    idleFinishes: multiset<int>,
    owner: map<PolicyClass, int>,      // class_policy
    requests: map<int, Request>,       // pb_req of the policy of a notification
    systemAllowed: bool,               // playback_allowed of the System class
    trace: map<int, seq<Action>>,
    dequeued: seq<int>)

  const INITIAL := State(None, [], 0, map[], multiset{}, multiset{}, map[], map[], false, map[], [])

  // ---------------------------------------------------------------- building blocks

  function History(s: State, i: int): seq<Action> {
    if i in s.trace then s.trace[i] else []
  }

  function Log(s: State, i: int, a: Action): State {
    s.(trace := s.trace[i := History(s, i) + [a]])
  }

  function Put(s: State, i: int, n: Notification): State {
    s.(notifs := s.notifs[i := n])
  }

  /** The record after the implementation's stop, with playing = FALSE. */
  function StopRecord(n: Notification): Notification {
    n.(playing := false, held := Impl.Stop(n.order, n.granted, n.held))
  }

  function Silenced(s: State, i: int): State
    requires i in s.notifs
  {
    if s.notifs[i].playing then Log(Put(s, i, StopRecord(s.notifs[i])), i, Silence(s.notifs[i].granted)) else s
  }

  predicate PlaySucceeds(n: Notification) {
    Impl.Play(n.order, n.granted, n.held).1
  }

  /** The record after the implementation's play; playing = TRUE when it succeeded. */
  function PlayRecord(n: Notification): Notification {
    var (held, ok) := Impl.Play(n.order, n.granted, n.held);
    n.(held := held, volume := Impl.PlayVolume(n.order, n.granted, n.volume), playing := n.playing || ok)
  }

  /** When play fails, an idle finish is queued. */
  function Played(s: State, i: int, cause: Cause): State
    requires i in s.notifs
  {
    var s1 := Put(s, i, PlayRecord(s.notifs[i]));
    if PlaySucceeds(s.notifs[i]) then Log(s1, i, Sounded(cause, s.notifs[i].granted))
    else Log(s1, i, Failed(cause)).(idleFinishes := s.idleFinishes + multiset{i})
  }

  /** The record is freed; finalizing its policy clears the slot of the class. */
  function Freed(s: State, i: int): State
    requires i in s.notifs
  {
    s.(current := if s.current == Some(i) then None else s.current,
       notifs := s.notifs - {i},
       owner := if s.notifs[i].policy then s.owner - {s.notifs[i].Class()} else s.owner)
  }

  /** shutdown and nsv_notification_destroy. */
  function Disposed(s: State, i: int): State
    requires i in s.notifs
  {
    var n := s.notifs[i];
    Freed(Log(Log(s, i, Shutdown(n.order, n.granted, n.held)), i, Destroy), i)
  }

  /** The head of the queue, if any, gets an idle start. */
  function StartNext(s: State): State {
    if s.queue == [] then s
    else s.(queue := s.queue[1..],
            idleStarts := s.idleStarts + multiset{s.queue[0]},
            dequeued := s.dequeued + [s.queue[0]])
  }

  // ---------------------------------------------------------------- finishing

  function StopReplied(s: State, i: int): State
    requires i in s.notifs
  {
    StartNext(Disposed(s, i))
  }

  function StopPermission(s: State, i: int): State
    requires i in s.notifs
  {
    var c := s.notifs[i].Class();
    if c in s.owner && s.owner[c] != i then s
    else if Asynchronous(c) then
      Log(s, i, AskStop).(owner := s.owner[c := i], requests := s.requests[i := ForStop])
    else
      StopReplied(Log(s, i, AskStop), i)
  }

  /** status = STOPPED, and the implementation's stop if it was playing. */
  function Halted(s: State, i: int): State
    requires i in s.notifs
  {
    Silenced(Put(s, i, s.notifs[i].(status := Stopped)), i)
  }

  function Finish(s: State, i: int): State
    requires i in s.notifs
  {
    var n := s.notifs[i];
    if n.status == Stopped then s
    else if n.status == Initialized then
      if n.stopped then s else Log(Put(s, i, n.(stopped := true)), i, Cancel)
    else
      var s1 := Halted(s, i);
      if n.policy then StopPermission(s1, i) else Disposed(s1, i)
  }

  // ---------------------------------------------------------------- starting

  function TryNext(s: State, i: int, granted: bool): State
    requires i in s.notifs
  {
    StartNext(Played(Put(s, i, s.notifs[i].(status := Playing, granted := granted)), i, Reply))
  }

  function PlayReplied(s: State, i: int, granted: bool): State
    requires i in s.notifs
  {
    var n := s.notifs[i];
    if n.stopped then
      Log(Put(s, i, n.(status := Unknown)), i, LateReply).(idleFinishes := s.idleFinishes + multiset{i})
    else TryNext(s, i, granted)
  }

  function PlayPermission(s: State, i: int): State
    requires i in s.notifs
  {
    var c := s.notifs[i].Class();
    if c in s.owner then Log(s, i, Refused)
    else if Asynchronous(c) then
      Log(s, i, AskPlay).(owner := s.owner[c := i], requests := s.requests[i := ForPlay])
    else PlayReplied(Log(s, i, AskPlay), i, s.systemAllowed)
  }

  function StartNotification(s: State, i: int): State
    requires i in s.notifs
  {
    var n := s.notifs[i];
    var s1 := Log(Put(s, i, n.(status := Initialized)), i, Begin).(current := Some(i));
    if n.order.UsesPolicy() then PlayPermission(Put(s1, i, n.(status := Initialized, policy := true)), i)
    else TryNext(s1, i, true)
  }

  /** The newcomer's priority test against the current notification. */
  predicate Displaces(newcomer: Category, current: Category) {
    if DisplacesEqual(newcomer) then Priority(newcomer) >= Priority(current)
    else Priority(newcomer) > Priority(current)
  }

  predicate Accepts(s: State, n: Notification, initialized: bool)
    requires s.current.Some? ==> s.current.value in s.notifs
  {
    (s.current.Some? ==> Displaces(n.Category(), s.notifs[s.current.value].Category())) && initialized
  }

  /** The newcomer gets the next id. */
  function Admitted(s: State, n: Notification): State {
    s.(lastId := s.lastId + 1, notifs := s.notifs[s.lastId + 1 := n], trace := s.trace[s.lastId + 1 := []])
  }

  /** The newcomer waits behind the others. */
  function Enqueued(s: State, n: Notification): State {
    Admitted(s, n).(queue := s.queue + [s.lastId + 1])
  }

  /** nsv_notification_start: the state afterwards and the id returned. */
  function Start(s: State, n: Notification, initialized: bool): (State, int)
    requires s.current.Some? ==> s.current.value in s.notifs
  {
    if !Accepts(s, n, initialized) then (s, -1)
    else if s.current.Some? then (Finish(Enqueued(s, n), s.current.value), s.lastId + 1)
    else (StartNotification(Admitted(s, n), s.lastId + 1), s.lastId + 1)
  }

  // ---------------------------------------------------------------- stopping by id, sender, category

  function Without(q: seq<int>, i: int): seq<int> {
    if q == [] then [] else if q[0] == i then q[1..] else [q[0]] + Without(q[1..], i)
  }

  /** A queued notification is taken out of the queue and finished. */
  function Drop(s: State, i: int): State
    requires i in s.notifs
  {
    Finish(s.(queue := Without(s.queue, i)), i)
  }

  ghost predicate Increasing(q: seq<int>) {
    forall j, k :: 0 <= j < k < |q| ==> q[j] < q[k]
  }

  /** Accepted but never started. */
  predicate Unstarted(n: Notification) {
    n.status == Unknown && !n.policy && !n.playing
  }

  /** The current pointer and the queue name live notifications; the queued ones are unstarted. */
  ghost predicate Consistent(s: State) {
    && (s.current.Some? ==> s.current.value in s.notifs)
    && Increasing(s.queue)
    && forall k :: 0 <= k < |s.queue| ==> s.queue[k] in s.notifs && Unstarted(s.notifs[s.queue[k]])
  }

  function StopById(s: State, id: int): State
    requires Consistent(s)
  {
    if s.current == Some(id) then Finish(s, id)
    else if id in s.queue then Drop(s, id)
    else s
  }

  predicate SentBy(n: Notification, sender: string) {
    TracksSender(n.Category()) && n.order.sender == Some(sender)
  }

  function FirstSentBy(s: State, q: seq<int>, sender: string): (r: Option<int>)
    requires forall k :: 0 <= k < |q| ==> q[k] in s.notifs
    ensures r.Some? ==> r.value in q && SentBy(s.notifs[r.value], sender)
  {
    if q == [] then None
    else if SentBy(s.notifs[q[0]], sender) then Some(q[0])
    else FirstSentBy(s, q[1..], sender)
  }

  function FinishBySender(s: State, sender: string): State
    requires Consistent(s)
  {
    if s.current.Some? && SentBy(s.notifs[s.current.value], sender) then Finish(s, s.current.value)
    else
      var f := FirstSentBy(s, s.queue, sender);
      if f.Some? then Drop(s, f.value) else s
  }

  /** The ids of a category, in queue order. */
  function OfCategory(s: State, q: seq<int>, c: Category): (r: seq<int>)
    requires forall k :: 0 <= k < |q| ==> q[k] in s.notifs
    ensures forall i :: i in r ==> i in q
  {
    if q == [] then []
    else
      var r := OfCategory(s, q[1..], c);
      if s.notifs[q[0]].Category() == c then [q[0]] + r else r
  }

  lemma {:induction false} OfCategoryIncreasing(s: State, q: seq<int>, c: Category)
    requires forall k :: 0 <= k < |q| ==> q[k] in s.notifs
    requires Increasing(q)
    ensures Increasing(OfCategory(s, q, c))
  {
    if q != [] {
      OfCategoryIncreasing(s, q[1..], c);
      var r := OfCategory(s, q[1..], c);
      forall k | 0 <= k < |r| ensures q[0] < r[k] {
        assert r[k] in q[1..];
      }
    }
  }

  lemma DropTakesOne(s: State, i: int)
    requires i in s.notifs && Unstarted(s.notifs[i])
    ensures Drop(s, i).notifs == s.notifs - {i}
  {
  }

  function DropAll(s: State, ids: seq<int>): State
    requires Increasing(ids)
    requires forall k :: 0 <= k < |ids| ==> ids[k] in s.notifs && Unstarted(s.notifs[ids[k]])
    decreases |ids|
  {
    if ids == [] then s
    else
      DropTakesOne(s, ids[0]);
      DropAll(Drop(s, ids[0]), ids[1..])
  }

  function FinishByCategory(s: State, c: Category): State
    requires Consistent(s)
  {
    if s.current.Some? && s.notifs[s.current.value].Category() == c then Finish(s, s.current.value)
    else
      var ids := OfCategory(s, s.queue, c);
      OfCategoryIncreasing(s, s.queue, c);
      assert forall k :: 0 <= k < |ids| ==> ids[k] in s.queue;
      DropAll(s, ids)
  }

  // ---------------------------------------------------------------- policy replies and commands

  function OnPlayReply(s: State, i: int, granted: bool): State
    requires i in s.notifs
  {
    PlayReplied(s.(requests := s.requests - {i}), i, granted)
  }

  function OnStopReply(s: State, i: int): State
    requires i in s.notifs
  {
    StopReplied(s.(requests := s.requests - {i}, owner := s.owner - {s.notifs[i].Class()}), i)
  }

  datatype Wanted = WantNone | WantStop | WantPlay

  function Upgraded(s: State, i: int): State
    requires i in s.notifs
  {
    var s1 := Silenced(s, i);
    Played(Put(s1, i, s1.notifs[i].(granted := true)), i, Upgrade)
  }

  function Command(s: State, i: int, w: Wanted): State
    requires i in s.notifs
  {
    if s.current.None? then s
    else if w.WantStop? then Silenced(s, i)
    else if w.WantPlay? && !s.notifs[i].granted && s.notifs[i].Category().Ringtone? then Upgraded(s, i)
    else s
  }

  /** A command of the playback manager goes to the owner of the class, if there is one. */
  function OnCommand(s: State, c: PolicyClass, w: Wanted): State
    requires c in s.owner ==> s.owner[c] in s.notifs
  {
    if c in s.owner then Command(s, s.owner[c], w) else s
  }

  // ---------------------------------------------------------------- callbacks of the implementations

  /** What nsv_notification_error leads to: a state, or a use of the notification after it is gone. */
  datatype Outcome = Done(state: State) | Dangling

  function Restarted(s: State, i: int): State
    requires i in s.notifs
  {
    var n := s.notifs[i];
    var s1 := Silenced(Put(s, i, n.(soundFile := n.order.fallbackFile, fallback := true)), i);
    Played(s1, i, Fallback)
  }

  /** Without a fallback file the code finishes the notification and then goes on with it. */
  function Error(s: State, i: int): Outcome
    requires i in s.notifs
  {
    var n := s.notifs[i];
    if n.fallback then Done(Finish(s, i))
    else
      var s1 := if n.order.fallbackFile.None? then Finish(s, i) else s;
      if i in s1.notifs then Done(Restarted(s1, i)) else Dangling
  }

  function OnStarted(s: State, i: int): State
    requires i in s.notifs
  {
    var n := s.notifs[i];
    Put(s, i, n.(held := Impl.Started(n.order, n.held)))
  }

  /** The clock does not listen to "succeeded". */
  function OnSucceeded(s: State, i: int): State
    requires i in s.notifs
  {
    if s.notifs[i].Category().Clock? then s else Finish(s, i)
  }

  function OnTimer(s: State, i: int): State
    requires i in s.notifs
  {
    var n := s.notifs[i];
    Finish(Put(s, i, n.(held := Impl.TimerFired(n.order, n.held))), i)
  }

  function OnVolumeTimer(s: State, i: int): State
    requires i in s.notifs
  {
    var n := s.notifs[i];
    var (held, done) := Impl.VolumeStep(n.held);
    var s1 := Put(s, i, n.(held := held));
    if done then Finish(s1, i) else s1
  }
}
