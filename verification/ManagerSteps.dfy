/**
 Every handler keeps the manager's invariant and, unless it changes nothing, lowers the weight of the
 notification it is about.
 */
module ManagerSteps {
  import opened Wrappers
  import opened Categories
  import opened Lifecycle
  import opened Manager
  import opened ManagerInvariant
  import Impl = Implementations

  // ---------------------------------------------------------------- weight

  /** How much can still happen to a notification that is being played. */
  function PlayWeight(n: Notification): nat {
    10 * (One(!n.fallback) + One(!n.granted))
    + if n.playing then 1 + One(!n.held.announced) + (if n.held.volumeStep <= 3 then 3 - n.held.volumeStep else 0) else 0
  }

  function Weight(v: Slice): nat {
    match v
    case Dead(_) => 0
    case Live(place, n, _, _, finishes, _) =>
      if place.Queued? then 900
      else if place.Due? then 800
      else finishes + match n.status
                      case Initialized => if n.stopped then 500 else 600
                      case Unknown => 400
                      case Playing => 300 + PlayWeight(n)
                      case Stopped => 200
  }

  /** Nothing about a notification changed, except that it may have left the queue to be started. */
  predicate Untouched(v: Slice, w: Slice) {
    || w == v
    || (v.Live? && v.place.Queued? && w == Live(Due, v.n, v.request, v.owns, v.finishes, v.t))
  }

  /** i got lighter, and every other notification is untouched. */
  ghost predicate Lighter(s: State, r: State, i: int) {
    && Weight(SliceOf(r, i)) < Weight(SliceOf(s, i))
    && forall j {:trigger SliceOf(r, j)} :: j != i ==> Untouched(SliceOf(s, j), SliceOf(r, j))
  }

  /** A notification is still the one that was ordered. */
  ghost predicate SameOrder(s: State, r: State, i: int) {
    i in r.notifs ==> i in s.notifs && r.notifs[i].order == s.notifs[i].order
  }

  ghost predicate SameShape(s: State, r: State) {
    r.lastId == s.lastId && r.systemAllowed == s.systemAllowed
  }

  /** What every handler about i promises. */
  ghost predicate Keeps(s: State, r: State, i: int) {
    Inv(r) && SameShape(s, r) && SameOrder(s, r, i) && (r == s || Lighter(s, r, i))
  }

  lemma StartedBut(s: State, i: int)
    requires Inv(s) && i in s.notifs && PlaceOf(s, i).Started?
    ensures InvBut(s, i) && GoodStarted(SliceOf(s, i))
  {
    assert GoodSlice(SliceOf(s, i));
  }

  lemma ButInv(s: State, i: int)
    requires InvBut(s, i) && GoodStarted(SliceOf(s, i))
    ensures Inv(s)
  {
  }

  // ---------------------------------------------------------------- play and stop

  function WithRecord(v: Slice, n: Notification, a: Action, more: nat): Slice
    requires v.Live?
  {
    Live(v.place, n, v.request, v.owns, v.finishes + more, v.t + [a])
  }

  function StopSlice(v: Slice): Slice
    requires v.Live?
  {
    WithRecord(v, StopRecord(v.n), Silence(v.n.granted), 0)
  }

  function PlaySlice(v: Slice, cause: Cause): Slice
    requires v.Live?
  {
    if PlaySucceeds(v.n) then WithRecord(v, PlayRecord(v.n), Sounded(cause, v.n.granted), 0)
    else WithRecord(v, PlayRecord(v.n), Failed(cause), 1)
  }

  lemma SilencedChanges(s: State, i: int)
    requires InvBut(s, i) && s.notifs[i].playing
    ensures Changes(s, Silenced(s, i), i, StopSlice(SliceOf(s, i)))
  {
    var m := StopRecord(s.notifs[i]);
    PutChanges(s, i, m);
    LogChanges(Put(s, i, m), i, Silence(s.notifs[i].granted));
  }

  lemma SoundedChanges(s: State, i: int, cause: Cause)
    requires InvBut(s, i) && PlaySucceeds(s.notifs[i])
    ensures Changes(s, Played(s, i, cause), i, PlaySlice(SliceOf(s, i), cause))
  {
    var u := Put(s, i, PlayRecord(s.notifs[i]));
    PutChanges(s, i, PlayRecord(s.notifs[i]));
    LogChanges(u, i, Sounded(cause, s.notifs[i].granted));
  }

  lemma FailedChanges(s: State, i: int, cause: Cause)
    requires InvBut(s, i) && !PlaySucceeds(s.notifs[i])
    ensures Changes(s, Played(s, i, cause), i, PlaySlice(SliceOf(s, i), cause))
  {
    PutChanges(s, i, PlayRecord(s.notifs[i]));
    LogChanges(Put(s, i, PlayRecord(s.notifs[i])), i, Failed(cause));
    IdleChanges(Log(Put(s, i, PlayRecord(s.notifs[i])), i, Failed(cause)), i);
  }

  /** A silent notification whose turn it is to play for this cause. */
  predicate Ready(v: Slice, cause: Cause) {
    && v.Live? && v.place.Started?
    && var n, l := v.n, LifeOf(v.t);
    && n.policy == n.order.UsesPolicy() == l.asked
    && n.status == Playing && !n.playing && !n.stopped
    && !l.sounding && l.fellBack == (n.fallback && !cause.Fallback?) && (cause.Fallback? ==> n.fallback)
    && (l.upgraded ==> n.granted && !cause.Upgrade?) && (cause.Upgrade? ==> n.granted)
    && Impl.Resting(n.order, n.granted, n.held)
    && v.request.None? && v.owns == (n.policy && Asynchronous(n.Class()))
    && (if cause.Reply? then l.phase.Asked? || (l.phase.Begun? && !l.asked) else l.phase.Active?)
  }

  lemma SoundedIsGood(v: Slice, cause: Cause)
    requires Ready(v, cause) && PlaySucceeds(v.n)
    ensures GoodStarted(PlaySlice(v, cause))
  {
    Impl.PlayTakesExactlyItsMode(v.n.order, v.n.granted, v.n.held);
    LifeOfAppend(v.t, Sounded(cause, v.n.granted));
  }

  lemma FailedIsGood(v: Slice, cause: Cause)
    requires Ready(v, cause) && !PlaySucceeds(v.n)
    ensures GoodStarted(PlaySlice(v, cause))
  {
    Impl.PlayTakesExactlyItsMode(v.n.order, v.n.granted, v.n.held);
    LifeOfAppend(v.t, Failed(cause));
  }

  lemma PlayWeighs(v: Slice, cause: Cause)
    requires v.Live? && v.place.Started? && v.n.status == Playing && !v.n.playing
    ensures Weight(PlaySlice(v, cause)) <= 305 + 10 * (One(!v.n.fallback) + One(!v.n.granted)) + v.finishes
  {
  }

  lemma PlayedKeeps(s: State, i: int, cause: Cause)
    requires InvBut(s, i) && Ready(SliceOf(s, i), cause)
    ensures Inv(Played(s, i, cause)) && Only(s, Played(s, i, cause), i)
    ensures SliceOf(Played(s, i, cause), i) == PlaySlice(SliceOf(s, i), cause)
  {
    if PlaySucceeds(s.notifs[i]) {
      SoundedChanges(s, i, cause);
      SoundedIsGood(SliceOf(s, i), cause);
    } else {
      FailedChanges(s, i, cause);
      FailedIsGood(SliceOf(s, i), cause);
    }
    ButInv(Played(s, i, cause), i);
  }

  // ---------------------------------------------------------------- destruction

  /** i has no request pending; finalizing its policy, if it has one, clears no slot but its own. */
  ghost predicate Unbound(s: State, i: int) {
    && i in s.notifs && i !in s.requests
    && var c := s.notifs[i].Class(); c in s.owner ==> (s.owner[c] == i <==> s.notifs[i].policy)
  }

  lemma FreedShape(s: State, i: int)
    requires Shape(s) && Unbound(s, i) && PlaceOf(s, i).Started?
    ensures Shape(Freed(s, i))
  {
  }

  lemma FreedOthers(s: State, i: int, j: int)
    requires Shape(s) && Unbound(s, i) && j != i
    ensures SliceOf(Freed(s, i), j) == SliceOf(s, j)
  {
  }

  lemma FreedKeeps(s: State, i: int)
    requires InvBut(s, i) && Unbound(s, i) && LifeOf(History(s, i)).phase.Gone?
    ensures Inv(Freed(s, i))
    ensures forall j :: j != i ==> SliceOf(Freed(s, i), j) == SliceOf(s, j)
  {
    FreedShape(s, i);
    forall j | j != i ensures SliceOf(Freed(s, i), j) == SliceOf(s, j) {
      FreedOthers(s, i, j);
    }
    assert SliceOf(Freed(s, i), i) == Dead(History(s, i));
  }

  lemma EndingChanges(s: State, i: int)
    requires InvBut(s, i)
    ensures var n := s.notifs[i];
            var a := Log(s, i, Shutdown(n.order, n.granted, n.held));
            Changes(s, Log(a, i, Destroy), i,
                    Live(Started, n, RequestOf(s, i), Owns(s, i), s.idleFinishes[i],
                         History(s, i) + [Shutdown(n.order, n.granted, n.held)] + [Destroy]))
  {
    var n := s.notifs[i];
    LogChanges(s, i, Shutdown(n.order, n.granted, n.held));
    LogChanges(Log(s, i, Shutdown(n.order, n.granted, n.held)), i, Destroy);
  }

  lemma DisposedKeeps(s: State, i: int)
    requires InvBut(s, i) && Unbound(s, i)
    requires var n := s.notifs[i]; Next(LifeOf(History(s, i)), Shutdown(n.order, n.granted, n.held)).phase.Shut?
    ensures Inv(Disposed(s, i))
    ensures forall j {:trigger SliceOf(Disposed(s, i), j)} :: j != i ==> SliceOf(Disposed(s, i), j) == SliceOf(s, j)
    ensures i !in Disposed(s, i).notifs
  {
    var n := s.notifs[i];
    var b := Log(Log(s, i, Shutdown(n.order, n.granted, n.held)), i, Destroy);
    EndingChanges(s, i);
    LifeOfAppend(History(s, i), Shutdown(n.order, n.granted, n.held));
    LifeOfAppend(History(s, i) + [Shutdown(n.order, n.granted, n.held)], Destroy);
    FreedKeeps(b, i);
  }

  // ---------------------------------------------------------------- finishing

  /** A notification between its last stop and its stop request or shutdown. */
  predicate Halting(v: Slice) {
    && v.Live? && v.place.Started?
    && var n, l := v.n, LifeOf(v.t);
    && n.policy == n.order.UsesPolicy() == l.asked
    && n.status == Stopped && !n.playing && !l.sounding
    && l.fellBack == n.fallback && (l.upgraded ==> n.granted)
    && (l.phase.Active? || (l.phase.Late? && n.policy && Asynchronous(n.Class())))
    && Impl.Released(n.order, n.granted, n.held)
    && (Asynchronous(n.Class()) ==> Impl.Resting(n.order, n.granted, n.held))
    && v.request.None? && v.owns == (n.policy && Asynchronous(n.Class()))
  }

  /** What stop must be able to release; a timer of the implementation may already have fired. */
  predicate StopsClean(n: Notification) {
    var h := Impl.Stop(n.order, n.granted, n.held);
    Impl.Released(n.order, n.granted, h) && (Asynchronous(n.Class()) ==> Impl.Resting(n.order, n.granted, h))
  }

  /** A started notification that finish will halt. */
  predicate CanHalt(v: Slice) {
    && v.Live? && v.place.Started?
    && var n, l := v.n, LifeOf(v.t);
    && n.policy == n.order.UsesPolicy() == l.asked
    && l.sounding == n.playing && l.fellBack == n.fallback && (l.upgraded ==> n.granted)
    && (n.playing ==> l.grant == n.granted)
    && (if n.playing then StopsClean(n) else Impl.Resting(n.order, n.granted, n.held))
    && v.request.None? && v.owns == (n.policy && Asynchronous(n.Class()))
    && ((n.status == Playing && l.phase.Active?) ||
        (n.status == Unknown && l.phase.Late? && !n.playing && n.policy && Asynchronous(n.Class())))
  }

  lemma GoodCanHalt(v: Slice)
    requires v.Live? && v.place.Started? && GoodStarted(v) && (v.n.status == Unknown || v.n.status == Playing)
    ensures CanHalt(v)
  {
    if v.n.playing {
      Impl.StopReleasesItsMode(v.n.order, v.n.granted, v.n.held);
    }
  }

  lemma StopSliceHalts(v: Slice)
    requires CanHalt(v) && v.n.playing
    ensures Halting(StopSlice(v.(n := v.n.(status := Stopped))))
  {
    LifeOfAppend(v.t, Silence(v.n.granted));
  }

  lemma HaltedHalts(s: State, i: int)
    requires InvBut(s, i) && CanHalt(SliceOf(s, i))
    ensures InvBut(Halted(s, i), i) && Only(s, Halted(s, i), i) && Halting(SliceOf(Halted(s, i), i))
    ensures Halted(s, i).notifs[i].order == s.notifs[i].order && Halted(s, i).notifs[i].policy == s.notifs[i].policy
    ensures Halted(s, i).idleFinishes == s.idleFinishes
  {
    var m := s.notifs[i].(status := Stopped);
    PutChanges(s, i, m);
    if m.playing {
      SilencedChanges(Put(s, i, m), i);
      StopSliceHalts(SliceOf(s, i));
    }
  }

  lemma SlotsAreAsynchronous(s: State, i: int, c: PolicyClass)
    requires InvBut(s, i) && c in s.owner && s.owner[c] != i
    ensures Asynchronous(c)
  {
    assert GoodSlice(SliceOf(s, s.owner[c]));
  }

  lemma NoSystemOwner(s: State, i: int)
    requires InvBut(s, i) && !Owns(s, i)
    ensures SystemClass !in s.owner
  {
    if SystemClass in s.owner {
      SlotsAreAsynchronous(s, i, SystemClass);
    }
  }

  lemma AskedIsGood(v: Slice)
    requires Halting(v) && v.n.policy && Asynchronous(v.n.Class())
    ensures GoodStarted(v.(request := Some(ForStop), owns := true, t := v.t + [AskStop]))
  {
    LifeOfAppend(v.t, AskStop);
  }

  lemma AskStopChanges(s: State, i: int)
    requires InvBut(s, i) && Halting(SliceOf(s, i)) && s.notifs[i].policy && Asynchronous(s.notifs[i].Class())
    ensures Changes(s, StopPermission(s, i), i,
                    Live(Started, s.notifs[i], Some(ForStop), true, s.idleFinishes[i], History(s, i) + [AskStop]))
  {
    LogChanges(s, i, AskStop);
    AskChanges(Log(s, i, AskStop), i, ForStop);
  }

  lemma AskStopKeeps(s: State, i: int)
    requires InvBut(s, i) && Halting(SliceOf(s, i)) && s.notifs[i].policy && Asynchronous(s.notifs[i].Class())
    ensures Inv(StopPermission(s, i)) && Only(s, StopPermission(s, i), i) && StopPermission(s, i).notifs == s.notifs
    ensures Weight(SliceOf(StopPermission(s, i), i)) == 200 + s.idleFinishes[i]
  {
    AskStopChanges(s, i);
    AskedIsGood(SliceOf(s, i));
    ButInv(StopPermission(s, i), i);
  }

  /** Destruction without a request: no policy, or one that is answered at once. */
  lemma EndKeeps(s: State, i: int)
    requires InvBut(s, i) && Halting(SliceOf(s, i)) && !s.notifs[i].policy
    ensures Inv(Disposed(s, i)) && i !in Disposed(s, i).notifs
    ensures forall j {:trigger SliceOf(Disposed(s, i), j)} :: j != i ==> SliceOf(Disposed(s, i), j) == SliceOf(s, j)
  {
    var n := s.notifs[i];
    LifeOfAppend(History(s, i), Shutdown(n.order, n.granted, n.held));
    DisposedKeeps(s, i);
  }

  lemma EndAtOnceKeeps(s: State, i: int)
    requires InvBut(s, i) && Halting(SliceOf(s, i)) && s.notifs[i].policy && !Asynchronous(s.notifs[i].Class())
    ensures var r := Disposed(Log(s, i, AskStop), i);
            && Inv(r) && i !in r.notifs && forall j {:trigger SliceOf(r, j)} :: j != i ==> SliceOf(r, j) == SliceOf(s, j)
  {
    var n := s.notifs[i];
    var u := Log(s, i, AskStop);
    NoSystemOwner(s, i);
    LogChanges(s, i, AskStop);
    LifeOfAppend(History(s, i), AskStop);
    LifeOfAppend(History(u, i), Shutdown(n.order, n.granted, n.held));
    DisposedKeeps(u, i);
  }

  lemma ServingWeighs(s: State)
    requires Inv(s)
    ensures var r := StartNext(s);
            && Inv(r) && SameShape(s, r) && r.current == s.current && r.notifs == s.notifs
            && forall j {:trigger SliceOf(r, j)} ::
                 Untouched(SliceOf(s, j), SliceOf(r, j)) && (PlaceOf(s, j).Started? ==> SliceOf(r, j) == SliceOf(s, j))
  {
    StartNextKeeps(s);
    forall j ensures Untouched(SliceOf(s, j), AfterServing(s, j)) {
    }
  }

  lemma ServedKeeps(s: State, u: State, i: int)
    requires Inv(u) && SameShape(s, u) && SameOrder(s, u, i) && Weight(SliceOf(u, i)) < Weight(SliceOf(s, i))
    requires forall j {:trigger SliceOf(u, j)} :: j != i ==> SliceOf(u, j) == SliceOf(s, j)
    ensures Keeps(s, StartNext(u), i)
  {
    var r := StartNext(u);
    ServingWeighs(u);
    assert Untouched(SliceOf(u, i), SliceOf(r, i));
    forall j | j != i ensures Untouched(SliceOf(s, j), SliceOf(r, j)) {
      assert SliceOf(u, j) == SliceOf(s, j);
    }
  }

  lemma LighterByOne(s: State, r: State, i: int)
    requires forall j {:trigger SliceOf(r, j)} :: j != i ==> SliceOf(r, j) == SliceOf(s, j)
    requires Weight(SliceOf(r, i)) < Weight(SliceOf(s, i))
    ensures Lighter(s, r, i)
  {
  }

  lemma CancelledIsGood(v: Slice)
    requires v.Live? && v.place.Started? && GoodStarted(v) && v.n.status == Initialized && !v.n.stopped
    ensures var w := WithRecord(v, v.n.(stopped := true), Cancel, 0); GoodStarted(w) && Weight(w) < Weight(v)
  {
    LifeOfAppend(v.t, Cancel);
  }

  lemma CancelKeeps(s: State, i: int)
    requires Inv(s) && i in s.notifs && PlaceOf(s, i).Started?
    requires s.notifs[i].status == Initialized && !s.notifs[i].stopped
    ensures Keeps(s, Finish(s, i), i)
  {
    var m := s.notifs[i].(stopped := true);
    StartedBut(s, i);
    CancelledIsGood(SliceOf(s, i));
    PutChanges(s, i, m);
    LogChanges(Put(s, i, m), i, Cancel);
    ButInv(Finish(s, i), i);
    LighterByOne(s, Finish(s, i), i);
  }

  /** u is s with another record for i, about to be halted. */
  ghost predicate AboutToHalt(s: State, u: State, i: int) {
    && i in s.notifs && InvBut(u, i) && Only(s, u, i) && CanHalt(SliceOf(u, i)) && SameOrder(s, u, i)
    && Weight(SliceOf(s, i)) >= 300 + u.idleFinishes[i]
  }

  lemma HaltAndAsk(s: State, u: State, i: int)
    requires AboutToHalt(s, u, i) && u.notifs[i].policy && Asynchronous(u.notifs[i].Class())
    ensures Keeps(s, StopPermission(Halted(u, i), i), i)
  {
    HaltedHalts(u, i);
    AskStopKeeps(Halted(u, i), i);
    LighterByOne(s, StopPermission(Halted(u, i), i), i);
  }

  lemma HaltAndEnd(s: State, u: State, i: int)
    requires AboutToHalt(s, u, i) && !u.notifs[i].policy
    ensures Keeps(s, Disposed(Halted(u, i), i), i)
  {
    HaltedHalts(u, i);
    EndKeeps(Halted(u, i), i);
    LighterByOne(s, Disposed(Halted(u, i), i), i);
  }

  lemma HaltAndServe(s: State, u: State, i: int)
    requires AboutToHalt(s, u, i) && u.notifs[i].policy && !Asynchronous(u.notifs[i].Class())
    ensures Keeps(s, StopPermission(Halted(u, i), i), i)
  {
    var h := Halted(u, i);
    var r := Disposed(Log(h, i, AskStop), i);
    HaltedHalts(u, i);
    NoSystemOwner(h, i);
    EndAtOnceKeeps(h, i);
    LighterByOne(s, r, i);
    ServedKeeps(s, r, i);
  }

  lemma HaltKeeps(s: State, u: State, i: int)
    requires AboutToHalt(s, u, i)
    ensures Keeps(s, Finish(u, i), i)
  {
    if !u.notifs[i].policy {
      HaltAndEnd(s, u, i);
    } else if Asynchronous(u.notifs[i].Class()) {
      HaltAndAsk(s, u, i);
    } else {
      HaltAndServe(s, u, i);
    }
  }

  lemma FinishKeeps(s: State, i: int)
    requires Inv(s) && i in s.notifs && PlaceOf(s, i).Started?
    ensures Keeps(s, Finish(s, i), i)
  {
    var n := s.notifs[i];
    StartedBut(s, i);
    if n.status == Initialized && !n.stopped {
      CancelKeeps(s, i);
    } else if n.status == Unknown || n.status == Playing {
      GoodCanHalt(SliceOf(s, i));
      HaltKeeps(s, s, i);
    }
  }

  // ---------------------------------------------------------------- starting

  /** Accepted, taken from wherever it waited, and not begun. */
  ghost predicate Unbegun(s: State, i: int) {
    && InvBut(s, i) && s.notifs[i].Fresh()
    && SliceOf(s, i) == Live(Started, s.notifs[i], None, false, 0, [])
  }

  /** What starting i from s promises. */
  ghost predicate Begins(s: State, r: State, i: int) {
    && Inv(r) && SameShape(s, r) && SameOrder(s, r, i) && i in r.notifs && r.current == Some(i)
    && Weight(SliceOf(r, i)) <= 600
    && forall j {:trigger SliceOf(r, j)} :: j != i ==> Untouched(SliceOf(s, j), SliceOf(r, j))
  }

  lemma CurrentKeeps(s: State, i: int)
    requires InvBut(s, i)
    ensures var r := s.(current := Some(i));
            InvBut(r, i) && forall j {:trigger SliceOf(r, j)} :: SliceOf(r, j) == SliceOf(s, j)
  {
    var r := s.(current := Some(i));
    assert forall j :: SliceOf(r, j) == SliceOf(s, j);
  }

  /** status = INITIALIZED and current = i, with or without a policy object. */
  function Opened(s: State, i: int, policy: bool): State
    requires i in s.notifs
  {
    var s1 := Log(Put(s, i, s.notifs[i].(status := Initialized)), i, Begin).(current := Some(i));
    if policy then Put(s1, i, s.notifs[i].(status := Initialized, policy := true)) else s1
  }

  lemma OpenedChanges(s: State, i: int)
    requires InvBut(s, i)
    ensures var n := s.notifs[i].(status := Initialized);
            Changes(s, Log(Put(s, i, n), i, Begin), i,
                    Live(Started, n, RequestOf(s, i), Owns(s, i), s.idleFinishes[i], History(s, i) + [Begin]))
  {
    var n := s.notifs[i].(status := Initialized);
    PutChanges(s, i, n);
    LogChanges(Put(s, i, n), i, Begin);
  }

  lemma OpenedOpens(s: State, i: int, policy: bool)
    requires Unbegun(s, i)
    ensures var r := Opened(s, i, policy);
            && InvBut(r, i) && SameShape(s, r) && r.current == Some(i) && r.queue == s.queue && r.owner == s.owner
            && (forall j {:trigger SliceOf(r, j)} :: j != i ==> SliceOf(r, j) == SliceOf(s, j))
            && SliceOf(r, i) == Live(Started, s.notifs[i].(status := Initialized, policy := policy), None, false, 0, [Begin])
  {
    var n := s.notifs[i].(status := Initialized);
    var b := Log(Put(s, i, n), i, Begin);
    OpenedChanges(s, i);
    CurrentKeeps(b, i);
    if policy {
      PutChanges(b.(current := Some(i)), i, n.(policy := true));
    }
  }

  lemma TryNextKeeps(s: State, i: int, granted: bool)
    requires InvBut(s, i)
    requires Ready(SliceOf(Put(s, i, s.notifs[i].(status := Playing, granted := granted)), i), Reply)
    ensures var r := TryNext(s, i, granted);
            && Inv(r) && SameShape(s, r) && SameOrder(s, r, i) && r.current == s.current && i in r.notifs
            && Weight(SliceOf(r, i)) <= 325 + s.idleFinishes[i]
            && forall j {:trigger SliceOf(r, j)} :: j != i ==> Untouched(SliceOf(s, j), SliceOf(r, j))
  {
    var m := s.notifs[i].(status := Playing, granted := granted);
    var u := Put(s, i, m);
    PutChanges(s, i, m);
    PlayedKeeps(u, i, Reply);
    PlayWeighs(SliceOf(u, i), Reply);
    ServingWeighs(Played(u, i, Reply));
  }

  lemma FirstActions()
    ensures LifeOf([Begin]) == Life(Phase.Begun, false, false, false, false, false)
    ensures LifeOf([Begin] + [Refused]) == Life(Turned, true, false, false, false, false)
    ensures LifeOf([Begin] + [AskPlay]) == Life(Asked, true, false, false, false, false)
  {
    LifeOfAppend([], Begin);
    LifeOfAppend([Begin], Refused);
    LifeOfAppend([Begin], AskPlay);
    assert [] + [Begin] == [Begin];
  }

  lemma FirstSlicesAreGood(n: Notification)
    requires n.Fresh() && n.order.UsesPolicy() && Asynchronous(n.Class())
    ensures var m := n.(status := Initialized, policy := true);
            && GoodStarted(Live(Started, m, None, false, 0, [Begin] + [Refused]))
            && GoodStarted(Live(Started, m, Some(ForPlay), true, 0, [Begin] + [AskPlay]))
  {
    FirstActions();
  }

  lemma BeginRefused(s: State, i: int)
    requires Unbegun(s, i) && s.notifs[i].order.UsesPolicy() && s.notifs[i].Class() in s.owner
    ensures Begins(s, Log(Opened(s, i, true), i, Refused), i)
  {
    hide Shape;
    var u := Opened(s, i, true);
    OpenedOpens(s, i, true);
    SlotsAreAsynchronous(s, i, s.notifs[i].Class());
    LogChanges(u, i, Refused);
    FirstSlicesAreGood(s.notifs[i]);
    ButInv(Log(u, i, Refused), i);
  }

  lemma BeginAsks(s: State, i: int)
    requires Unbegun(s, i) && s.notifs[i].order.UsesPolicy()
    requires s.notifs[i].Class() !in s.owner && Asynchronous(s.notifs[i].Class())
    ensures Begins(s, PlayPermission(Opened(s, i, true), i), i)
  {
    hide Shape;
    var u := Opened(s, i, true);
    OpenedOpens(s, i, true);
    LogChanges(u, i, AskPlay);
    AskChanges(Log(u, i, AskPlay), i, ForPlay);
    FirstSlicesAreGood(s.notifs[i]);
    ButInv(PlayPermission(u, i), i);
  }

  lemma BeginIsAnswered(s: State, i: int)
    requires Unbegun(s, i) && s.notifs[i].order.UsesPolicy()
    requires s.notifs[i].Class() !in s.owner && !Asynchronous(s.notifs[i].Class())
    ensures Begins(s, PlayPermission(Opened(s, i, true), i), i)
  {
    var u := Opened(s, i, true);
    var a := Log(u, i, AskPlay);
    OpenedOpens(s, i, true);
    LogChanges(u, i, AskPlay);
    FirstActions();
    PutChanges(a, i, a.notifs[i].(status := Playing, granted := a.systemAllowed));
    TryNextKeeps(a, i, a.systemAllowed);
  }

  lemma BeginWithoutPolicy(s: State, i: int)
    requires Unbegun(s, i) && !s.notifs[i].order.UsesPolicy()
    ensures Begins(s, TryNext(Opened(s, i, false), i, true), i)
  {
    var u := Opened(s, i, false);
    OpenedOpens(s, i, false);
    FirstActions();
    PutChanges(u, i, u.notifs[i].(status := Playing, granted := true));
    TryNextKeeps(u, i, true);
  }

  lemma BeginKeeps(s: State, i: int)
    requires Unbegun(s, i)
    ensures Begins(s, StartNotification(s, i), i)
  {
    var n := s.notifs[i];
    if !n.order.UsesPolicy() {
      BeginWithoutPolicy(s, i);
    } else {
      OpenedOpens(s, i, true);
      if n.Class() in s.owner {
        BeginRefused(s, i);
      } else if Asynchronous(n.Class()) {
        BeginAsks(s, i);
      } else {
        BeginIsAnswered(s, i);
      }
    }
  }
}
