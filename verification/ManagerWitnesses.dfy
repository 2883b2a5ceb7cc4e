/**
 Three runs that wedge the manager: three alarms in a row, the same with a STOP command, and two calls
 during an alarm. The states are written out, one per event.
 */
module ManagerWitnesses {
  import opened Wrappers
  import opened Categories
  import opened Lifecycle
  import opened Manager
  import opened ManagerInvariant
  import opened ManagerRuns
  import opened ManagerTheorems
  import opened ManagerOrder
  import opened ManagerServing
  import opened ManagerProgress
  import opened ManagerServedRuns
  import opened ManagerWedge

  const ALARM := Order(Calendar, true, false, None, None)

  /** An alarm that asks for its tone, sounds it, or is being stopped. */
  function Alarm(status: Status): Notification {
    if status.Playing? then Fresh(ALARM).(status := Playing, policy := true, playing := true, held := NOTHING.(tone := true, timer := true))
    else Fresh(ALARM).(status := status, policy := true)
  }

  const ASKED: seq<Action> := [Begin, AskPlay]
  const HEARD: seq<Action> := ASKED + [Sounded(Reply, false)]
  const STOPPING: seq<Action> := HEARD + [Silence(false), AskStop]
  const ENDED: seq<Action> := STOPPING + [Shutdown(ALARM, false, NOTHING), Destroy]

  /** The first alarm asks and sounds its tone; the second displaces it, and the third waits as well. */
  const S1 := State(Some(1), [], 1, map[1 := Alarm(Initialized)], multiset{}, multiset{},
                    map[AlarmClass := 1], map[1 := ForPlay], false, map[1 := ASKED], [])
  const S2 := State(Some(1), [], 1, map[1 := Alarm(Playing)], multiset{}, multiset{},
                    map[AlarmClass := 1], map[], false, map[1 := HEARD], [])
  const S3 := State(Some(1), [2], 2, map[1 := Alarm(Stopped), 2 := Fresh(ALARM)], multiset{}, multiset{},
                    map[AlarmClass := 1], map[1 := ForStop], false, map[1 := STOPPING, 2 := []], [])
  const S4 := State(Some(1), [2, 3], 3, map[1 := Alarm(Stopped), 2 := Fresh(ALARM), 3 := Fresh(ALARM)], multiset{}, multiset{},
                    map[AlarmClass := 1], map[1 := ForStop], false, map[1 := STOPPING, 2 := [], 3 := []], [])
  /** The second begins; its reply makes the third due, which is refused and becomes current. */
  const S5 := State(None, [3], 3, map[2 := Fresh(ALARM), 3 := Fresh(ALARM)], multiset{2}, multiset{},
                    map[], map[], false, map[1 := ENDED, 2 := [], 3 := []], [2])
  const S6 := State(Some(2), [3], 3, map[2 := Alarm(Initialized), 3 := Fresh(ALARM)], multiset{}, multiset{},
                    map[AlarmClass := 2], map[2 := ForPlay], false, map[1 := ENDED, 2 := ASKED, 3 := []], [2])
  const S7 := State(Some(2), [], 3, map[2 := Alarm(Playing), 3 := Fresh(ALARM)], multiset{3}, multiset{},
                    map[AlarmClass := 2], map[], false, map[1 := ENDED, 2 := HEARD, 3 := []], [2, 3])
  const S8 := State(Some(3), [], 3, map[2 := Alarm(Playing), 3 := Alarm(Initialized)], multiset{}, multiset{},
                    map[AlarmClass := 2], map[], false, map[1 := ENDED, 2 := HEARD, 3 := [Begin, Refused]], [2, 3])
  /** The second ends; then a call comes in. */
  const S9 := State(Some(3), [], 3, map[2 := Alarm(Stopped), 3 := Alarm(Initialized)], multiset{}, multiset{},
                    map[AlarmClass := 2], map[2 := ForStop], false,
                    map[1 := ENDED, 2 := STOPPING, 3 := [Begin, Refused]], [2, 3])
  const S10 := State(Some(3), [], 3, map[3 := Alarm(Initialized)], multiset{}, multiset{},
                     map[], map[], false, map[1 := ENDED, 2 := ENDED, 3 := [Begin, Refused]], [2, 3])
  const S11 := State(Some(3), [4], 4, map[3 := Alarm(Initialized).(stopped := true), 4 := Fresh(CALL)], multiset{}, multiset{},
                     map[], map[], false,
                     map[1 := ENDED, 2 := ENDED, 3 := [Begin, Refused, Cancel], 4 := []], [2, 3])

  lemma FirstAlarm()
    ensures Manager.Start(INITIAL, Fresh(ALARM), true).0 == S1
  {
    var r := Manager.Start(INITIAL, Fresh(ALARM), true).0;
    assert r.trace[1] == ASKED;
    assert r.notifs == S1.notifs;
    assert r.owner == S1.owner;
    assert r.requests == S1.requests;
    assert r.trace == S1.trace;
  }

  /** Refused, an alarm plays its tone. */
  lemma ToneSounds()
    ensures var n := Alarm(Initialized).(status := Playing, granted := false);
            PlaySucceeds(n) && PlayRecord(n) == Alarm(Playing)
  {
  }

  lemma FirstTone()
    ensures OnPlayReply(S1, 1, false) == S2
  {
    hide PlaySucceeds, PlayRecord;
    ToneSounds();
    var r := OnPlayReply(S1, 1, false);
    assert r.notifs == S2.notifs && r.requests == S2.requests && r.trace == S2.trace;
  }

  lemma SecondAlarm()
    ensures Manager.Start(S2, Fresh(ALARM), true).0 == S3
  {
    var r := Manager.Start(S2, Fresh(ALARM), true).0;
    assert r.trace[1] == STOPPING;
    assert r.notifs == S3.notifs;
    assert r.owner == S3.owner;
    assert r.requests == S3.requests;
    assert r.trace == S3.trace;
  }

  lemma ThirdAlarm()
    ensures Manager.Start(S3, Fresh(ALARM), true).0 == S4
  {
  }

  lemma FirstEnds()
    ensures OnStopReply(S4, 1) == S5
  {
    var r := OnStopReply(S4, 1);
    assert r.trace[1] == ENDED;
    assert r.notifs == S5.notifs;
    assert r.owner == S5.owner;
    assert r.requests == S5.requests;
    assert r.trace == S5.trace;
  }

  lemma SecondBegins()
    ensures StartNotification(S5.(idleStarts := S5.idleStarts - multiset{2}), 2) == S6
  {
    var r := StartNotification(S5.(idleStarts := S5.idleStarts - multiset{2}), 2);
    assert r.trace[2] == ASKED;
    assert r.notifs == S6.notifs;
    assert r.owner == S6.owner;
    assert r.requests == S6.requests;
    assert r.trace == S6.trace;
  }

  lemma SecondTone()
    ensures OnPlayReply(S6, 2, false) == S7
  {
    hide PlaySucceeds, PlayRecord;
    ToneSounds();
    var r := OnPlayReply(S6, 2, false);
    assert r.trace[2] == HEARD;
    assert r.notifs == S7.notifs;
    assert r.requests == S7.requests;
    assert r.trace == S7.trace;
  }

  lemma ThirdIsRefused()
    ensures StartNotification(S7.(idleStarts := S7.idleStarts - multiset{3}), 3) == S8
  {
    var r := StartNotification(S7.(idleStarts := S7.idleStarts - multiset{3}), 3);
    assert r.trace[3] == [Begin, Refused];
    assert r.notifs == S8.notifs;
    assert r.trace == S8.trace;
  }

  lemma SecondStops()
    ensures OnTimer(S8, 2) == S9
  {
    var r := OnTimer(S8, 2);
    assert r.trace[2] == STOPPING;
    assert r.notifs == S9.notifs;
    assert r.owner == S9.owner;
    assert r.requests == S9.requests;
    assert r.trace == S9.trace;
  }

  lemma SecondEnds()
    ensures OnStopReply(S9, 2) == S10
  {
    var r := OnStopReply(S9, 2);
    assert r.trace[2] == ENDED;
    assert r.notifs == S10.notifs;
    assert r.owner == S10.owner;
    assert r.requests == S10.requests;
    assert r.trace == S10.trace;
  }

  lemma CallIsQueued()
    ensures Manager.Start(S10, Fresh(CALL), true).0 == S11
  {
    var r := Manager.Start(S10, Fresh(CALL), true).0;
    assert r.trace[3] == [Begin, Refused, Cancel];
    assert r.notifs == S11.notifs;
    assert r.trace == S11.trace;
  }

  // ---------------------------------------------------------------- three alarms

  /** Three alarms, one after the other, and a call. */
  const ALARMS: seq<Event> :=
    [Event.Start(Fresh(ALARM), true), PlayReply(1, false), Event.Start(Fresh(ALARM), true), Event.Start(Fresh(ALARM), true),
     StopReply(1), IdleStart(2), PlayReply(2, false), IdleStart(3), TimerFires(2), StopReply(2),
     Event.Start(Fresh(CALL), true)]

  /** From a, the first k events of es lead to s. */
  ghost predicate LeadTo(a: State, es: seq<Event>, k: nat, s: State) {
    k <= |es| && Inv(a) && Inv(s) && Possible(a, es[..k]) && Run(a, es[..k]) == s
  }

  lemma OneMore(a: State, es: seq<Event>, k: nat, s: State, r: State)
    requires LeadTo(a, es, k, s) && k < |es| && Enabled(s, es[k]) && Step(s, es[k]) == r
    ensures LeadTo(a, es, k + 1, r)
  {
    hide Inv, Enabled, Step;
    assert es[..k] + [es[k]] == es[..k + 1];
    RunOneMore(a, es[..k], es[k]);
    StepKeepsInv(s, es[k]);
  }

  lemma LeadToItself(a: State, es: seq<Event>)
    requires Inv(a)
    ensures LeadTo(a, es, 0, a)
  {
    hide Inv;
    assert es[..0] == [];
  }

  lemma Alarms1()
    ensures LeadTo(INITIAL, ALARMS, 1, S1)
  {
    hide Inv, Run, Possible, Manager.Start, StartNotification, OnPlayReply, OnStopReply, OnTimer, OnCommand;
    InitialInv();
    LeadToItself(INITIAL, ALARMS);
    FirstAlarm();
    OneMore(INITIAL, ALARMS, 0, INITIAL, S1);
  }

  lemma Alarms2()
    ensures LeadTo(INITIAL, ALARMS, 2, S2)
  {
    hide Inv, Run, Possible, Manager.Start, StartNotification, OnPlayReply, OnStopReply, OnTimer, OnCommand;
    Alarms1();
    FirstTone();
    OneMore(INITIAL, ALARMS, 1, S1, S2);
  }

  lemma Alarms3()
    ensures LeadTo(INITIAL, ALARMS, 3, S3)
  {
    hide Inv, Run, Possible, Manager.Start, StartNotification, OnPlayReply, OnStopReply, OnTimer, OnCommand;
    Alarms2();
    SecondAlarm();
    OneMore(INITIAL, ALARMS, 2, S2, S3);
  }

  lemma Alarms4()
    ensures LeadTo(INITIAL, ALARMS, 4, S4)
  {
    hide Inv, Run, Possible, Manager.Start, StartNotification, OnPlayReply, OnStopReply, OnTimer, OnCommand;
    Alarms3();
    ThirdAlarm();
    OneMore(INITIAL, ALARMS, 3, S3, S4);
  }

  lemma Alarms5()
    ensures LeadTo(INITIAL, ALARMS, 5, S5)
  {
    hide Inv, Run, Possible, Manager.Start, StartNotification, OnPlayReply, OnStopReply, OnTimer, OnCommand;
    Alarms4();
    FirstEnds();
    OneMore(INITIAL, ALARMS, 4, S4, S5);
  }

  lemma Alarms6()
    ensures LeadTo(INITIAL, ALARMS, 6, S6)
  {
    hide Inv, Run, Possible, Manager.Start, StartNotification, OnPlayReply, OnStopReply, OnTimer, OnCommand;
    Alarms5();
    SecondBegins();
    OneMore(INITIAL, ALARMS, 5, S5, S6);
  }

  lemma Alarms7()
    ensures LeadTo(INITIAL, ALARMS, 7, S7)
  {
    hide Inv, Run, Possible, Manager.Start, StartNotification, OnPlayReply, OnStopReply, OnTimer, OnCommand;
    Alarms6();
    SecondTone();
    OneMore(INITIAL, ALARMS, 6, S6, S7);
  }

  lemma Alarms8()
    ensures LeadTo(INITIAL, ALARMS, 8, S8)
  {
    hide Inv, Run, Possible, Manager.Start, StartNotification, OnPlayReply, OnStopReply, OnTimer, OnCommand;
    Alarms7();
    ThirdIsRefused();
    OneMore(INITIAL, ALARMS, 7, S7, S8);
  }

  lemma Alarms9()
    ensures LeadTo(INITIAL, ALARMS, 9, S9)
  {
    hide Inv, Run, Possible, Manager.Start, StartNotification, OnPlayReply, OnStopReply, OnTimer, OnCommand;
    Alarms8();
    SecondStops();
    OneMore(INITIAL, ALARMS, 8, S8, S9);
  }

  lemma Alarms10()
    ensures LeadTo(INITIAL, ALARMS, 10, S10)
  {
    hide Inv, Run, Possible, Manager.Start, StartNotification, OnPlayReply, OnStopReply, OnTimer, OnCommand;
    Alarms9();
    SecondEnds();
    OneMore(INITIAL, ALARMS, 9, S9, S10);
  }

  lemma Alarms11()
    ensures LeadTo(INITIAL, ALARMS, 11, S11)
  {
    hide Inv, Run, Possible, Manager.Start, StartNotification, OnPlayReply, OnStopReply, OnTimer, OnCommand;
    Alarms10();
    CallIsQueued();
    OneMore(INITIAL, ALARMS, 10, S10, S11);
  }

  lemma NobodyServesLast()
    ensures Wedged(S11) && AllAsk(S11) && !Served(S11)
  {
    hide HoldsItsEnd;
    forall i ensures !Server(SliceOf(S11, i), i, S11.current) {
    }
  }

  /** From a wedged state whose ids so far are below n, nobody from n on is ever begun. */
  ghost predicate NeverBegun(s: State, n: int)
    requires Inv(s)
  {
    forall es, j :: Possible(s, es) && Occur(s, es) && j >= n ==> !IsStarted(SliceOf(Run(s, es), j))
  }

  lemma WedgedNeverBegins(s: State, n: int)
    requires Inv(s) && Wedged(s) && forall j :: j >= n ==> !IsStarted(SliceOf(s, j))
    ensures NeverBegun(s, n)
  {
    hide Run, Possible, Occur, SliceOf, Inv, Wedged;
    forall es, j | Possible(s, es) && Occur(s, es) && j >= n ensures !IsStarted(SliceOf(Run(s, es), j)) {
      WedgedForever(s, es);
    }
  }

  /**
   Although everybody asks for permission, three alarms in a row wedge the manager: the call that comes
   then waits, and whatever happens afterwards neither it nor any later notification is ever begun.
   */
  lemma ThreeAlarmsWedge()
    ensures StartsAsk(ALARMS) && Inv(INITIAL) && Possible(INITIAL, ALARMS) && Run(INITIAL, ALARMS) == S11
    ensures Reachable(S11) && Inv(S11) && Wedged(S11) && AllAsk(S11) && S11.queue == [4] && !Served(S11) && NeverBegun(S11, 4)
  {
    hide Run, Possible, SliceOf, Shape, GoodSlice, Server, NeverBegun;
    Alarms11();
    NobodyServesLast();
    assert ALARMS[..11] == ALARMS;
    assert forall j :: j >= 4 ==> !IsStarted(SliceOf(S11, j)) by { LateOnesWait(S11); }
    WedgedNeverBegins(S11, 4);
  }

  lemma LateOnesWait(s: State)
    requires forall j :: j >= 4 && j in s.notifs ==> j in s.queue
    ensures forall j :: j >= 4 ==> !IsStarted(SliceOf(s, j))
  {
  }

  // ---------------------------------------------------------------- a STOP command

  /** The second alarm sounds its tone, the third was refused and is current; then a STOP command and a call. */
  const HUSHED: seq<Event> := [PlaybackCommand(AlarmClass, WantStop), Event.Start(Fresh(CALL), true)]

  const H1 := State(Some(3), [], 3, map[2 := Fresh(ALARM).(status := Playing, policy := true), 3 := Alarm(Initialized)],
                    multiset{}, multiset{}, map[AlarmClass := 2], map[], false,
                    map[1 := ENDED, 2 := HEARD + [Silence(false)], 3 := [Begin, Refused]], [2, 3])
  const H2 := State(Some(3), [4], 4,
                    map[2 := Fresh(ALARM).(status := Playing, policy := true), 3 := Alarm(Initialized).(stopped := true),
                        4 := Fresh(CALL)],
                    multiset{}, multiset{}, map[AlarmClass := 2], map[], false,
                    map[1 := ENDED, 2 := HEARD + [Silence(false)], 3 := [Begin, Refused, Cancel], 4 := []], [2, 3])

  lemma SecondIsHushed()
    ensures OnCommand(S8, AlarmClass, WantStop) == H1
  {
    var r := OnCommand(S8, AlarmClass, WantStop);
    assert r.trace[2] == HEARD + [Silence(false)];
    assert r.notifs == H1.notifs;
    assert r.trace == H1.trace;
  }

  lemma CallIsQueuedToo()
    ensures Manager.Start(H1, Fresh(CALL), true).0 == H2
  {
    var r := Manager.Start(H1, Fresh(CALL), true).0;
    assert r.trace[3] == [Begin, Refused, Cancel];
    assert r.notifs == H2.notifs;
    assert r.trace == H2.trace;
  }

  lemma Hushed1()
    ensures LeadTo(S8, HUSHED, 1, H1)
  {
    hide Inv, Run, Possible, Manager.Start, StartNotification, OnPlayReply, OnStopReply, OnTimer, OnCommand;
    Alarms8();
    LeadToItself(S8, HUSHED);
    SecondIsHushed();
    OneMore(S8, HUSHED, 0, S8, H1);
  }

  lemma Hushed2()
    ensures LeadTo(S8, HUSHED, 2, H2)
  {
    hide Inv, Run, Possible, Manager.Start, StartNotification, OnPlayReply, OnStopReply, OnTimer, OnCommand;
    Hushed1();
    CallIsQueuedToo();
    OneMore(S8, HUSHED, 1, H1, H2);
  }

  lemma NobodyServesHushed()
    ensures Wedged(H1) && Wedged(H2) && AllAsk(H2) && !Served(H2)
  {
    forall i ensures !Server(SliceOf(H1, i), i, H1.current) && !Server(SliceOf(H2, i), i, H2.current) {
    }
  }

  /** The timer of the second alarm would have saved the queue; a STOP command takes it away. */
  lemma StopCommandWedges()
    ensures Reachable(S8) && Inv(S8) && Possible(S8, HUSHED) && Run(S8, HUSHED) == H2
    ensures Reachable(H2) && Inv(H2) && Wedged(H2) && AllAsk(H2) && H2.queue == [4] && !Served(H2) && NeverBegun(H2, 4)
  {
    hide Run, Possible, SliceOf, Shape, GoodSlice, Server, NeverBegun, Enabled, Step;
    Alarms8();
    Hushed2();
    NobodyServesHushed();
    assert HUSHED[..2] == HUSHED;
    RunIsReachable(S8, HUSHED);
    assert forall j :: j >= 4 ==> !IsStarted(SliceOf(H2, j)) by { LateOnesWait(H2); }
    WedgedNeverBegins(H2, 4);
  }

  // ---------------------------------------------------------------- two calls during an alarm

  const RING := Order(Ringtone, true, false, Some("ring"), None)

  /** The first alarm sounds its tone; two calls come, the first is granted and the second refused. */
  const CALLS: seq<Event> :=
    [Event.Start(Fresh(RING), true), Event.Start(Fresh(RING), true), StopReply(1), IdleStart(2), PlayReply(2, true), IdleStart(3)]

  const RINGING := Fresh(RING).(status := Playing, policy := true, playing := true, granted := true, held := NOTHING.(playback := true))
  const RANG: seq<Action> := ASKED + [Sounded(Reply, true)]

  const C1 := State(Some(1), [2], 2, map[1 := Alarm(Stopped), 2 := Fresh(RING)], multiset{}, multiset{},
                    map[AlarmClass := 1], map[1 := ForStop], false, map[1 := STOPPING, 2 := []], [])
  const C2 := State(Some(1), [2, 3], 3, map[1 := Alarm(Stopped), 2 := Fresh(RING), 3 := Fresh(RING)], multiset{}, multiset{},
                    map[AlarmClass := 1], map[1 := ForStop], false, map[1 := STOPPING, 2 := [], 3 := []], [])
  const C3 := State(None, [3], 3, map[2 := Fresh(RING), 3 := Fresh(RING)], multiset{2}, multiset{},
                    map[], map[], false, map[1 := ENDED, 2 := [], 3 := []], [2])
  const C4 := State(Some(2), [3], 3, map[2 := Fresh(RING).(status := Initialized, policy := true), 3 := Fresh(RING)],
                    multiset{}, multiset{}, map[RingtoneClass := 2], map[2 := ForPlay], false,
                    map[1 := ENDED, 2 := ASKED, 3 := []], [2])
  const C5 := State(Some(2), [], 3, map[2 := RINGING, 3 := Fresh(RING)], multiset{3}, multiset{},
                    map[RingtoneClass := 2], map[], false, map[1 := ENDED, 2 := RANG, 3 := []], [2, 3])
  const C6 := State(Some(3), [], 3, map[2 := RINGING, 3 := Fresh(RING).(status := Initialized, policy := true)],
                    multiset{}, multiset{}, map[RingtoneClass := 2], map[], false,
                    map[1 := ENDED, 2 := RANG, 3 := [Begin, Refused]], [2, 3])

  lemma FirstCall()
    ensures Manager.Start(S2, Fresh(RING), true).0 == C1
  {
    var r := Manager.Start(S2, Fresh(RING), true).0;
    assert r.trace[1] == STOPPING;
    assert r.notifs == C1.notifs;
    assert r.owner == C1.owner;
    assert r.requests == C1.requests;
    assert r.trace == C1.trace;
  }

  lemma SecondCall()
    ensures Manager.Start(C1, Fresh(RING), true).0 == C2
  {
  }

  lemma AlarmEnds()
    ensures OnStopReply(C2, 1) == C3
  {
    var r := OnStopReply(C2, 1);
    assert r.trace[1] == ENDED;
    assert r.notifs == C3.notifs;
    assert r.owner == C3.owner;
    assert r.requests == C3.requests;
    assert r.trace == C3.trace;
  }

  lemma CallBegins()
    ensures StartNotification(C3.(idleStarts := C3.idleStarts - multiset{2}), 2) == C4
  {
    var r := StartNotification(C3.(idleStarts := C3.idleStarts - multiset{2}), 2);
    assert r.trace[2] == ASKED;
    assert r.notifs == C4.notifs;
    assert r.owner == C4.owner;
    assert r.requests == C4.requests;
    assert r.trace == C4.trace;
  }

  lemma RingSounds()
    ensures var n := Fresh(RING).(status := Playing, policy := true, granted := true);
            PlaySucceeds(n) && PlayRecord(n) == RINGING
  {
  }

  lemma CallRings()
    ensures OnPlayReply(C4, 2, true) == C5
  {
    hide PlaySucceeds, PlayRecord;
    RingSounds();
    var r := OnPlayReply(C4, 2, true);
    assert r.trace[2] == RANG;
    assert r.notifs == C5.notifs;
    assert r.requests == C5.requests;
    assert r.trace == C5.trace;
  }

  lemma SecondCallIsRefused()
    ensures StartNotification(C5.(idleStarts := C5.idleStarts - multiset{3}), 3) == C6
  {
    var r := StartNotification(C5.(idleStarts := C5.idleStarts - multiset{3}), 3);
    assert r.trace[3] == [Begin, Refused];
    assert r.notifs == C6.notifs;
    assert r.trace == C6.trace;
  }

  lemma Calls1()
    ensures LeadTo(S2, CALLS, 1, C1)
  {
    hide Inv, Run, Possible, Manager.Start, StartNotification, OnPlayReply, OnStopReply, OnTimer, OnCommand;
    Alarms2();
    LeadToItself(S2, CALLS);
    FirstCall();
    OneMore(S2, CALLS, 0, S2, C1);
  }

  lemma Calls2()
    ensures LeadTo(S2, CALLS, 2, C2)
  {
    hide Inv, Run, Possible, Manager.Start, StartNotification, OnPlayReply, OnStopReply, OnTimer, OnCommand;
    Calls1();
    SecondCall();
    OneMore(S2, CALLS, 1, C1, C2);
  }

  lemma Calls3()
    ensures LeadTo(S2, CALLS, 3, C3)
  {
    hide Inv, Run, Possible, Manager.Start, StartNotification, OnPlayReply, OnStopReply, OnTimer, OnCommand;
    Calls2();
    AlarmEnds();
    OneMore(S2, CALLS, 2, C2, C3);
  }

  lemma Calls4()
    ensures LeadTo(S2, CALLS, 4, C4)
  {
    hide Inv, Run, Possible, Manager.Start, StartNotification, OnPlayReply, OnStopReply, OnTimer, OnCommand;
    Calls3();
    CallBegins();
    OneMore(S2, CALLS, 3, C3, C4);
  }

  lemma Calls5()
    ensures LeadTo(S2, CALLS, 5, C5)
  {
    hide Inv, Run, Possible, Manager.Start, StartNotification, OnPlayReply, OnStopReply, OnTimer, OnCommand;
    Calls4();
    CallRings();
    OneMore(S2, CALLS, 4, C4, C5);
  }

  lemma Calls6()
    ensures LeadTo(S2, CALLS, 6, C6)
  {
    hide Inv, Run, Possible, Manager.Start, StartNotification, OnPlayReply, OnStopReply, OnTimer, OnCommand;
    Calls5();
    SecondCallIsRefused();
    OneMore(S2, CALLS, 5, C5, C6);
  }

  lemma RefusedCallIsCurrent()
    ensures Wedged(C6) && SomeoneServes(C6) && AllAsk(C6)
  {
    assert Server(SliceOf(C6, 2), 2, C6.current);
    assert IsRefused(SliceOf(C6, 3));
  }

  /**
   Two calls during an alarm: the first rings and would serve the queue, but the second, refused and
   current, lets nobody into it. Every later notification is rejected.
   */
  lemma TwoCallsWedge()
    ensures Reachable(S2) && Inv(S2) && Possible(S2, CALLS) && Run(S2, CALLS) == C6
    ensures Reachable(C6) && Inv(C6) && Wedged(C6) && AllAsk(C6) && SomeoneServes(C6) && NeverBegun(C6, 4)
    ensures forall es :: Possible(C6, es) && Occur(C6, es) ==> Returned(C6, es) == []
  {
    hide Run, Possible, SliceOf, Shape, GoodSlice, Server, NeverBegun, Enabled, Step;
    Alarms2();
    Calls6();
    RefusedCallIsCurrent();
    assert CALLS[..6] == CALLS;
    RunIsReachable(S2, CALLS);
    assert forall j :: j >= 4 ==> !IsStarted(SliceOf(C6, j)) by { LateOnesWait(C6); }
    WedgedNeverBegins(C6, 4);
    forall es | Possible(C6, es) && Occur(C6, es) ensures Returned(C6, es) == [] {
      RefusedRingtoneRejectsAll(C6, es);
    }
  }

  // ---------------------------------------------------------------- a stop by id

  /** A notification that plays but is not current is out of reach for a stop by its id. */
  lemma StopByIdMissesPlaying()
    ensures Reachable(S8) && Consistent(S8) && S8.notifs[2].playing && StopById(S8, 2) == S8
  {
    hide Run, Possible, GoodSlice, SliceOf;
    Alarms8();
    InvConsistent(S8);
  }
}
