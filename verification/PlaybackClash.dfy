/**
 Playbacks that combine repeat with a maximum: the maximum and the end of the stream may each arm a repeat
 timer, and the id of the first is then lost. What a cleanup leaves running, and which stops are final.
 */
module PlaybackClash {
  import opened Playback
  import opened PlaybackTheorems

  // ---------------------------------------------------------------- timers whose id is known

  /** A check or maximum timer that runs is the one that its id names, and belongs to the stream. */
  ghost predicate Named(s: Player) {
    forall id {:trigger s.sources[id]} :: id in s.sources ==>
      && id <= s.lastId
      && (s.sources[id].kind.Check? ==> id == s.checkId && s.stream.Drained?)
      && (s.sources[id].kind.Max? ==> id == s.maxId && Busy(s.stream))
  }

  /** Only repeat timers run. */
  ghost predicate OnlyRepeats(s: Player) {
    forall id {:trigger s.sources[id]} :: id in s.sources ==> id <= s.lastId && s.sources[id].kind.Repeat?
  }

  lemma CleanupNames(s: Player)
    requires Named(s)
    ensures OnlyRepeats(Cleanup(s)) && Named(Cleanup(s))
  {
  }

  lemma OpeningNames(c: Config, s: Player, o: Outcome)
    requires OnlyRepeats(s)
    ensures Named(PlayReal(c, s, o))
  {
  }

  lemma RepeatNames(s: Player)
    requires Named(s)
    ensures Named(ArmRepeat(s))
  {
  }

  lemma CheckNames(s: Player, ms: int)
    requires OnlyRepeats(s) && s.stream.Drained?
    ensures Named(ArmCheck(s, ms))
  {
  }

  lemma OnlyRepeatsAreNamed(s: Player)
    requires OnlyRepeats(s)
    ensures Named(s)
  {
  }

  /** Named looks at nothing but the timers, the ids of two of them, and the stream. */
  lemma SameNames(s: Player, r: Player)
    requires Named(s) && r.sources == s.sources && r.lastId == s.lastId && r.stream == s.stream
    requires r.checkId == s.checkId && r.maxId == s.maxId
    ensures Named(r)
  {
  }

  lemma DrainedNames(c: Config, s: Player)
    requires Named(s) && s.stream.Draining?
    ensures Named(OnDrained(c, s))
  {
    hide ArmRepeat, ArmCheck, Named;
    var s1 := s.(stream := Drained, sources := s.sources - {s.maxId}, maxId := 0);
    DrainedLeavesRepeats(s);
    OnlyRepeatsAreNamed(s1);
    CheckNames(s1, c.min - Elapsed(s));
    RepeatNames(s1);
    SameNames(s1, Emit(s1, Succeeded(s1.now)));
  }

  lemma DrainedLeavesRepeats(s: Player)
    requires Named(s) && s.stream.Draining?
    ensures OnlyRepeats(s.(stream := Drained, sources := s.sources - {s.maxId}, maxId := 0))
  {
  }

  lemma FiredNames(s: Player, id: nat)
    requires Named(s) && id in s.sources
    ensures var r := s.(sources := s.sources - {id}); Named(r) && Named(r.(repeatId := 0))
    ensures s.sources[id].kind.Check? ==> Named(s.(sources := s.sources - {id}, checkId := 0))
  {
  }

  lemma TimerNames(c: Config, s: Player, id: nat, o: Outcome)
    requires Named(s) && id in s.sources
    ensures Named(OnTimer(c, s, id, o))
  {
    hide OnRepeat, OnCheck, OnMax, Named;
    var s1 := s.(sources := s.sources - {id});
    FiredNames(s, id);
    match s.sources[id].kind
    case Repeat => RepeatFiredNames(c, s1, o);
    case Check => CheckFiredNames(c, s1);
    case Max => MaxFiredNames(c, s1);
  }

  lemma RepeatFiredNames(c: Config, s: Player, o: Outcome)
    requires Named(s.(repeatId := 0))
    ensures Named(OnRepeat(c, s, o))
  {
    hide PlayReal, Cleanup, Named, OnlyRepeats;
    CleanupNames(s.(repeatId := 0));
    OpeningNames(c, Cleanup(s.(repeatId := 0)), o);
  }

  lemma MaxFiredNames(c: Config, s: Player)
    requires Named(s)
    ensures Named(OnMax(c, s))
  {
    hide Cleanup, Named, OnlyRepeats, ArmRepeat;
    RepeatNames(s);
    CleanupNames(s);
    SameNames(Cleanup(s), Emit(Cleanup(s), Succeeded(s.now)));
  }

  lemma CheckFiredNames(c: Config, s: Player)
    requires Named(s.(checkId := 0))
    ensures Named(OnCheck(c, s))
  {
    hide Named;
    var s0 := s.(checkId := 0);
    RepeatNames(s0);
    CheckCommutes(c, s);
    SameNames(s0, Emit(s0, Succeeded(s0.now)));
  }

  lemma EmptyNames(s: Player)
    requires s.sources == map[]
    ensures OnlyRepeats(s)
  {
  }

  lemma PlayNames(c: Config, s: Player, o: Outcome)
    requires s.sources == map[]
    ensures Named(Play(c, s, o)) && Named(ContextReady(c, s, o))
  {
    hide PlayReal, Named, OnlyRepeats;
    var a, b := s.(announce := true, stopped := false, played := true), s.(ready := true);
    EmptyNames(a);
    EmptyNames(b);
    EmptyNames(a.(pending := true));
    OpeningNames(c, a, o);
    OpeningNames(c, b, o);
    OnlyRepeatsAreNamed(a.(pending := true));
    OnlyRepeatsAreNamed(b);
  }

  lemma StreamNames(s: Player)
    requires Named(s)
    ensures s.stream.Copying? ==> Named(s.(stream := Draining))
  {
  }

  lemma EndingNames(s: Player)
    requires Named(s)
    ensures Named(Cleanup(s).(errors := s.errors + 1))
    ensures Named(Emit(Cleanup(s.(stopped := true)), StoppedSignal))
  {
    hide Cleanup, Named, OnlyRepeats;
    var t := s.(stopped := true);
    SameNames(s, t);
    CleanupNames(s);
    CleanupNames(t);
    SameNames(Cleanup(s), Cleanup(s).(errors := s.errors + 1));
    SameNames(Cleanup(t), Emit(Cleanup(t), StoppedSignal));
  }

  lemma NamedStep(c: Config, s0: Player, e: Event, at: real)
    requires Named(s0) && Enabled(s0, e, at) && (e.EPlay? || e.EReady? ==> s0.sources == map[])
    ensures Named(Step(c, s0, e, at))
  {
    hide Play, ContextReady, Cleanup, OnTimer, OnDrained, Named;
    var s := s0.(now := at);
    SameNames(s0, s);
    match e
    case EPlay(o) => PlayNames(c, s, o);
    case EReady(o) => PlayNames(c, s, o);
    case EDrained => DrainedNames(c, s);
    case ETimer(id, o) => TimerNames(c, s, id, o);
    case EStreamFails => EndingNames(s);
    case EStop => EndingNames(s);
    case EErrorIdle => SameNames(s, Emit(s, Error).(errors := s.errors - 1));
    case ECopied => StreamNames(s);
  }

  lemma {:induction false} NamedRun(c: Config, es: seq<Timed>)
    requires c.repeat && Possible(c, es)
    ensures Named(Run(c, es)) && Repeating(c, Run(c, es))
  {
    hide Step, Named;
    RepeatingRun(c, es);
    if es != [] {
      var s := Run(c, es[..|es| - 1]);
      RepeatingRun(c, es[..|es| - 1]);
      NamedRun(c, es[..|es| - 1]);
      NamedStep(c, s, es[|es| - 1].event, es[|es| - 1].at);
    } else {
      FreshIsNamed();
    }
  }

  lemma FreshIsNamed()
    ensures Named(FRESH)
  {
  }

  /** Whatever a cleanup leaves running is a repeat timer, and only a clash leaves any. */
  lemma OnlyRepeatsSurvive(c: Config, es: seq<Timed>)
    requires Possible(c, es)
    ensures OnlyRepeats(Cleanup(Run(c, es)))
    ensures Sole(c) ==> Cleanup(Run(c, es)).sources == map[]
  {
    hide Step, Run, Possible, Cleanup, Named;
    CleanupLeavesNothing(c, es);
    if !Sole(c) {
      NamedRun(c, es);
      CleanupNames(Run(c, es));
    }
  }

  // ---------------------------------------------------------------- what a stop stops

  /** No call of play comes. */
  predicate NoPlay(more: seq<Timed>) {
    forall k :: 0 <= k < |more| ==> !more[k].event.EPlay?
  }

  /** Nothing more is opened or announced. */
  ghost predicate Same(s: Player, r: Player) {
    r.starts == s.starts && StartedCount(r.out) == StartedCount(s.out)
  }

  /** Without another play, a stop at this moment is the end of it. */
  ghost predicate StopIsFinal(c: Config, es: seq<Timed>, at: real)
    requires Possible(c, es)
  {
    var stopped := es + [Timed(EStop, at)];
    forall more :: NoPlay(more) && Possible(c, stopped + more) ==> Same(Run(c, es), Run(c, stopped + more))
  }

  /** Nothing is open, no timer runs, and no context is waited for. */
  predicate Over(s: Player) {
    s.stream.Closed? && s.sources == map[] && (s.ready || !s.pending)
  }

  lemma OverStaysOver(c: Config, s: Player, e: Event, at: real)
    requires Over(s) && Enabled(s, e, at) && !e.EPlay?
    ensures Over(Step(c, s, e, at)) && Same(s, Step(c, s, e, at))
  {
    hide StartedCount, Emit;
    EmitCounts(s.(now := at), Error);
    var t := s.(now := at, stopped := true);
    EmitCounts(Cleanup(t), StoppedSignal);
    EmitKeepsTheRest(s.(now := at), Error);
    EmitKeepsTheRest(Cleanup(t), StoppedSignal);
  }

  lemma EmitKeepsTheRest(s: Player, x: Signal)
    ensures Emit(s, x) == s.(out := Emit(s, x).out)
  {
  }

  lemma {:induction false} OverRun(c: Config, es: seq<Timed>, more: seq<Timed>)
    requires Possible(c, es) && Possible(c, es + more) && Over(Run(c, es)) && NoPlay(more)
    ensures Over(Run(c, es + more)) && Same(Run(c, es), Run(c, es + more))
    decreases |more|
  {
    hide Step, Over, StartedCount;
    if more == [] {
      assert es + more == es;
    } else {
      var n := |more| - 1;
      assert (es + more)[..|es + more| - 1] == es + more[..n];
      OverRun(c, es, more[..n]);
      OverStaysOver(c, Run(c, es + more[..n]), more[n].event, more[n].at);
    }
  }

  lemma StoppedState(c: Config, s0: Player, at: real)
    requires Enabled(s0, EStop, at)
    ensures var r := Step(c, s0, EStop, at);
            && r.sources == Cleanup(s0).sources && r.stream.Closed? && r.ready == s0.ready && r.pending == s0.pending
            && r.now == at && r.played == s0.played && Same(s0, r)
  {
    hide StartedCount, Emit;
    var t := s0.(now := at, stopped := true);
    EmitCounts(Cleanup(t), StoppedSignal);
    EmitKeepsTheRest(Cleanup(t), StoppedSignal);
  }

  lemma {:induction false} EarliestTimer(m: map<nat, Timer>) returns (id: nat)
    requires m != map[]
    ensures id in m && forall j :: j in m ==> m[id].due <= m[j].due
    decreases |m|
  {
    var k :| k in m;
    var rest := m - {k};
    assert forall j :: j in m ==> j == k || (j in rest && rest[j] == m[j]);
    if rest == map[] {
      id := k;
    } else {
      var j := EarliestTimer(rest);
      id := if m[k].due <= m[j].due then k else j;
    }
  }

  /** The event opens a stream, so the state is not the same. */
  lemma Reopens(c: Config, es: seq<Timed>, s: Player, e: Timed)
    requires Possible(c, es) && Enabled(Run(c, es), e.event, e.at)
    requires |Step(c, Run(c, es), e.event, e.at).starts| == |s.starts| + 1
    ensures Possible(c, es + [e]) && !Same(s, Run(c, es + [e]))
  {
    hide Step, Enabled, StartedCount;
    Extend(c, es, e);
  }

  lemma ReadyReopens(c: Config, s: Player, at: real)
    requires c.hasFile && s.pending && !s.ready && s.now <= at && forall id :: id in s.sources ==> at <= s.sources[id].due
    ensures Enabled(s, EReady(Connected), at) && |Step(c, s, EReady(Connected), at).starts| == |s.starts| + 1
  {
  }

  lemma RepeatReopens(c: Config, s: Player, id: nat)
    requires c.hasFile && id in s.sources && s.sources[id].kind.Repeat? && s.now <= s.sources[id].due
    requires forall j :: j in s.sources ==> s.sources[id].due <= s.sources[j].due
    ensures var e, at := ETimer(id, Connected), s.sources[id].due;
            Enabled(s, e, at) && |Step(c, s, e, at).starts| == |s.starts| + 1
  {
    hide PlayReal;
    var t := s.(now := s.sources[id].due, sources := s.sources - {id}, repeatId := 0);
    ConnectedStarts(c, Cleanup(t));
  }

  lemma ConnectedStarts(c: Config, s: Player)
    requires c.hasFile
    ensures PlayReal(c, s, Connected).starts == s.starts + [s.now]
  {
  }

  lemma NotFinal(c: Config, es: seq<Timed>, at: real, e: Timed)
    requires Possible(c, es) && Possible(c, es + [Timed(EStop, at)] + [e]) && !e.event.EPlay?
    requires !Same(Run(c, es), Run(c, es + [Timed(EStop, at)] + [e]))
    ensures !StopIsFinal(c, es, at)
  {
    hide Run, Possible;
    assert NoPlay([e]);
  }

  /**
   A stop is the end of it exactly when there is no file, or neither a context is waited for nor a repeat
   timer runs whose id was lost. Otherwise there is a run in which it plays on after the stop.
   */
  lemma ExactlyTheseStop(c: Config, es: seq<Timed>, at: real)
    requires Possible(c, es) && Enabled(Run(c, es), EStop, at)
    ensures StopIsFinal(c, es, at)
            <==> !c.hasFile || ((Run(c, es).ready || !Run(c, es).pending) && Cleanup(Run(c, es)).sources == map[])
  {
    hide Step, Enabled, Run, Possible, Same, NoPlay, Cleanup, StartedCount;
    if !c.hasFile {
      WithoutFileStopsStop(c, es, at);
    } else if (Run(c, es).ready || !Run(c, es).pending) && Cleanup(Run(c, es)).sources == map[] {
      OverStops(c, es, at);
    } else {
      SomeStopsGoOn(c, es, at);
    }
  }

  lemma WithoutFileStopsStop(c: Config, es: seq<Timed>, at: real)
    requires Possible(c, es) && !c.hasFile
    ensures StopIsFinal(c, es, at)
  {
    hide Run, Possible;
    var stopped := es + [Timed(EStop, at)];
    NoFileIsIdle(c, es);
    forall more | NoPlay(more) && Possible(c, stopped + more) ensures Same(Run(c, es), Run(c, stopped + more)) {
      NoFileIsIdle(c, stopped + more);
    }
  }

  lemma OverStops(c: Config, es: seq<Timed>, at: real)
    requires Possible(c, es) && Enabled(Run(c, es), EStop, at)
    requires (Run(c, es).ready || !Run(c, es).pending) && Cleanup(Run(c, es)).sources == map[]
    ensures StopIsFinal(c, es, at)
  {
    hide Run, Possible, Step, Enabled, Cleanup, StartedCount;
    var s, stopped := Run(c, es), es + [Timed(EStop, at)];
    StoppedState(c, s, at);
    Extend(c, es, Timed(EStop, at));
    forall more | NoPlay(more) && Possible(c, stopped + more) ensures Same(s, Run(c, stopped + more)) {
      OverRun(c, stopped, more);
    }
  }

  lemma SomeStopsGoOn(c: Config, es: seq<Timed>, at: real)
    requires Possible(c, es) && Enabled(Run(c, es), EStop, at) && c.hasFile
    requires (Run(c, es).pending && !Run(c, es).ready) || Cleanup(Run(c, es)).sources != map[]
    ensures !StopIsFinal(c, es, at)
  {
    hide Run, Possible, Step, StartedCount, StopIsFinal;
    var s, stopped := Run(c, es), es + [Timed(EStop, at)];
    StoppedState(c, s, at);
    Extend(c, es, Timed(EStop, at));
    var r := Run(c, stopped);
    var e: Timed;
    if s.pending && !s.ready {
      e := Timed(EReady(Connected), at);
      ReadyReopens(c, r, at);
    } else {
      OnlyRepeatsSurvive(c, es);
      var id := EarliestTimer(r.sources);
      e := Timed(ETimer(id, Connected), r.sources[id].due);
      RepeatReopens(c, r, id);
    }
    Reopens(c, stopped, s, e);
    NotFinal(c, es, at, e);
  }

  /** Without a clash, a stop before the context is ready is the only one that does not stop. */
  lemma StopBeforeReadyGoesOn(c: Config, es: seq<Timed>, at: real)
    requires Possible(c, es) && Enabled(Run(c, es), EStop, at) && c.hasFile && Sole(c)
    ensures StopIsFinal(c, es, at) <==> Run(c, es).ready || !Run(c, es).pending
  {
    hide Step, Enabled, Run, Possible, StopIsFinal, Cleanup;
    ExactlyTheseStop(c, es, at);
    OnlyRepeatsSurvive(c, es);
  }

  // ---------------------------------------------------------------- the clash

  /** The context gets ready, play is called, and the maximum arms a repeat a second later. */
  function ByMax(c: Config): seq<Timed> {
    [Timed(EReady(Connected), 0.0), Timed(EPlay(Connected), 0.0), Timed(ETimer(1, Connected), c.max as real)]
  }

  function AfterMax(c: Config): Player {
    var m := c.max as real;
    Player(true, true, false, false, false, true, Copying, 0.0, 2, 0, 1, map[2 := Timer(Repeat, m + 1000.0)], 2, 0, m,
           [Started], [0.0], 1, 1)
  }

  lemma FirstRound(c: Config)
    requires c.hasFile && c.max > 0
    ensures var s := Step(c, FRESH, EReady(Connected), 0.0);
            && s == FRESH.(ready := true)
            && Step(c, s, EPlay(Connected), 0.0) ==
               Player(true, true, false, false, false, true, Copying, 0.0, 0, 0, 1, map[1 := Timer(Max, c.max as real)], 1,
                      0, 0.0, [Started], [0.0], 1, 1)
  {
  }

  lemma MaxLeads(c: Config)
    requires c.hasFile && !Sole(c)
    ensures Possible(c, ByMax(c)) && Run(c, ByMax(c)) == AfterMax(c)
  {
    hide Step, Run, Possible, Enabled;
    var es := ByMax(c);
    FirstRound(c);
    FirstEnabled(c);
    FreshRun(c);
    Extend(c, [], es[0]);
    assert [] + [es[0]] == es[..1];
    Extend(c, es[..1], es[1]);
    assert es[..1] + [es[1]] == es[..2];
    Extend(c, es[..2], es[2]);
    assert es[..2] + [es[2]] == es;
  }

  lemma FreshRun(c: Config)
    ensures Possible(c, []) && Run(c, []) == FRESH
  {
  }

  lemma FirstEnabled(c: Config)
    requires c.hasFile && !Sole(c)
    ensures Enabled(FRESH, EReady(Connected), 0.0) && Enabled(FRESH.(ready := true), EPlay(Connected), 0.0)
    ensures var s := Player(true, true, false, false, false, true, Copying, 0.0, 0, 0, 1, map[1 := Timer(Max, c.max as real)],
                            1, 0, 0.0, [Started], [0.0], 1, 1);
            Enabled(s, ETimer(1, Connected), c.max as real) && Step(c, s, ETimer(1, Connected), c.max as real) == AfterMax(c)
  {
    assert map[1 := Timer(Max, c.max as real)] - {1} == map[];
  }

  /** The end of the stream, at t, before that repeat. */
  function Overlap(c: Config, t: real): seq<Timed> {
    ByMax(c) + [Timed(ECopied, t)] + [Timed(EDrained, t)]
  }

  /** Two repeat timers, and only the second has an id. */
  function AfterOverlap(c: Config, t: real): Player {
    AfterMax(c).(stream := Drained, repeatId := 3, maxId := 0, lastId := 3, now := t,
                 sources := map[2 := Timer(Repeat, c.max as real + 1000.0), 3 := Timer(Repeat, t + 1000.0)])
  }

  predicate Overlaps(c: Config, t: real) {
    c.hasFile && !Sole(c) && c.max as real <= t <= c.max as real + 1000.0 && (c.min - 50) as real <= t
  }

  lemma OverlapStep(c: Config, t: real)
    requires Overlaps(c, t)
    ensures Enabled(AfterMax(c), ECopied, t)
    ensures var s := Step(c, AfterMax(c), ECopied, t); Enabled(s, EDrained, t) && Step(c, s, EDrained, t) == AfterOverlap(c, t)
  {
    assert AfterMax(c).sources - {1} == AfterMax(c).sources;
    assert AfterMax(c).sources[3 := Timer(Repeat, t + 1000.0)] == AfterOverlap(c, t).sources;
  }

  lemma OverlapLeads(c: Config, t: real)
    requires Overlaps(c, t)
    ensures Possible(c, Overlap(c, t)) && Run(c, Overlap(c, t)) == AfterOverlap(c, t)
  {
    hide Step, Run, Possible, Enabled, ByMax, AfterMax, AfterOverlap, Overlaps;
    MaxLeadsTo(c, t);
    OverlapStep(c, t);
    Extend(c, ByMax(c), Timed(ECopied, t));
    Extend(c, ByMax(c) + [Timed(ECopied, t)], Timed(EDrained, t));
  }

  lemma MaxLeadsTo(c: Config, t: real)
    requires Overlaps(c, t)
    ensures Possible(c, ByMax(c)) && Run(c, ByMax(c)) == AfterMax(c)
  {
    MaxLeads(c);
  }
}
