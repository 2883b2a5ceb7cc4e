/**
 Exactly which settings keep the three promises about timers: at most one runs, a cleanup leaves none, and
 rounds are spaced.
 */
module PlaybackExact {
  import opened Playback
  import opened PlaybackTheorems
  import opened PlaybackClash

  // ---------------------------------------------------------------- a minimum far beyond the maximum

  /** The end of the stream always finds the repeat of the maximum due before the minimum is reached. */
  predicate Patient(c: Config) {
    !Sole(c) && c.min - c.max > 1050
  }

  /** At most one repeat timer runs, and it has its id; a check timer is due after it. */
  ghost predicate InOrder(c: Config, s: Player) {
    && (s.sources != map[] ==> Busy(s.stream) || s.stream.Drained?)
    && forall id {:trigger s.sources[id]} :: id in s.sources ==>
         && (s.sources[id].kind.Repeat? ==>
               id == s.repeatId && (Busy(s.stream) ==> s.sources[id].due <= s.startedAt + (c.max + 1000) as real))
         && (s.sources[id].kind.Max? ==> Busy(s.stream) && s.sources == map[id := Timer(Max, s.startedAt + c.max as real)])
         && (s.sources[id].kind.Check? ==>
               && s.stream.Drained? && s.startedAt + c.min as real <= s.sources[id].due
               && forall j {:trigger s.sources[j]} :: j in s.sources && j != id ==>
                    s.sources[j].kind.Repeat? && s.sources[j].due <= s.startedAt + (c.max + 1000) as real)
  }

  predicate InTime(s: Player) {
    forall id {:trigger s.sources[id]} :: id in s.sources ==> s.now <= s.sources[id].due
  }

  lemma CleanupEmpties(c: Config, s: Player)
    requires InOrder(c, s) && Named(s)
    ensures Cleanup(s).sources == map[]
  {
    forall id | id in s.sources ensures id in {s.repeatId, s.checkId, s.maxId} {
      assert s.sources[id].kind.Repeat? || s.sources[id].kind.Check? || s.sources[id].kind.Max?;
    }
  }

  lemma NoneIsInOrder(c: Config, s: Player)
    requires s.sources == map[]
    ensures InOrder(c, s)
  {
  }

  /** InOrder looks at the timers, the repeat id and the stream only. */
  lemma SameOrder(c: Config, s: Player, r: Player)
    requires InOrder(c, s) && r.sources == s.sources && r.repeatId == s.repeatId && r.startedAt == s.startedAt
    requires r.stream == s.stream || (s.stream.Copying? && r.stream.Draining?)
    ensures InOrder(c, r)
  {
  }

  lemma OpeningInOrder(c: Config, s: Player, o: Outcome)
    requires s.sources == map[] && c.max > 0
    ensures InOrder(c, PlayReal(c, s, o))
  {
  }

  lemma RepeatInOrder(c: Config, s: Player)
    requires s.sources == map[] && (s.stream.Drained? || (Busy(s.stream) && s.now == s.startedAt + c.max as real))
    ensures InOrder(c, ArmRepeat(s))
  {
  }

  /** The drain: a maximum that runs is removed, and a repeat that runs is due too soon for the minimum. */
  lemma DrainedLeaves(c: Config, s: Player)
    requires InOrder(c, s) && Named(s) && s.stream.Draining?
    ensures var r := s.(stream := Drained, sources := s.sources - {s.maxId}, maxId := 0);
            && InOrder(c, r)
            && forall id {:trigger r.sources[id]} :: id in r.sources ==>
                 r.sources[id].kind.Repeat? && r.sources[id].due <= s.startedAt + (c.max + 1000) as real
  {
  }

  lemma CheckInOrder(c: Config, s: Player, ms: int)
    requires InOrder(c, s) && Named(s) && s.stream.Drained? && s.startedAt + c.min as real <= s.now + ms as real
    requires forall id {:trigger s.sources[id]} :: id in s.sources ==>
               s.sources[id].kind.Repeat? && s.sources[id].due <= s.startedAt + (c.max + 1000) as real
    ensures InOrder(c, ArmCheck(s, ms))
  {
  }

  lemma DrainedInOrder(c: Config, s: Player)
    requires Patient(c) && c.repeat && InOrder(c, s) && Named(s) && s.stream.Draining? && InTime(s)
    ensures InOrder(c, OnDrained(c, s))
  {
    hide ArmCheck, ArmRepeat, InOrder, Named;
    var r := s.(stream := Drained, sources := s.sources - {s.maxId}, maxId := 0);
    DrainedLeaves(c, s);
    DrainedLeavesRepeats(s);
    OnlyRepeatsAreNamed(r);
    if r.sources != map[] {
      var id :| id in r.sources;
      DrainedEarly(c, s, r.sources[id].due);
    }
    if !s.stopped {
      if c.min - Elapsed(s) > 50 {
        CheckInOrder(c, r, c.min - Elapsed(s));
      } else {
        RepeatInOrder(c, r);
      }
    }
  }

  /** While the repeat of the maximum is still to come, the minimum is far away. */
  lemma DrainedEarly(c: Config, s: Player, due: real)
    requires Patient(c) && s.now <= due <= s.startedAt + (c.max + 1000) as real
    ensures c.min - Elapsed(s) > 50
  {
  }

  /** When a check or maximum timer fires in time, it is alone; a repeat timer leaves only what is named. */
  lemma FiredIsAlone(c: Config, s: Player, id: nat)
    requires Patient(c) && InOrder(c, s) && InTime(s) && id in s.sources && s.sources[id].due == s.now
    ensures !s.sources[id].kind.Repeat? ==> s.sources - {id} == map[]
  {
    if s.sources[id].kind.Check? {
      assert forall j :: j in s.sources ==> s.now <= s.sources[j].due;
    }
  }

  lemma RepeatFiredEmpties(c: Config, s: Player, id: nat)
    requires InOrder(c, s) && Named(s) && id in s.sources && s.sources[id].kind.Repeat?
    ensures Cleanup(s.(sources := s.sources - {id}, repeatId := 0)).sources == map[]
  {
    forall j | j in s.sources ensures j in {id, s.checkId, s.maxId} {
      assert s.sources[j].kind.Repeat? || s.sources[j].kind.Check? || s.sources[j].kind.Max?;
    }
  }

  lemma RepeatFiredInOrder(c: Config, s: Player, id: nat, o: Outcome)
    requires Patient(c) && InOrder(c, s) && Named(s) && id in s.sources && s.sources[id].kind.Repeat?
    ensures InOrder(c, OnRepeat(c, s.(sources := s.sources - {id}), o))
  {
    hide PlayReal, InOrder, Cleanup, Named;
    RepeatFiredEmpties(c, s, id);
    OpeningInOrder(c, Cleanup(s.(sources := s.sources - {id}, repeatId := 0)), o);
  }

  lemma AloneFiredInOrder(c: Config, s: Player, id: nat)
    requires Patient(c) && InOrder(c, s) && InTime(s) && id in s.sources && s.sources[id].due == s.now
    requires !s.sources[id].kind.Repeat?
    ensures var r := s.(sources := s.sources - {id});
            if s.sources[id].kind.Max? then InOrder(c, OnMax(c, r)) else InOrder(c, OnCheck(c, r))
  {
    hide ArmRepeat;
    var r := s.(sources := s.sources - {id});
    FiredIsAlone(c, s, id);
    RepeatInOrder(c, r);
    RepeatInOrder(c, r.(checkId := 0));
    CheckCommutes(c, r);
  }

  lemma TimerInOrder(c: Config, s: Player, id: nat, o: Outcome)
    requires Patient(c) && InOrder(c, s) && Named(s) && InTime(s) && id in s.sources && s.sources[id].due == s.now
    ensures InOrder(c, OnTimer(c, s, id, o))
  {
    hide OnRepeat, OnMax, OnCheck, InOrder, Named;
    if s.sources[id].kind.Repeat? {
      RepeatFiredInOrder(c, s, id, o);
    } else {
      AloneFiredInOrder(c, s, id);
    }
  }

  lemma EndingInOrder(c: Config, s: Player)
    requires InOrder(c, s) && Named(s)
    ensures InOrder(c, Cleanup(s).(errors := s.errors + 1))
    ensures InOrder(c, Emit(Cleanup(s.(stopped := true)), StoppedSignal))
  {
    hide InOrder, Named;
    CleanupEmpties(c, s);
    NoneIsInOrder(c, Cleanup(s).(errors := s.errors + 1));
    NoneIsInOrder(c, Emit(Cleanup(s.(stopped := true)), StoppedSignal));
  }

  lemma PlayInOrder(c: Config, s: Player, o: Outcome)
    requires s.sources == map[] && c.max > 0
    ensures InOrder(c, Play(c, s, o)) && InOrder(c, ContextReady(c, s, o))
  {
    hide PlayReal, InOrder;
    var a, b := s.(announce := true, stopped := false, played := true), s.(ready := true);
    OpeningInOrder(c, a, o);
    OpeningInOrder(c, b, o);
    NoneIsInOrder(c, a.(pending := true));
    NoneIsInOrder(c, b);
  }

  lemma InOrderStep(c: Config, s0: Player, e: Event, at: real)
    requires Patient(c) && InOrder(c, s0) && Named(s0) && Enabled(s0, e, at)
    requires e.EPlay? || e.EReady? ==> s0.sources == map[]
    ensures InOrder(c, Step(c, s0, e, at))
  {
    hide Play, ContextReady, Cleanup, OnTimer, OnDrained, InOrder, Named;
    var s := s0.(now := at);
    SameOrder(c, s0, s);
    SameNames(s0, s);
    match e
    case EPlay(o) => PlayInOrder(c, s, o);
    case EReady(o) => PlayInOrder(c, s, o);
    case EDrained => DrainedInOrder(c, s);
    case ETimer(id, o) => TimerInOrder(c, s, id, o);
    case EStreamFails => EndingInOrder(c, s);
    case EStop => EndingInOrder(c, s);
    case EErrorIdle => SameOrder(c, s, Emit(s, Error).(errors := s.errors - 1));
    case ECopied => SameOrder(c, s, s.(stream := Draining));
  }

  lemma {:induction false} InOrderRun(c: Config, es: seq<Timed>)
    requires Patient(c) && Possible(c, es)
    ensures InOrder(c, Run(c, es)) && Named(Run(c, es))
  {
    hide Step, InOrder, Named;
    NamedRun(c, es);
    if es != [] {
      var s := Run(c, es[..|es| - 1]);
      InOrderRun(c, es[..|es| - 1]);
      NamedRun(c, es[..|es| - 1]);
      InOrderStep(c, s, es[|es| - 1].event, es[|es| - 1].at);
    } else {
      NoneIsInOrder(c, FRESH);
    }
  }

  // ---------------------------------------------------------------- the three promises

  /** Repeat and a maximum are combined, and the stream can end in time to arm the second repeat. */
  predicate LosesTimers(c: Config) {
    c.hasFile && !Sole(c) && !Patient(c)
  }

  /** A cleanup always finds every timer exactly unless the settings lose one. */
  lemma ExactlyTheseLoseTimers(c: Config)
    ensures (forall es :: Possible(c, es) ==> Cleanup(Run(c, es)).sources == map[]) <==> !LosesTimers(c)
  {
    hide Run, Possible, Cleanup;
    if LosesTimers(c) {
      OneTimerIsLost(c);
    } else {
      forall es | Possible(c, es) ensures Cleanup(Run(c, es)).sources == map[] {
        NoTimerIsLost(c, es);
      }
    }
  }

  lemma NoTimerIsLost(c: Config, es: seq<Timed>)
    requires Possible(c, es) && !LosesTimers(c)
    ensures Cleanup(Run(c, es)).sources == map[]
  {
    hide Run, Possible, InOrder, Named;
    if !c.hasFile {
      NoFileIsIdle(c, es);
    } else if Sole(c) {
      OnlyRepeatsSurvive(c, es);
    } else {
      InOrderRun(c, es);
      CleanupEmpties(c, Run(c, es));
    }
  }

  /** The end of the stream, between the maximum and its repeat, when the minimum is all but reached. */
  lemma OneTimerIsLost(c: Config)
    requires LosesTimers(c)
    ensures exists es :: Possible(c, es) && Cleanup(Run(c, es)).sources != map[]
  {
    hide Run, Possible;
    var t := if c.max >= c.min - 50 then c.max as real else (c.min - 50) as real;
    OverlapLeads(c, t);
    assert 2 in Cleanup(AfterOverlap(c, t)).sources;
  }

  lemma CheckOverlap(c: Config)
    requires c.hasFile && !Sole(c) && c.min - c.max > 50
    ensures var m := c.max as real; var s := Step(c, AfterMax(c), ECopied, m);
            && Enabled(AfterMax(c), ECopied, m) && Enabled(s, EDrained, m)
            && !OneTimer(Step(c, s, EDrained, m))
  {
    var m := c.max as real;
    var s := Step(c, AfterMax(c), ECopied, m);
    var r := Step(c, s, EDrained, m);
    assert 2 in r.sources && 3 in r.sources;
  }

  lemma ClashHasTwoTimers(c: Config)
    requires c.hasFile && !Sole(c)
    ensures exists es :: Possible(c, es) && !OneTimer(Run(c, es))
  {
    hide Run, Possible, Step, Enabled, AfterMax, ByMax;
    var m := c.max as real;
    if c.min - c.max <= 50 {
      OverlapLeads(c, m);
      TwoTimers(c, m);
      assert Possible(c, Overlap(c, m));
    } else {
      MaxLeads(c);
      CheckOverlap(c);
      Extend(c, ByMax(c), Timed(ECopied, m));
      Extend(c, ByMax(c) + [Timed(ECopied, m)], Timed(EDrained, m));
    }
  }

  lemma TwoTimers(c: Config, t: real)
    ensures !OneTimer(AfterOverlap(c, t))
  {
    assert 2 in AfterOverlap(c, t).sources && 3 in AfterOverlap(c, t).sources;
  }

  /** Exactly the playbacks that do not combine repeat with a maximum never have two timers. */
  lemma OneTimerExactlyWithoutTheClash(c: Config)
    ensures (forall es :: Possible(c, es) ==> OneTimer(Run(c, es))) <==> Sole(c) || !c.hasFile
  {
    hide Run, Possible;
    if c.hasFile && !Sole(c) {
      ClashHasTwoTimers(c);
    } else {
      forall es | Possible(c, es) ensures OneTimer(Run(c, es)) {
        if c.hasFile {
          LifecycleHolds(c, es);
        } else {
          NoFileIsIdle(c, es);
        }
      }
    }
  }

  /** The repeat of the maximum begins a round before the minimum, less the tolerance, is over. */
  lemma EarlyRound(c: Config)
    requires c.hasFile && !Sole(c) && c.max < c.min - 50
    ensures var e, at := ETimer(2, Connected), (c.max + 1000) as real;
            Enabled(AfterMax(c), e, at) && !Spaced(c, Step(c, AfterMax(c), e, at).starts)
  {
    var r := Step(c, AfterMax(c), ETimer(2, Connected), (c.max + 1000) as real);
    assert r.starts == [0.0, (c.max + 1000) as real];
    assert r.starts[1] < r.starts[0] + Gap(c) + 1000.0;
  }

  /** Two repeats that are due at once begin two rounds at once. */
  lemma TwoRounds(c: Config)
    requires Overlaps(c, c.max as real)
    ensures var m, at := c.max as real, (c.max + 1000) as real;
            var s := AfterOverlap(c, m);
            && Enabled(s, ETimer(2, Connected), at)
            && var r := Step(c, s, ETimer(2, Connected), at);
               Enabled(r, ETimer(3, Connected), at) && !Spaced(c, Step(c, r, ETimer(3, Connected), at).starts)
  {
    var m, at := c.max as real, (c.max + 1000) as real;
    var r := Step(c, AfterOverlap(c, m), ETimer(2, Connected), at);
    assert r.sources == map[3 := Timer(Repeat, at), 4 := Timer(Max, at + m)];
    var q := Step(c, r, ETimer(3, Connected), at);
    assert q.starts == [0.0, at, at];
    assert q.starts[2] < q.starts[1] + Gap(c) + 1000.0;
  }

  lemma ClashBreaksRounds(c: Config)
    requires c.hasFile && !Sole(c)
    ensures exists es :: Possible(c, es) && !Spaced(c, Run(c, es).starts)
  {
    hide Run, Possible, Step, Enabled, AfterMax, ByMax, Spaced, AfterOverlap, Overlap;
    var m, at := c.max as real, (c.max + 1000) as real;
    if c.max < c.min - 50 {
      MaxLeads(c);
      EarlyRound(c);
      Extend(c, ByMax(c), Timed(ETimer(2, Connected), at));
    } else {
      OverlapLeads(c, m);
      TwoRounds(c);
      Extend(c, Overlap(c, m), Timed(ETimer(2, Connected), at));
      Extend(c, Overlap(c, m) + [Timed(ETimer(2, Connected), at)], Timed(ETimer(3, Connected), at));
    }
  }

  /**
   Rounds begin at least min - 50 + 1000 apart, and never less than 1000, in every run, exactly when repeat
   and a maximum are not combined, or there is no file.
   */
  lemma RoundsAreSpacedExactlyWithoutTheClash(c: Config)
    ensures (forall es :: Possible(c, es) ==> Spaced(c, Run(c, es).starts)) <==> Sole(c) || !c.hasFile
  {
    hide Run, Possible, Spaced;
    if c.hasFile && !Sole(c) {
      ClashBreaksRounds(c);
    } else {
      forall es | Possible(c, es) ensures Spaced(c, Run(c, es).starts) {
        if c.hasFile {
          SpacedRun(c, es);
        } else {
          NoFileIsIdle(c, es);
          SpacedNone(c);
        }
      }
    }
  }

  lemma SpacedRun(c: Config, es: seq<Timed>)
    requires Sole(c) && Possible(c, es)
    ensures Spaced(c, Run(c, es).starts)
  {
    hide Run, Possible;
    RunKeeps(c, es);
  }

  lemma SpacedNone(c: Config)
    ensures Spaced(c, [])
  {
  }
}
