/**
 What a playback owes: every play that meets its context is an attempt to open a stream, every attempt that
 fails is one error, every stop is one signal, and every stream that drains or runs into its maximum is
 answered by a success or by another round.
 */
module PlaybackAnswers {
  import opened Playback
  import opened PlaybackTheorems

  function ErrorCount(out: seq<Signal>): nat {
    if out == [] then 0 else ErrorCount(out[..|out| - 1]) + if out[|out| - 1].Error? then 1 else 0
  }

  function StoppedCount(out: seq<Signal>): nat {
    if out == [] then 0 else StoppedCount(out[..|out| - 1]) + if out[|out| - 1].StoppedSignal? then 1 else 0
  }

  lemma EmitCountsToo(s: Player, x: Signal)
    ensures ErrorCount(Emit(s, x).out) == ErrorCount(s.out) + if x.Error? then 1 else 0
    ensures StoppedCount(Emit(s, x).out) == StoppedCount(s.out) + if x.StoppedSignal? then 1 else 0
  {
    assert Emit(s, x).out[..|s.out|] == s.out;
  }

  // ---------------------------------------------------------------- the end of a round

  /** What is known of every playback, whatever its timers do. */
  ghost predicate Sound(c: Config, s: Player) {
    if Sole(c) then Inv(c, s) else c.repeat && Repeating(c, s)
  }

  lemma RunIsSound(c: Config, es: seq<Timed>)
    requires Possible(c, es)
    ensures Sound(c, Run(c, es))
  {
    if Sole(c) {
      RunKeeps(c, es);
    } else {
      RepeatingRun(c, es);
    }
  }

  /** A check of the elapsed time is still to come. */
  predicate Checking(s: Player) {
    s.checkId in s.sources && s.sources[s.checkId].kind.Check?
  }

  /** The round has been answered: by a success, or by the timer of the next round. */
  predicate Answered(c: Config, s: Player) {
    if c.repeat then s.repeatId in s.sources && s.sources[s.repeatId].kind.Repeat? else SucceededCount(s.out) == 1
  }

  ghost predicate Owes(c: Config, s: Player) {
    && (s.stream.Drained? && !s.stopped ==> Checking(s) || Answered(c, s))
    && (s.starts != [] ==> !s.announce)
    && (s.announce ==> s.played)
    && (!s.played || !s.ready ==> s.stream.Closed? && s.starts == [])
    && (Busy(s.stream) || s.stream.Drained? ==> s.starts != [])
    && (s.starts != [] ==> s.starts[|s.starts| - 1] == s.startedAt)
    && forall id {:trigger s.sources[id]} :: id in s.sources && s.sources[id].kind.Repeat? ==> s.sources[id].due <= s.now + 1000.0
  }

  lemma LaterOwes(c: Config, s: Player, at: real)
    requires Owes(c, s) && s.now <= at
    ensures Owes(c, s.(now := at))
  {
  }

  lemma OpeningOwes(c: Config, s: Player, o: Outcome)
    requires s.stream.Closed? && s.played && s.ready && (s.starts != [] ==> !s.announce)
    requires s.starts != [] ==> s.starts[|s.starts| - 1] == s.startedAt
    requires forall id {:trigger s.sources[id]} :: id in s.sources && s.sources[id].kind.Repeat? ==> s.sources[id].due <= s.now + 1000.0
    ensures Owes(c, PlayReal(c, s, o))
  {
  }

  lemma CleanupOwes(c: Config, s: Player)
    requires Owes(c, s)
    ensures Owes(c, Cleanup(s)) && Cleanup(s).stream.Closed?
  {
  }

  lemma EmitOwes(c: Config, s: Player, x: Signal)
    requires Owes(c, s) && !x.Succeeded?
    ensures Owes(c, Emit(s, x))
  {
    EmitCounts(s, x);
  }

  lemma SucceedingOwes(c: Config, s: Player, x: Signal)
    requires !c.repeat && x.Succeeded? && SucceededCount(s.out) == 0
    requires (s.starts != [] ==> !s.announce) && (s.announce ==> s.played)
    requires (!s.played || !s.ready ==> s.stream.Closed? && s.starts == [])
    requires (Busy(s.stream) || s.stream.Drained? ==> s.starts != [])
    requires s.starts != [] ==> s.starts[|s.starts| - 1] == s.startedAt
    requires forall id {:trigger s.sources[id]} :: id in s.sources && s.sources[id].kind.Repeat? ==> s.sources[id].due <= s.now + 1000.0
    ensures Owes(c, Emit(s, x)) && SucceededCount(Emit(s, x).out) == 1
  {
    EmitCounts(s, x);
  }

  lemma DrainedOwes(c: Config, s: Player)
    requires Sound(c, s) && Owes(c, s) && s.stream.Draining?
    ensures Owes(c, OnDrained(c, s))
  {
    hide Emit, SucceededCount, StartedCount;
    var s1 := s.(stream := Drained, sources := s.sources - {s.maxId}, maxId := 0);
    if !s.stopped && !(c.min > 0 && c.min - Elapsed(s) > 50) && !c.repeat {
      SucceedingOwes(c, s1, Succeeded(s.now));
    }
  }

  lemma CheckOwes(c: Config, s: Player, id: nat)
    requires Sound(c, s) && Owes(c, s) && id in s.sources && s.sources[id].kind.Check?
    ensures Owes(c, OnCheck(c, s.(sources := s.sources - {id})))
    ensures !c.repeat ==> SucceededCount(OnCheck(c, s.(sources := s.sources - {id})).out) == 1 == SucceededCount(s.out) + 1
  {
    hide Emit, SucceededCount, StartedCount;
    var s1 := s.(sources := s.sources - {id});
    if !c.repeat {
      SucceedingOwes(c, s1, Succeeded(s.now));
    }
  }

  lemma MaxOwes(c: Config, s: Player, id: nat)
    requires Sound(c, s) && Owes(c, s) && id in s.sources && s.sources[id].kind.Max?
    ensures Owes(c, OnMax(c, s.(sources := s.sources - {id})))
    ensures !c.repeat ==> SucceededCount(OnMax(c, s.(sources := s.sources - {id})).out) == 1 == SucceededCount(s.out) + 1
  {
    hide Emit, SucceededCount, StartedCount;
    var s1 := s.(sources := s.sources - {id});
    if c.repeat {
      MaxArms(c, s, id);
    } else {
      SucceedingOwes(c, Cleanup(s1), Succeeded(s.now));
    }
  }

  lemma MaxArms(c: Config, s: Player, id: nat)
    requires c.repeat && Owes(c, s) && id in s.sources
    ensures Owes(c, ArmRepeat(s.(sources := s.sources - {id})))
  {
  }

  lemma TimerOwes(c: Config, s: Player, id: nat, o: Outcome)
    requires Sound(c, s) && Owes(c, s) && id in s.sources
    ensures Owes(c, OnTimer(c, s, id, o))
  {
    hide PlayReal, OnMax, OnCheck, Sound;
    var s1 := s.(sources := s.sources - {id});
    match s.sources[id].kind
    case Repeat => TimerIsOfOpen(c, s, id); OpeningOwes(c, Cleanup(s1.(repeatId := 0)), o);
    case Check => CheckOwes(c, s, id);
    case Max => MaxOwes(c, s, id);
  }

  lemma TimerIsOfOpen(c: Config, s: Player, id: nat)
    requires Sound(c, s) && id in s.sources
    ensures s.played && s.ready
  {
  }

  lemma MeetingOwes(c: Config, s: Player, e: Event)
    requires Owes(c, s) && Sound(c, s) && ((e.EPlay? && !s.played) || (e.EReady? && !s.ready))
    ensures Owes(c, if e.EPlay? then Play(c, s, e.o) else ContextReady(c, s, e.o))
  {
    hide PlayReal;
    if e.EPlay? {
      if s.ready {
        OpeningOwes(c, s.(announce := true, stopped := false, played := true), e.o);
      }
    } else if s.pending {
      OpeningOwes(c, s.(ready := true), e.o);
    }
  }

  lemma LaterIsSound(c: Config, s: Player, at: real)
    requires Sound(c, s) && s.now <= at
    ensures Sound(c, s.(now := at))
  {
  }

  lemma StepOwes(c: Config, s0: Player, e: Event, at: real)
    requires Sound(c, s0) && Owes(c, s0) && Enabled(s0, e, at)
    ensures Owes(c, Step(c, s0, e, at))
  {
    hide Sound, Owes, Play, ContextReady, OnDrained, OnTimer, Cleanup, Emit;
    var s := s0.(now := at);
    LaterOwes(c, s0, at);
    LaterIsSound(c, s0, at);
    match e
    case EPlay(o) => MeetingOwes(c, s, e);
    case EReady(o) => MeetingOwes(c, s, e);
    case ECopied => CopiedOwes(c, s);
    case EDrained => DrainedOwes(c, s);
    case ETimer(id, o) => TimerOwes(c, s, id, o);
    case EStreamFails => CleanupOwes(c, s); ErrorsAreFree(c, Cleanup(s), s.errors + 1);
    case EErrorIdle => EmitOwes(c, s, Error); ErrorsAreFree(c, Emit(s, Error), s.errors - 1);
    case EStop => StopOwes(c, s);
  }

  lemma CopiedOwes(c: Config, s: Player)
    requires Sound(c, s) && Owes(c, s) && s.stream.Copying?
    ensures Owes(c, s.(stream := Draining))
  {
  }

  lemma ErrorsAreFree(c: Config, s: Player, errors: nat)
    requires Owes(c, s)
    ensures Owes(c, s.(errors := errors))
  {
  }

  lemma StopOwes(c: Config, s: Player)
    requires Owes(c, s)
    ensures Owes(c, Emit(Cleanup(s.(stopped := true)), StoppedSignal))
  {
    EmitCounts(Cleanup(s.(stopped := true)), StoppedSignal);
  }

  lemma {:induction false} RunOwes(c: Config, es: seq<Timed>)
    requires Possible(c, es)
    ensures Owes(c, Run(c, es))
  {
    hide Step, Enabled, Sound;
    if es != [] {
      RunOwes(c, es[..|es| - 1]);
      RunIsSound(c, es[..|es| - 1]);
      StepOwes(c, Run(c, es[..|es| - 1]), es[|es| - 1].event, es[|es| - 1].at);
    }
  }

  /**
   After every run: a stream that has drained and was not stopped is answered, unless its check timer is
   still to fire. A single shot has then succeeded, exactly once; a repeating playback has the timer of its
   next round, due within a second. A connected stream has been announced, exactly once.
   */
  lemma EveryRoundIsAnswered(c: Config, es: seq<Timed>)
    requires Possible(c, es)
    ensures var s := Run(c, es);
            && (s.stream.Drained? && !StoppedLast(es) && (forall id :: id in s.sources ==> !s.sources[id].kind.Check?) ==>
                  if c.repeat then s.repeatId in s.sources && s.sources[s.repeatId].kind.Repeat?
                  else SucceededCount(s.out) == 1)
            && (forall id :: id in s.sources && s.sources[id].kind.Repeat? ==> s.sources[id].due <= s.now + 1000.0)
            && (s.starts != [] ==> StartedCount(s.out) == 1)
  {
    FlagsAreEvents(c, es);
    RunOwes(c, es);
    RunIsSound(c, es);
  }

  /** The timers of the current round are due on its own clock: the check at the minimum, the maximum on the spot. */
  lemma DeadlinesAreKept(c: Config, es: seq<Timed>)
    requires Possible(c, es) && !c.repeat
    ensures var s := Run(c, es);
            && (c.max > 0 && Busy(s.stream) ==>
                  && s.maxId in s.sources && s.sources[s.maxId].kind.Max?
                  && |s.starts| > 0 && s.sources[s.maxId].due == s.starts[|s.starts| - 1] + c.max as real)
            && (forall id :: id in s.sources && s.sources[id].kind.Check? ==>
                  && |s.starts| > 0
                  && s.starts[|s.starts| - 1] + c.min as real <= s.sources[id].due < s.starts[|s.starts| - 1] + (c.min + 1) as real)
  {
    RunKeeps(c, es);
  }

  /** The check timer and the maximum of a single shot each bring its one success, there and then. */
  lemma TimersSucceed(c: Config, es: seq<Timed>, id: nat, o: Outcome, at: real)
    requires Possible(c, es) && !c.repeat && Enabled(Run(c, es), ETimer(id, o), at)
    requires !Run(c, es).sources[id].kind.Repeat?
    ensures var s, r := Run(c, es), Step(c, Run(c, es), ETimer(id, o), at);
            && SucceededCount(s.out) == 0 && SucceededCount(r.out) == 1
            && r.out == s.out + [Succeeded(at)]
            && (s.sources[id].kind.Max? ==> r.stream.Closed? && !r.file)
  {
    hide SucceededCount, StartedCount;
    var s := Run(c, es).(now := at);
    RunOwes(c, es);
    RunIsSound(c, es);
    LaterIsSound(c, Run(c, es), at);
    LaterOwes(c, Run(c, es), at);
    if s.sources[id].kind.Check? {
      CheckOwes(c, s, id);
    } else {
      MaxOwes(c, s, id);
    }
  }

  /**
   A drain that comes within 50 ms of the minimum, or later, ends the round at once: a single shot succeeds,
   a repeating playback begins again after a second. An earlier one waits for the minimum.
   */
  lemma DrainDecides(c: Config, es: seq<Timed>, at: real)
    requires Possible(c, es) && Enabled(Run(c, es), EDrained, at) && !StoppedLast(es)
    ensures var s, r := Run(c, es), Step(c, Run(c, es), EDrained, at);
            && |s.starts| > 0
            && var late := c.min <= 0 || at >= s.starts[|s.starts| - 1] + (c.min - 50) as real;
               && (late && !c.repeat ==> r.out == s.out + [Succeeded(at)])
               && (late && c.repeat ==>
                     r.out == s.out && r.repeatId in r.sources && r.sources[r.repeatId] == Timer(Repeat, at + 1000.0))
               && (!late ==>
                     && r.out == s.out && r.checkId in r.sources && r.sources[r.checkId].kind.Check?
                     && s.starts[|s.starts| - 1] + c.min as real <= r.sources[r.checkId].due
                     && r.sources[r.checkId].due < s.starts[|s.starts| - 1] + (c.min + 1) as real)
  {
    hide StoppedLast, WasPlayed, WasReady;
    RunOwes(c, es);
    FlagsAreEvents(c, es);
  }

  // ---------------------------------------------------------------- attempts, errors and stops

  ghost predicate WasPlayed(es: seq<Timed>) {
    exists k :: 0 <= k < |es| && es[k].event.EPlay?
  }

  ghost predicate WasReady(es: seq<Timed>) {
    exists k :: 0 <= k < |es| && es[k].event.EReady?
  }

  /** The last event is an attempt to open a stream: play and the context have just met, or a round repeats. */
  ghost predicate Attempts(c: Config, es: seq<Timed>)
    requires Possible(c, es) && es != []
  {
    var before := es[..|es| - 1];
    c.hasFile &&
    match es[|es| - 1].event
    case EPlay(_) => WasReady(before)
    case EReady(_) => WasPlayed(before)
    case ETimer(id, _) => Run(c, before).sources[id].kind.Repeat?
    case _ => false
  }

  function Of(e: Event): Outcome {
    match e
    case EPlay(o) => o
    case EReady(o) => o
    case ETimer(_, o) => o
    case _ => NoFile
  }

  ghost function Connects(c: Config, es: seq<Timed>): nat
    requires Possible(c, es)
  {
    if es == [] then 0
    else Connects(c, es[..|es| - 1]) + if Attempts(c, es) && Of(es[|es| - 1].event).Connected? then 1 else 0
  }

  /** Attempts that did not connect, and streams that failed later. */
  ghost function Failures(c: Config, es: seq<Timed>): nat
    requires Possible(c, es)
  {
    if es == [] then 0
    else Failures(c, es[..|es| - 1]) +
         if (Attempts(c, es) && !Of(es[|es| - 1].event).Connected?) || es[|es| - 1].event.EStreamFails? then 1 else 0
  }

  function Stops(es: seq<Timed>): nat {
    if es == [] then 0 else Stops(es[..|es| - 1]) + if es[|es| - 1].event.EStop? then 1 else 0
  }

  /** A stop came after the play, or before any. */
  function StoppedLast(es: seq<Timed>): bool {
    if es == [] then false
    else if es[|es| - 1].event.EStop? then true
    else if es[|es| - 1].event.EPlay? then false
    else StoppedLast(es[..|es| - 1])
  }

  lemma WasStep(es: seq<Timed>)
    requires es != []
    ensures WasPlayed(es) <==> WasPlayed(es[..|es| - 1]) || es[|es| - 1].event.EPlay?
    ensures WasReady(es) <==> WasReady(es[..|es| - 1]) || es[|es| - 1].event.EReady?
  {
    var before := es[..|es| - 1];
    assert forall k :: 0 <= k < |before| ==> before[k] == es[k];
  }

  /** Whether play and the context have met is what the flags say. */
  lemma {:induction false} FlagsAreEvents(c: Config, es: seq<Timed>)
    requires Possible(c, es)
    ensures var s := Run(c, es);
            && (s.played <==> WasPlayed(es)) && (s.ready <==> WasReady(es)) && (!s.ready ==> (s.pending <==> s.played))
            && s.stopped == StoppedLast(es)
  {
    hide WasPlayed, WasReady, Step, Enabled;
    if es != [] {
      var before, e := es[..|es| - 1], es[|es| - 1];
      FlagsAreEvents(c, before);
      WasStep(es);
      FlagsStep(c, Run(c, before), e.event, e.at);
    } else {
      NothingWas();
    }
  }

  lemma NothingWas()
    ensures !WasPlayed([]) && !WasReady([])
  {
  }

  predicate SameFlags(s: Player, r: Player) {
    r.played == s.played && r.ready == s.ready && r.pending == s.pending && r.stopped == s.stopped
  }

  /** What a connected attempt changes, besides the timers. */
  lemma ConnectedFields(c: Config, s: Player)
    requires c.hasFile
    ensures var r := PlayReal(c, s, Connected);
            && r.starts == s.starts + [s.now] && r.errors == s.errors && SameFlags(s, r)
            && r.out == (if s.announce then s.out + [Started] else s.out)
            && r.file && r.stream == Copying
  {
    hide ArmMax;
    ArmMaxFields(s, c.max);
    var s1 := OpenStream(OpenFile(s), Copying).(startedAt := s.now, starts := s.starts + [s.now]);
    ArmMaxFields(s1, c.max);
  }

  lemma ArmMaxFields(s: Player, ms: int)
    ensures var r := ArmMax(s, ms);
            && r.starts == s.starts && r.errors == s.errors && SameFlags(s, r) && r.out == s.out && r.announce == s.announce
            && r.file == s.file && r.stream == s.stream
  {
  }

  /** What an attempt that fails changes. */
  lemma FailedFields(c: Config, s: Player, o: Outcome)
    requires c.hasFile && !o.Connected?
    ensures var r := PlayReal(c, s, o);
            && r.starts == s.starts && r.errors == s.errors + 1 && SameFlags(s, r) && r.out == s.out
            && r.file == (s.file || !o.NoFile?) && r.stream == (if o.NotConnected? then Unconnected else s.stream)
  {
    hide PlayReal, OpenFile, OpenStream;
    FailedIs(c, s, o);
    OpenFields(s);
    OpenFields(OpenFile(s));
  }

  lemma FailedIs(c: Config, s: Player, o: Outcome)
    requires c.hasFile && !o.Connected?
    ensures PlayReal(c, s, o) == var u := if o.NoFile? then s else if o.NotConnected? then OpenStream(OpenFile(s), Unconnected) else OpenFile(s);
                                 u.(errors := s.errors + 1)
  {
    hide OpenFile, OpenStream, Emit, ArmMax;
    OpenErrors(s);
    OpenErrors(OpenFile(s));
  }

  lemma OpenErrors(s: Player)
    ensures OpenFile(s).errors == OpenStream(s, Unconnected).errors == s.errors
  {
  }

  lemma OpenFields(s: Player)
    ensures var r := OpenFile(s);
            r.starts == s.starts && r.errors == s.errors && SameFlags(s, r) && r.out == s.out && r.file && r.stream == s.stream
    ensures var r := OpenStream(s, Unconnected);
            r.starts == s.starts && r.errors == s.errors && SameFlags(s, r) && r.out == s.out && r.file == s.file
            && r.stream == Unconnected
  {
  }

  lemma AttemptFlags(c: Config, s: Player, o: Outcome)
    ensures SameFlags(s, PlayReal(c, s, o))
  {
    hide PlayReal;
    if c.hasFile {
      if o.Connected? {
        ConnectedFields(c, s);
      } else {
        FailedFields(c, s, o);
      }
    } else {
      assert PlayReal(c, s, o) == s by { NoAttempt(c, s, o); }
    }
  }

  lemma NoAttempt(c: Config, s: Player, o: Outcome)
    requires !c.hasFile
    ensures PlayReal(c, s, o) == s
  {
  }

  lemma RoundFlags(c: Config, s: Player)
    ensures SameFlags(s, RepeatOrSucceed(c, s)) && SameFlags(s, ArmRepeat(s)) && SameFlags(s, Cleanup(s))
  {
  }

  lemma TimerFlags(c: Config, s: Player, id: nat, o: Outcome)
    requires id in s.sources
    ensures SameFlags(s, OnTimer(c, s, id, o))
  {
    hide OnRepeat, OnMax, RepeatOrSucceed;
    var s1 := s.(sources := s.sources - {id});
    RoundFlags(c, s1);
    FiredFlags(c, s1, o);
  }

  lemma FiredFlags(c: Config, s: Player, o: Outcome)
    ensures SameFlags(s, OnRepeat(c, s, o)) && SameFlags(s, OnMax(c, s))
  {
    hide PlayReal, ArmRepeat, Cleanup;
    RoundFlags(c, s);
    RoundFlags(c, s.(repeatId := 0));
    AttemptFlags(c, Cleanup(s.(repeatId := 0)), o);
  }

  lemma DrainFlags(c: Config, s: Player)
    ensures SameFlags(s, OnDrained(c, s))
  {
    hide RepeatOrSucceed;
    RoundFlags(c, s.(stream := Drained, sources := s.sources - {s.maxId}, maxId := 0));
  }

  lemma FlagsStep(c: Config, s: Player, e: Event, at: real)
    requires Enabled(s, e, at)
    ensures var r := Step(c, s, e, at);
            && r.played == (s.played || e.EPlay?) && r.ready == (s.ready || e.EReady?)
            && r.pending == (s.pending || (e.EPlay? && !s.ready))
            && r.stopped == (e.EStop? || (s.stopped && !e.EPlay?))
  {
    hide PlayReal, OnTimer, OnDrained, Cleanup;
    var s1 := s.(now := at);
    match e
    case EPlay(o) => AttemptFlags(c, s1.(announce := true, stopped := false, played := true), o);
    case EReady(o) => AttemptFlags(c, s1.(ready := true), o);
    case EDrained => DrainFlags(c, s1);
    case ETimer(id, o) => TimerFlags(c, s1, id, o);
    case EStop => RoundFlags(c, s1.(stopped := true));
    case EStreamFails => RoundFlags(c, s1);
    case _ =>
  }

  /** One step opens a stream, owes an error, or says that it has stopped, exactly when it should. */
  lemma StepCounts(c: Config, s0: Player, e: Event, at: real, attempt: bool)
    requires Enabled(s0, e, at)
    requires attempt <==> c.hasFile && ((e.EPlay? && s0.ready) || (e.EReady? && s0.pending) ||
                                        (e.ETimer? && s0.sources[e.id].kind.Repeat?))
    ensures var r := Step(c, s0, e, at);
            && r.starts == s0.starts + (if attempt && Of(e).Connected? then [at] else [])
            && ErrorCount(r.out) + r.errors == ErrorCount(s0.out) + s0.errors +
                 (if (attempt && !Of(e).Connected?) || e.EStreamFails? then 1 else 0)
            && StoppedCount(r.out) == StoppedCount(s0.out) + if e.EStop? then 1 else 0
  {
    hide Play, ContextReady, Cleanup, Emit, OnTimer, OnDrained, ErrorCount, StoppedCount;
    var s := s0.(now := at);
    match e
    case EPlay(o) => PlayCounts(c, s, o);
    case EReady(o) => ReadyCounts(c, s, o);
    case ECopied =>
    case EDrained => DrainedCounts(c, s);
    case ETimer(id, o) => TimerCounts(c, s, id, o);
    case EStreamFails => CleanupCounts(s);
    case EErrorIdle => ErrorCounts(s);
    case EStop => StopCounts(s);
  }

  lemma PlayCounts(c: Config, s: Player, o: Outcome)
    ensures var r, attempt := Play(c, s, o), c.hasFile && s.ready;
            && r.starts == s.starts + (if attempt && o.Connected? then [s.now] else [])
            && ErrorCount(r.out) + r.errors == ErrorCount(s.out) + s.errors + (if attempt && !o.Connected? then 1 else 0)
            && StoppedCount(r.out) == StoppedCount(s.out)
  {
    hide PlayReal, ErrorCount, StoppedCount;
    OpeningCounts(c, s.(announce := true, stopped := false, played := true), o);
  }

  lemma ReadyCounts(c: Config, s: Player, o: Outcome)
    ensures var r, attempt := ContextReady(c, s, o), c.hasFile && s.pending;
            && r.starts == s.starts + (if attempt && o.Connected? then [s.now] else [])
            && ErrorCount(r.out) + r.errors == ErrorCount(s.out) + s.errors + (if attempt && !o.Connected? then 1 else 0)
            && StoppedCount(r.out) == StoppedCount(s.out)
  {
    hide PlayReal, ErrorCount, StoppedCount;
    OpeningCounts(c, s.(ready := true), o);
  }

  lemma ErrorCounts(s: Player)
    requires s.errors > 0
    ensures var r := Emit(s, Error).(errors := s.errors - 1);
            && r.starts == s.starts && ErrorCount(r.out) + r.errors == ErrorCount(s.out) + s.errors
            && StoppedCount(r.out) == StoppedCount(s.out)
  {
    hide ErrorCount, StoppedCount;
    EmitCountsToo(s, Error);
  }

  lemma StopCounts(s: Player)
    ensures var r := Emit(Cleanup(s.(stopped := true)), StoppedSignal);
            && r.starts == s.starts && ErrorCount(r.out) + r.errors == ErrorCount(s.out) + s.errors
            && StoppedCount(r.out) == StoppedCount(s.out) + 1
  {
    hide Cleanup, ErrorCount, StoppedCount;
    CleanupCounts(s.(stopped := true));
    EmitCountsToo(Cleanup(s.(stopped := true)), StoppedSignal);
  }

  lemma EmitIs(s: Player, x: Signal)
    ensures Emit(s, x) == s.(out := s.out + [x])
  {
  }

  lemma CleanupCounts(s: Player)
    ensures var r := Cleanup(s); r.starts == s.starts && r.out == s.out && r.errors == s.errors
  {
  }

  lemma OpeningCounts(c: Config, s: Player, o: Outcome)
    ensures var r := PlayReal(c, s, o);
            && r.starts == s.starts + (if c.hasFile && o.Connected? then [s.now] else [])
            && ErrorCount(r.out) + r.errors == ErrorCount(s.out) + s.errors + (if c.hasFile && !o.Connected? then 1 else 0)
            && StoppedCount(r.out) == StoppedCount(s.out)
  {
    hide PlayReal, ErrorCount, StoppedCount;
    EmitCountsToo(s, Started);
    EmitIs(s, Started);
    if !c.hasFile {
      NoAttempt(c, s, o);
    } else if o.Connected? {
      ConnectedFields(c, s);
    } else {
      FailedFields(c, s, o);
    }
  }

  lemma RoundCounts(c: Config, s: Player)
    ensures var r := RepeatOrSucceed(c, s);
            r.starts == s.starts && ErrorCount(r.out) == ErrorCount(s.out) && StoppedCount(r.out) == StoppedCount(s.out)
            && r.errors == s.errors
  {
    hide ErrorCount, StoppedCount;
    EmitCountsToo(s, Succeeded(s.now));
  }

  lemma DrainedCounts(c: Config, s: Player)
    ensures var r := OnDrained(c, s);
            r.starts == s.starts && ErrorCount(r.out) == ErrorCount(s.out) && StoppedCount(r.out) == StoppedCount(s.out)
            && r.errors == s.errors
  {
    hide RepeatOrSucceed, ErrorCount, StoppedCount;
    RoundCounts(c, s.(stream := Drained, sources := s.sources - {s.maxId}, maxId := 0));
  }

  lemma TimerCounts(c: Config, s: Player, id: nat, o: Outcome)
    requires id in s.sources
    ensures var r, attempt := OnTimer(c, s, id, o), c.hasFile && s.sources[id].kind.Repeat?;
            && r.starts == s.starts + (if attempt && o.Connected? then [s.now] else [])
            && ErrorCount(r.out) + r.errors == ErrorCount(s.out) + s.errors + (if attempt && !o.Connected? then 1 else 0)
            && StoppedCount(r.out) == StoppedCount(s.out)
  {
    hide RepeatOrSucceed, OnMax, OnRepeat, PlayReal, Cleanup, ErrorCount, StoppedCount;
    var s1 := s.(sources := s.sources - {id});
    match s.sources[id].kind
    case Repeat => RepeatCounts(c, s1, o);
    case Check => RoundCounts(c, s1);
    case Max => MaxCounts(c, s1);
  }

  lemma RepeatCounts(c: Config, s: Player, o: Outcome)
    ensures var r := OnRepeat(c, s, o);
            && r.starts == s.starts + (if c.hasFile && o.Connected? then [s.now] else [])
            && ErrorCount(r.out) + r.errors == ErrorCount(s.out) + s.errors + (if c.hasFile && !o.Connected? then 1 else 0)
            && StoppedCount(r.out) == StoppedCount(s.out)
  {
    hide PlayReal, Cleanup, ErrorCount, StoppedCount;
    CleanupCounts(s.(repeatId := 0));
    CleanupNow(s.(repeatId := 0));
    OpeningCounts(c, Cleanup(s.(repeatId := 0)), o);
  }

  lemma MaxCounts(c: Config, s: Player)
    ensures var r := OnMax(c, s);
            r.starts == s.starts && ErrorCount(r.out) == ErrorCount(s.out) && StoppedCount(r.out) == StoppedCount(s.out)
            && r.errors == s.errors
  {
    hide Cleanup, Emit, ErrorCount, StoppedCount;
    CleanupCounts(s);
    EmitCountsToo(Cleanup(s), Succeeded(s.now));
    EmitIs(Cleanup(s), Succeeded(s.now));
  }

  lemma CleanupNow(s: Player)
    ensures Cleanup(s).now == s.now
  {
  }

  /**
   After every run: a stream was connected for each attempt that connected, every failure is one error,
   emitted or still to be, and every stop is one signal. So no play that meets its context is lost.
   */
  lemma {:induction false} AttemptsAreCounted(c: Config, es: seq<Timed>)
    requires Possible(c, es)
    ensures var s := Run(c, es);
            && |s.starts| == Connects(c, es)
            && ErrorCount(s.out) + s.errors == Failures(c, es)
            && StoppedCount(s.out) == Stops(es)
  {
    hide Step, Enabled, WasPlayed, WasReady, ErrorCount, StoppedCount;
    if es != [] {
      var before, e := es[..|es| - 1], es[|es| - 1];
      AttemptsAreCounted(c, before);
      FlagsAreEvents(c, before);
      AttemptIs(c, es);
      StepCounts(c, Run(c, before), e.event, e.at, Attempts(c, es));
    } else {
      NothingCounted();
    }
  }

  lemma NothingCounted()
    ensures ErrorCount([]) == StoppedCount([]) == 0
  {
  }

  lemma AttemptIs(c: Config, es: seq<Timed>)
    requires Possible(c, es) && es != []
    requires var s, before := Run(c, es[..|es| - 1]), es[..|es| - 1];
             (s.played <==> WasPlayed(before)) && (s.ready <==> WasReady(before)) && (!s.ready ==> (s.pending <==> s.played))
    ensures var s, e := Run(c, es[..|es| - 1]), es[|es| - 1].event;
            && Enabled(s, e, es[|es| - 1].at)
            && (Attempts(c, es) <==> c.hasFile && ((e.EPlay? && s.ready) || (e.EReady? && s.pending) ||
                                                  (e.ETimer? && s.sources[e.id].kind.Repeat?)))
  {
  }

  /** What an attempt leaves open: nothing, the file, or the file and a stream that is not connected, or is. */
  lemma AttemptLeaves(c: Config, es: seq<Timed>)
    requires Possible(c, es) && es != [] && Attempts(c, es)
    ensures var s, o := Run(c, es), Of(es[|es| - 1].event);
            && (s.file <==> !o.NoFile?)
            && (s.stream.Copying? <==> o.Connected?) && (s.stream.Unconnected? <==> o.NotConnected?)
            && (s.stream.Closed? <==> o.NoFile? || o.BadFile? || o.NoStream?)
  {
    hide WasPlayed, WasReady;
    var before := es[..|es| - 1];
    FlagsAreEvents(c, before);
    AttemptIs(c, es);
    RunIsSound(c, before);
    RunOwes(c, before);
    var s := Run(c, before).(now := es[|es| - 1].at);
    match es[|es| - 1].event
    case EPlay(o) => NothingOpen(c, Run(c, before)); AttemptOpens(c, s.(announce := true, stopped := false, played := true), o);
    case EReady(o) => NothingOpen(c, Run(c, before)); AttemptOpens(c, s.(ready := true), o);
    case ETimer(id, o) => AttemptOpens(c, Cleanup(s.(sources := s.sources - {id}, repeatId := 0)), o);
    case _ =>
  }

  lemma NothingOpen(c: Config, s: Player)
    requires Sound(c, s) && !(s.played && s.ready)
    ensures s.stream.Closed? && !s.file
  {
  }

  lemma AttemptOpens(c: Config, s: Player, o: Outcome)
    requires c.hasFile && s.stream.Closed? && !s.file
    ensures var r := PlayReal(c, s, o);
            && (r.file <==> !o.NoFile?)
            && (r.stream.Copying? <==> o.Connected?) && (r.stream.Unconnected? <==> o.NotConnected?)
            && (r.stream.Closed? <==> o.NoFile? || o.BadFile? || o.NoStream?)
  {
    hide PlayReal;
    if o.Connected? {
      ConnectedFields(c, s);
    } else {
      FailedFields(c, s, o);
    }
  }

  // ---------------------------------------------------------------- stops and failures

  /** A stop, and a stream that fails, close everything there and then; without the clash no timer is left. */
  lemma StopsClose(c: Config, es: seq<Timed>)
    requires Possible(c, es) && es != [] && (es[|es| - 1].event.EStop? || es[|es| - 1].event.EStreamFails?)
    ensures var s := Run(c, es);
            && s.stream.Closed? && !s.file && s.streams == 0 && s.files == 0
            && (Sole(c) ==> s.sources == map[])
  {
    hide SucceededCount, StartedCount;
    var before, at := es[..|es| - 1], es[|es| - 1].at;
    RunIsSound(c, before);
    LaterIsSound(c, Run(c, before), at);
    Closes(c, Run(c, before).(now := at));
  }

  lemma Closes(c: Config, s: Player)
    requires Sound(c, s)
    ensures var r := Cleanup(s);
            r.stream.Closed? && !r.file && r.streams == 0 && r.files == 0 && (Sole(c) ==> r.sources == map[])
    ensures var r := Cleanup(s.(stopped := true));
            r.stream.Closed? && !r.file && r.streams == 0 && r.files == 0 && (Sole(c) ==> r.sources == map[])
  {
  }

  /** A stream that drains after a stop is not answered: no signal and no timer comes of it. */
  lemma StoppedDrainIsSilent(c: Config, es: seq<Timed>, at: real)
    requires Possible(c, es) && Enabled(Run(c, es), EDrained, at) && StoppedLast(es)
    ensures var s, r := Run(c, es), Step(c, Run(c, es), EDrained, at);
            r.out == s.out && r.sources.Keys <= s.sources.Keys && r.stream.Drained?
  {
    FlagsAreEvents(c, es);
  }

  /** When everything is copied, the stream drains, and nothing else happens. */
  lemma CopiedDrains(c: Config, es: seq<Timed>, at: real)
    requires Possible(c, es) && Enabled(Run(c, es), ECopied, at)
    ensures Enabled(Step(c, Run(c, es), ECopied, at), EDrained, at)
    ensures Step(c, Run(c, es), ECopied, at).out == Run(c, es).out && Step(c, Run(c, es), ECopied, at).sources == Run(c, es).sources
  {
  }
}
