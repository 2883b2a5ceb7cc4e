/**
 What holds after every run of a playback object: its timers, its resources, its signals and their
 timing. What is said about single timers is for playbacks that do not combine repeat with a maximum;
 PlaybackExact has the exact conditions.
 */
module PlaybackTheorems {
  import opened Categories
  import opened Playback

  /** No maximum together with repeat. */
  predicate Sole(c: Config) {
    !(c.repeat && c.max > 0)
  }

  predicate Busy(x: Stream) {
    x.Copying? || x.Draining?
  }

  /** The time that a round takes at least, besides the second between rounds. */
  function Gap(c: Config): real {
    if c.min > 50 then (c.min - 50) as real else 0.0
  }

  function StartedCount(out: seq<Signal>): nat {
    if out == [] then 0 else StartedCount(out[..|out| - 1]) + if out[|out| - 1].Started? then 1 else 0
  }

  function SucceededCount(out: seq<Signal>): nat {
    if out == [] then 0 else SucceededCount(out[..|out| - 1]) + if out[|out| - 1].Succeeded? then 1 else 0
  }

  lemma EmitCounts(s: Player, x: Signal)
    ensures StartedCount(Emit(s, x).out) == StartedCount(s.out) + if x.Started? then 1 else 0
    ensures SucceededCount(Emit(s, x).out) == SucceededCount(s.out) + if x.Succeeded? then 1 else 0
  {
    assert Emit(s, x).out[..|s.out|] == s.out;
  }

  // ---------------------------------------------------------------- the invariant

  /** An id that is set names a live source of its kind; no other source lives; at most one id is set. */
  ghost predicate Ids(s: Player) {
    && 0 !in s.sources
    && s.sources.Keys == {s.repeatId, s.checkId, s.maxId} - {0}
    && s.repeatId <= s.lastId && s.checkId <= s.lastId && s.maxId <= s.lastId
    && (s.repeatId != 0 ==> s.checkId == 0 && s.maxId == 0 && s.sources[s.repeatId].kind == Repeat)
    && (s.checkId != 0 ==> s.repeatId == 0 && s.maxId == 0 && s.sources[s.checkId].kind == Check)
    && (s.maxId != 0 ==> s.repeatId == 0 && s.checkId == 0 && s.sources[s.maxId].kind == Max)
  }

  predicate Resources(s: Player) {
    && s.streams == (if s.stream.Closed? then 0 else 1)
    && s.files == (if s.file then 1 else 0)
    && (s.file || s.stream.Closed?)
  }

  predicate Quiet(s: Player) {
    s.stream.Closed? && !s.file && s.repeatId == 0 && s.checkId == 0 && s.maxId == 0
  }

  /** Nothing is open before play and the context have met. */
  predicate Beginning(s: Player) {
    && (!s.played ==> !s.pending)
    && (s.played && !s.ready ==> s.pending)
    && (!(s.played && s.ready) ==> Quiet(s) && s.starts == [])
  }

  /** Which timer belongs to which state of the stream, and when it is due. */
  ghost predicate Timers(c: Config, s: Player)
    requires Ids(s)
  {
    && (s.maxId != 0 <==> Busy(s.stream) && c.max > 0)
    && (s.checkId != 0 ==> s.stream.Drained? && c.min > 0)
    && (s.repeatId != 0 ==> s.stream.Drained? && c.repeat)
    && (Busy(s.stream) || s.stream.Drained? ==> s.starts != [])
    && (s.starts != [] ==> s.starts[|s.starts| - 1] == s.startedAt <= s.now)
    && (s.maxId != 0 ==> s.sources[s.maxId].due == s.startedAt + c.max as real)
    && (s.checkId != 0 ==> s.startedAt + c.min as real <= s.sources[s.checkId].due < s.startedAt + (c.min + 1) as real)
    && (s.repeatId != 0 ==> s.startedAt + Gap(c) + 1000.0 <= s.sources[s.repeatId].due)
  }

  ghost predicate Spaced(c: Config, starts: seq<real>) {
    forall k {:trigger starts[k]} :: 0 < k < |starts| ==> starts[k - 1] + Gap(c) + 1000.0 <= starts[k]
  }

  /** The least time to a success: the minimum less the tolerance of 50, or a maximum that is shorter. */
  function Least(c: Config): int {
    if 0 < c.max < c.min - 50 then c.max else c.min - 50
  }

  /**
   When a single shot may succeed whose stream was connected at start. With a maximum it succeeds by then,
   or, when the minimum is longer, within a millisecond of the minimum.
   */
  predicate OnTime(c: Config, start: real, at: real) {
    !c.repeat ==>
      && start + Least(c) as real <= at
      && (c.max > 0 ==> at <= start + c.max as real || at < start + (c.min + 1) as real)
  }

  ghost predicate InBracket(c: Config, s: Player) {
    forall k :: 0 <= k < |s.out| && s.out[k].Succeeded? ==> OnTime(c, s.startedAt, s.out[k].at)
  }

  ghost predicate Signals(c: Config, s: Player) {
    && StartedCount(s.out) + (if s.announce then 1 else 0) == (if s.played then 1 else 0)
    && (s.starts != [] ==> !s.announce)
    && SucceededCount(s.out) <= (if c.repeat then 0 else 1)
    && (SucceededCount(s.out) > 0 ==>
          s.starts != [] && s.repeatId == 0 && s.checkId == 0 && s.maxId == 0 && !Busy(s.stream))
    && InBracket(c, s)
  }

  ghost predicate Inv(c: Config, s: Player) {
    && Ids(s) && Resources(s) && Beginning(s) && Timers(c, s) && Spaced(c, s.starts) && Signals(c, s)
  }

  // ---------------------------------------------------------------- building blocks

  lemma LaterKeeps(c: Config, s: Player, at: real)
    requires Inv(c, s) && s.now <= at
    ensures Inv(c, s.(now := at))
  {
  }

  lemma CleanupKeeps(c: Config, s: Player)
    requires Inv(c, s)
    ensures Inv(c, Cleanup(s)) && Quiet(Cleanup(s)) && Cleanup(s).sources == map[]
    ensures Cleanup(s).streams == 0 && Cleanup(s).files == 0
  {
  }

  /** play_real comes with nothing open: the first time, or a second after the end of a round. */
  ghost predicate CanOpen(c: Config, s: Player) {
    && Inv(c, s) && Quiet(s) && s.played && s.ready
    && SucceededCount(s.out) == 0
    && (s.starts != [] ==> s.startedAt + Gap(c) + 1000.0 <= s.now)
  }

  lemma ConnectedSignals(c: Config, s: Player)
    requires Sole(c) && CanOpen(c, s) && c.hasFile
    ensures Signals(c, PlayReal(c, s, Connected))
  {
    EmitCounts(s, Started);
    NoSuccess(s.out);
    NoSuccess(PlayReal(c, s, Connected).out);
  }

  lemma ConnectedTimers(c: Config, s: Player)
    requires Sole(c) && CanOpen(c, s) && c.hasFile
    ensures var r := PlayReal(c, s, Connected); Ids(r) && Timers(c, r) && Spaced(c, r.starts)
  {
  }

  lemma ConnectedKeeps(c: Config, s: Player)
    requires Sole(c) && CanOpen(c, s) && c.hasFile
    ensures Inv(c, PlayReal(c, s, Connected))
  {
    ConnectedSignals(c, s);
    ConnectedTimers(c, s);
  }

  lemma {:induction false} NoSuccess(out: seq<Signal>)
    requires SucceededCount(out) == 0
    ensures forall k :: 0 <= k < |out| ==> !out[k].Succeeded?
  {
    if out != [] {
      NoSuccess(out[..|out| - 1]);
    }
  }

  lemma PlayRealKeeps(c: Config, s: Player, o: Outcome)
    requires Sole(c) && CanOpen(c, s)
    ensures Inv(c, PlayReal(c, s, o))
  {
    if c.hasFile {
      if o.Connected? {
        ConnectedKeeps(c, s);
      } else {
        FailedOpenKeeps(c, s, o);
      }
    }
  }

  lemma FailedOpenKeeps(c: Config, s: Player, o: Outcome)
    requires Sole(c) && CanOpen(c, s) && c.hasFile && !o.Connected?
    ensures Inv(c, PlayReal(c, s, o))
  {
    hide StartedCount, SucceededCount;
  }

  /** The end of a round: no timer runs, the stream is done. */
  ghost predicate RoundOver(c: Config, s: Player) {
    && Inv(c, s) && s.stream.Drained? && s.checkId == 0 && s.repeatId == 0
    && SucceededCount(s.out) == 0
    && s.startedAt + Gap(c) <= s.now
    && OnTime(c, s.startedAt, s.now)
  }

  lemma SucceedKeeps(c: Config, s: Player)
    requires Inv(c, s) && !Busy(s.stream) && s.checkId == 0 && s.repeatId == 0 && s.starts != [] && !c.repeat
    requires SucceededCount(s.out) == 0
    requires OnTime(c, s.startedAt, s.now)
    ensures Inv(c, Emit(s, Succeeded(s.now)))
  {
    EmitCounts(s, Succeeded(s.now));
    NoSuccess(s.out);
  }

  lemma RepeatOrSucceedKeeps(c: Config, s: Player)
    requires RoundOver(c, s)
    ensures Inv(c, RepeatOrSucceed(c, s))
  {
    if !c.repeat {
      SucceedKeeps(c, s);
    }
  }

  // ---------------------------------------------------------------- events

  lemma PlayKeeps(c: Config, s: Player, o: Outcome)
    requires Sole(c) && Inv(c, s) && !s.played
    ensures Inv(c, Play(c, s, o))
  {
    var s1 := s.(announce := true, stopped := false, played := true);
    if s.ready {
      PlayRealKeeps(c, s1, o);
    }
  }

  lemma ContextReadyKeeps(c: Config, s: Player, o: Outcome)
    requires Sole(c) && Inv(c, s) && !s.ready
    ensures Inv(c, ContextReady(c, s, o))
  {
    if s.pending {
      PlayRealKeeps(c, s.(ready := true), o);
    }
  }

  lemma DrainedKeeps(c: Config, s: Player)
    requires Sole(c) && Inv(c, s) && s.stream.Draining? && (s.maxId != 0 ==> s.now <= s.sources[s.maxId].due)
    ensures Inv(c, OnDrained(c, s))
  {
    var s1 := s.(stream := Drained, sources := s.sources - {s.maxId}, maxId := 0);
    if !s.stopped && !(c.min > 0 && c.min - Elapsed(s) > 50) {
      RepeatOrSucceedKeeps(c, s1);
    }
  }

  lemma CheckCommutes(c: Config, s: Player)
    ensures OnCheck(c, s) == RepeatOrSucceed(c, s.(checkId := 0))
  {
    if c.repeat {
      assert ArmRepeat(s).(checkId := 0) == ArmRepeat(s.(checkId := 0));
    }
  }

  lemma CheckIsRoundOver(c: Config, s: Player, id: nat)
    requires Inv(c, s) && id in s.sources && s.sources[id] == Timer(Check, s.now)
    ensures RoundOver(c, s.(sources := s.sources - {id}, checkId := 0))
  {
  }

  lemma CheckKeeps(c: Config, s: Player, id: nat)
    requires Inv(c, s) && id in s.sources && s.sources[id] == Timer(Check, s.now)
    ensures Inv(c, OnCheck(c, s.(sources := s.sources - {id})))
  {
    var s1 := s.(sources := s.sources - {id}, checkId := 0);
    CheckCommutes(c, s.(sources := s.sources - {id}));
    CheckIsRoundOver(c, s, id);
    RepeatOrSucceedKeeps(c, s1);
  }

  lemma MaxKeeps(c: Config, s: Player, id: nat)
    requires Sole(c) && Inv(c, s) && id in s.sources && s.sources[id] == Timer(Max, s.now)
    ensures Inv(c, OnMax(c, s.(sources := s.sources - {id})))
  {
    hide Emit;
    CleanupKeeps(c, s);
    assert Cleanup(s.(sources := s.sources - {id})) == Cleanup(s);
    SucceedKeeps(c, Cleanup(s));
  }

  lemma RepeatKeeps(c: Config, s: Player, id: nat, o: Outcome)
    requires Sole(c) && Inv(c, s) && id in s.sources && s.sources[id] == Timer(Repeat, s.now)
    ensures Inv(c, OnRepeat(c, s.(sources := s.sources - {id}), o))
  {
    CleanupKeeps(c, s);
    assert Cleanup(s.(sources := s.sources - {id}, repeatId := 0)) == Cleanup(s);
    PlayRealKeeps(c, Cleanup(s), o);
  }

  lemma TimerKeeps(c: Config, s: Player, id: nat, o: Outcome)
    requires Sole(c) && Inv(c, s) && id in s.sources && s.sources[id].due == s.now
    ensures Inv(c, OnTimer(c, s, id, o))
  {
    match s.sources[id].kind
    case Repeat => RepeatKeeps(c, s, id, o);
    case Check => CheckKeeps(c, s, id);
    case Max => MaxKeeps(c, s, id);
  }

  lemma EmitOtherKeeps(c: Config, s: Player, x: Signal)
    requires Inv(c, s) && (x.StoppedSignal? || x.Error?)
    ensures Inv(c, Emit(s, x))
  {
    EmitCounts(s, x);
  }

  lemma CopiedKeeps(c: Config, s: Player)
    requires Inv(c, s) && s.stream.Copying?
    ensures Inv(c, s.(stream := Draining))
  {
  }

  lemma StreamFailsKeeps(c: Config, s: Player)
    requires Inv(c, s)
    ensures Inv(c, Cleanup(s).(errors := s.errors + 1))
  {
    CleanupKeeps(c, s);
  }

  lemma StopKeeps(c: Config, s: Player)
    requires Inv(c, s)
    ensures Inv(c, Emit(Cleanup(s.(stopped := true)), StoppedSignal))
  {
    CleanupKeeps(c, s.(stopped := true));
    EmitOtherKeeps(c, Cleanup(s.(stopped := true)), StoppedSignal);
  }

  lemma ErrorIdleKeeps(c: Config, s: Player)
    requires Inv(c, s) && s.errors > 0
    ensures Inv(c, Emit(s, Error).(errors := s.errors - 1))
  {
    EmitOtherKeeps(c, s, Error);
  }

  lemma StepKeeps(c: Config, s0: Player, e: Event, at: real)
    requires Sole(c) && Inv(c, s0) && Enabled(s0, e, at)
    ensures Inv(c, Step(c, s0, e, at))
  {
    var s := s0.(now := at);
    LaterKeeps(c, s0, at);
    match e
    case EPlay(o) => PlayKeeps(c, s, o);
    case EReady(o) => ContextReadyKeeps(c, s, o);
    case EDrained => DrainedKeeps(c, s);
    case ETimer(id, o) => TimerKeeps(c, s, id, o);
    case EStreamFails => StreamFailsKeeps(c, s);
    case EErrorIdle => ErrorIdleKeeps(c, s);
    case EStop => StopKeeps(c, s);
    case ECopied => CopiedKeeps(c, s);
  }

  lemma {:induction false} RunKeeps(c: Config, es: seq<Timed>)
    requires Sole(c) && Possible(c, es)
    ensures Inv(c, Run(c, es))
  {
    if es != [] {
      RunKeeps(c, es[..|es| - 1]);
      StepKeeps(c, Run(c, es[..|es| - 1]), es[|es| - 1].event, es[|es| - 1].at);
    }
  }

  // ---------------------------------------------------------------- what even a clash keeps

  /** The resources and signals of a repeating playback, whatever its timers do. */
  ghost predicate Repeating(c: Config, s: Player) {
    && Resources(s)
    && (!s.played ==> !s.pending)
    && (s.played && !s.ready ==> s.pending)
    && (!(s.played && s.ready) ==> s.stream.Closed? && !s.file && s.starts == [] && s.sources == map[])
    && StartedCount(s.out) + (if s.announce then 1 else 0) == (if s.played then 1 else 0)
    && SucceededCount(s.out) == 0
  }

  lemma RepeatingEmits(c: Config, s: Player, x: Signal)
    requires Repeating(c, s) && (x.StoppedSignal? || x.Error?)
    ensures Repeating(c, Emit(s, x))
  {
    EmitCounts(s, x);
  }

  lemma RepeatingCleanup(c: Config, s: Player)
    requires Repeating(c, s)
    ensures var r := Cleanup(s); Repeating(c, r) && r.stream.Closed? && !r.file && r.streams == 0 && r.files == 0
  {
  }

  lemma RepeatingOpens(c: Config, s: Player, o: Outcome)
    requires Repeating(c, s) && s.played && s.ready && s.stream.Closed? && !s.file
    ensures Repeating(c, PlayReal(c, s, o))
  {
    if o.Connected? && c.hasFile {
      RepeatingConnects(c, s);
    }
  }

  lemma RepeatingConnects(c: Config, s: Player)
    requires Repeating(c, s) && s.played && s.ready && s.stream.Closed? && !s.file && c.hasFile
    ensures Repeating(c, PlayReal(c, s, Connected))
  {
    hide StartedCount, SucceededCount;
    EmitCounts(s, Started);
    assert PlayReal(c, s, Connected).out == if s.announce then Emit(s, Started).out else s.out;
  }

  lemma RepeatingFired(c: Config, s: Player, id: nat)
    requires Repeating(c, s) && id in s.sources
    ensures s.played && s.ready && Repeating(c, s.(sources := s.sources - {id}))
  {
  }

  lemma RepeatingArms(c: Config, s: Player)
    requires c.repeat && Repeating(c, s) && s.played && s.ready
    ensures Repeating(c, OnMax(c, s)) && Repeating(c, OnCheck(c, s))
  {
  }

  lemma RepeatingAgain(c: Config, s: Player, o: Outcome)
    requires Repeating(c, s) && s.played && s.ready
    ensures Repeating(c, OnRepeat(c, s, o))
  {
    RepeatingCleanup(c, s.(repeatId := 0));
    RepeatingOpens(c, Cleanup(s.(repeatId := 0)), o);
  }

  lemma RepeatingTimer(c: Config, s: Player, id: nat, o: Outcome)
    requires c.repeat && Repeating(c, s) && id in s.sources
    ensures Repeating(c, OnTimer(c, s, id, o))
  {
    var s1 := s.(sources := s.sources - {id});
    RepeatingFired(c, s, id);
    match s.sources[id].kind
    case Repeat => RepeatingAgain(c, s1, o);
    case Check => RepeatingArms(c, s1);
    case Max => RepeatingArms(c, s1);
  }

  lemma RepeatingPlays(c: Config, s: Player, o: Outcome)
    requires Repeating(c, s) && !s.played
    ensures Repeating(c, Play(c, s, o))
  {
    hide PlayReal;
    if s.ready {
      RepeatingOpens(c, s.(announce := true, stopped := false, played := true), o);
    }
  }

  lemma RepeatingReady(c: Config, s: Player, o: Outcome)
    requires Repeating(c, s) && !s.ready
    ensures Repeating(c, ContextReady(c, s, o))
  {
    hide PlayReal;
    if s.pending {
      RepeatingOpens(c, s.(ready := true), o);
    }
  }

  lemma RepeatingDrained(c: Config, s: Player)
    requires c.repeat && Repeating(c, s) && s.stream.Draining?
    ensures Repeating(c, OnDrained(c, s))
  {
  }

  lemma RepeatingStops(c: Config, s: Player)
    requires Repeating(c, s)
    ensures Repeating(c, Emit(Cleanup(s.(stopped := true)), StoppedSignal))
    ensures Repeating(c, Cleanup(s).(errors := s.errors + 1))
  {
    RepeatingCleanup(c, s);
    RepeatingCleanup(c, s.(stopped := true));
    RepeatingEmits(c, Cleanup(s.(stopped := true)), StoppedSignal);
  }

  lemma RepeatingStep(c: Config, s0: Player, e: Event, at: real)
    requires c.repeat && Repeating(c, s0) && Enabled(s0, e, at)
    ensures Repeating(c, Step(c, s0, e, at))
  {
    hide Play, ContextReady, OnDrained, OnTimer, Cleanup, Emit, StartedCount, SucceededCount;
    var s := s0.(now := at);
    match e
    case EPlay(o) => RepeatingPlays(c, s, o);
    case EReady(o) => RepeatingReady(c, s, o);
    case EDrained => RepeatingDrained(c, s);
    case ETimer(id, o) => RepeatingTimer(c, s, id, o);
    case EStreamFails => RepeatingStops(c, s);
    case EErrorIdle => RepeatingEmits(c, s, Error);
    case EStop => RepeatingStops(c, s);
    case ECopied =>
  }

  lemma {:induction false} RepeatingRun(c: Config, es: seq<Timed>)
    requires c.repeat && Possible(c, es)
    ensures Repeating(c, Run(c, es))
  {
    if es != [] {
      RepeatingRun(c, es[..|es| - 1]);
      RepeatingStep(c, Run(c, es[..|es| - 1]), es[|es| - 1].event, es[|es| - 1].at);
    }
  }

  // ---------------------------------------------------------------- theorems

  ghost predicate OneTimer(s: Player) {
    forall i, j :: i in s.sources && j in s.sources ==> i == j
  }

  /**
   One stream is open at most, and one file; "started" is emitted at most once over all rounds and before
   any "succeeded"; a repeating playback never succeeds and another at most once. At most one timer runs,
   unless a maximum is combined with repeat.
   */
  lemma LifecycleHolds(c: Config, es: seq<Timed>)
    requires Possible(c, es)
    ensures var s := Run(c, es);
            && 0 <= s.streams <= 1 && 0 <= s.files <= 1
            && StartedCount(s.out) <= 1
            && SucceededCount(s.out) <= (if c.repeat then 0 else 1)
            && (SucceededCount(s.out) > 0 ==> StartedCount(s.out) == 1)
            && (Sole(c) ==> OneTimer(s))
  {
    if Sole(c) {
      RunKeeps(c, es);
    } else {
      RepeatingRun(c, es);
    }
  }

  /** A cleanup, at any time, leaves no stream and no file, and no timer unless maximum and repeat clash. */
  lemma CleanupLeavesNothing(c: Config, es: seq<Timed>)
    requires Possible(c, es)
    ensures var s := Cleanup(Run(c, es)); s.streams == 0 && s.files == 0 && (Sole(c) ==> s.sources == map[])
  {
    if Sole(c) {
      RunKeeps(c, es);
      CleanupKeeps(c, Run(c, es));
    } else {
      RepeatingRun(c, es);
      RepeatingCleanup(c, Run(c, es));
    }
  }

  /**
   A single shot succeeds no sooner than min - 50 after its stream was connected, or at its maximum if that
   is shorter, and no later than its maximum or, if that is longer, a millisecond after its minimum.
   */
  lemma SuccessIsOnTime(c: Config, es: seq<Timed>)
    requires Possible(c, es)
    ensures var s := Run(c, es);
            forall k :: 0 <= k < |s.out| && s.out[k].Succeeded? ==>
              |s.starts| > 0 && OnTime(c, s.starts[|s.starts| - 1], s.out[k].at)
  {
    if Sole(c) {
      RunKeeps(c, es);
    } else {
      RepeatingRun(c, es);
    }
    if SucceededCount(Run(c, es).out) == 0 {
      NoSuccess(Run(c, es).out);
    }
  }

  /** Rounds of a repeating playback begin at least min - 50 + 1000 apart, and never less than 1000. */
  lemma RoundsAreSpaced(c: Config, es: seq<Timed>, k: nat)
    requires Possible(c, es) && Sole(c) && 0 < k < |Run(c, es).starts|
    ensures var starts := Run(c, es).starts;
            && starts[k] - starts[k - 1] >= (c.min - 50 + 1000) as real
            && starts[k] - starts[k - 1] >= 1000.0
  {
    RunKeeps(c, es);
  }

  lemma Extend(c: Config, es: seq<Timed>, e: Timed)
    requires Possible(c, es) && Enabled(Run(c, es), e.event, e.at)
    ensures Possible(c, es + [e]) && Run(c, es + [e]) == Step(c, Run(c, es), e.event, e.at)
  {
    hide Step, Enabled;
    assert (es + [e])[..|es|] == es;
  }

  // ---------------------------------------------------------------- a playback without a file

  /** Nothing is open, no timer runs, and nothing was announced. */
  predicate Idle(s: Player) {
    s.sources == map[] && s.stream.Closed? && s.starts == [] && StartedCount(s.out) == 0
  }

  lemma NoFilePlay(c: Config, s: Player, o: Outcome)
    requires !c.hasFile && Idle(s)
    ensures Idle(Play(c, s, o)) && Idle(ContextReady(c, s, o))
  {
  }

  lemma NoFileEmits(s: Player, x: Signal)
    requires Idle(s) && !x.Started?
    ensures Idle(Emit(s, x)) && Idle(Emit(Cleanup(s), x))
  {
    EmitCounts(s, x);
  }

  lemma NoFileStep(c: Config, s: Player, e: Event, at: real)
    requires !c.hasFile && Idle(s) && Enabled(s, e, at)
    ensures Idle(Step(c, s, e, at))
  {
    hide StartedCount, Emit;
    var s1 := s.(now := at);
    match e
    case EPlay(o) => NoFilePlay(c, s1, o);
    case EReady(o) => NoFilePlay(c, s1, o);
    case EStreamFails =>
    case EErrorIdle => NoFileError(s1);
    case EStop => NoFileEmits(s1.(stopped := true), StoppedSignal);
  }

  lemma NoFileError(s: Player)
    requires Idle(s) && s.errors > 0
    ensures Idle(Emit(s, Error).(errors := s.errors - 1))
  {
    NoFileEmits(s, Error);
  }

  lemma {:induction false} NoFileIsIdle(c: Config, es: seq<Timed>)
    requires !c.hasFile && Possible(c, es)
    ensures Idle(Run(c, es))
  {
    hide Step, Enabled, Idle;
    if es != [] {
      NoFileIsIdle(c, es[..|es| - 1]);
      NoFileStep(c, Run(c, es[..|es| - 1]), es[|es| - 1].event, es[|es| - 1].at);
    } else {
      FreshIsIdle();
    }
  }

  lemma FreshIsIdle()
    ensures Idle(FRESH)
  {
  }

  // ---------------------------------------------------------------- the registered playbacks

  /** The properties with which the implementation of a category creates its playback. */
  function Settings(k: Category, hasFile: bool): Config {
    match k
    case Ringtone | Clock => Config(hasFile, true, 3000, -1)
    case Calendar => Config(hasFile, false, 3000, 10000)
    case Sms | Email | Chat | Sound => Config(hasFile, false, 3000, -1)
    case System | Critical => Config(hasFile, false, 1000, -1)
  }

  /** The least time, in milliseconds, from the connected stream to the success. */
  function Shortest(k: Category): real {
    if k.System? || k.Critical? then 950.0 else 2950.0
  }

  /**
   None of the registered playbacks clashes: each has at most one timer and announces itself at most
   once. Ringtones and clock alarms never succeed, and their rounds are at least 3950 ms apart.
   */
  lemma RegisteredPlaybacks(k: Category, hasFile: bool, es: seq<Timed>)
    requires Possible(Settings(k, hasFile), es)
    ensures var s := Run(Settings(k, hasFile), es);
            && OneTimer(s) && StartedCount(s.out) <= 1
            && SucceededCount(s.out) <= (if k.Ringtone? || k.Clock? then 0 else 1)
            && forall j {:trigger s.starts[j]} ::
                 (k.Ringtone? || k.Clock?) && 0 < j < |s.starts| ==> s.starts[j] - s.starts[j - 1] >= 3950.0
  {
    LifecycleHolds(Settings(k, hasFile), es);
    RunKeeps(Settings(k, hasFile), es);
  }

  /**
   The others succeed, if at all, at least 2950 ms after their stream was connected, system events 950 ms,
   and a calendar alarm no later than 10000 ms.
   */
  lemma RegisteredSuccesses(k: Category, hasFile: bool, es: seq<Timed>, j: nat)
    requires Possible(Settings(k, hasFile), es) && !k.Ringtone? && !k.Clock?
    requires j < |Run(Settings(k, hasFile), es).out| && Run(Settings(k, hasFile), es).out[j].Succeeded?
    ensures var s := Run(Settings(k, hasFile), es);
            |s.starts| > 0 &&
            var ms := s.out[j].at - s.starts[|s.starts| - 1];
            ms >= Shortest(k) && (k.Calendar? ==> ms <= 10000.0)
  {
    SuccessIsOnTime(Settings(k, hasFile), es);
  }
}
