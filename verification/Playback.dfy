/**
 The life of a playback object: when the stream and the file are opened and closed, which timers run,
 and which signals go out. Time is in milliseconds; the timers are sources of the main loop, found by
 id, as g_timeout_add and g_source_remove see them. `out`, `starts`, `streams` and `files` are history.
 */
module Playback {

  /** The properties set before play; repeat and the two timeouts, in milliseconds. */
  datatype Config = Config(hasFile: bool, repeat: bool, min: int, max: int)

  datatype Kind = Repeat | Check | Max

  datatype Timer = Timer(kind: Kind, due: real)

  /** Closed; created but not connected; copying; drain requested; drained. */
  datatype Stream = Closed | Unconnected | Copying | Draining | Drained

  datatype Signal = Started | Succeeded(at: real) | StoppedSignal | Error

  datatype Player = Player(
    ready: bool,             // the context is connected
    played: bool,            // play was called
    pending: bool,           // play_pending
    announce: bool,          // "started" is still to be emitted
    stopped: bool,
    file: bool,              // the sound file is open
    stream: Stream,
    startedAt: real,         // the timer
    repeatId: nat,           // 0: none
    checkId: nat,
    maxId: nat,
    sources: map<nat, Timer>,
    lastId: nat,
    errors: nat,             // idle callbacks that emit "error"
    now: real,
    out: seq<Signal>,
    starts: seq<real>,       // when a stream was connected
    streams: int,            // streams created and not yet released
    files: int)              // files opened and not yet closed

  const FRESH := Player(false, false, false, false, false, false, Closed, 0.0, 0, 0, 0, map[], 0, 0, 0.0, [], [], 0, 0)

  /** What becomes of an attempt to open the file and connect a stream. */
  datatype Outcome = NoFile | BadFile | NoStream | NotConnected | Connected

  // ---------------------------------------------------------------- building blocks

  function Emit(s: Player, x: Signal): Player {
    s.(out := s.out + [x])
  }

  function ArmRepeat(s: Player): Player {
    s.(lastId := s.lastId + 1, repeatId := s.lastId + 1, sources := s.sources[s.lastId + 1 := Timer(Repeat, s.now + 1000.0)])
  }

  function ArmCheck(s: Player, ms: int): Player {
    s.(lastId := s.lastId + 1, checkId := s.lastId + 1, sources := s.sources[s.lastId + 1 := Timer(Check, s.now + ms as real)])
  }

  function ArmMax(s: Player, ms: int): Player {
    s.(lastId := s.lastId + 1, maxId := s.lastId + 1, sources := s.sources[s.lastId + 1 := Timer(Max, s.now + ms as real)])
  }

  /** The timers named by the ids are removed, the stream released, the file closed. */
  function Cleanup(s: Player): Player {
    s.(sources := s.sources - {s.repeatId, s.checkId, s.maxId}, repeatId := 0, checkId := 0, maxId := 0,
       stream := Closed, streams := if s.stream.Closed? then s.streams else s.streams - 1,
       file := false, files := if s.file then s.files - 1 else s.files)
  }

  function OpenFile(s: Player): Player {
    s.(file := true, files := s.files + 1)
  }

  function OpenStream(s: Player, x: Stream): Player {
    s.(stream := x, streams := s.streams + 1)
  }

  function PlayReal(c: Config, s: Player, o: Outcome): Player {
    if !c.hasFile then s
    else
      match o
      case NoFile => s.(errors := s.errors + 1)
      case BadFile | NoStream => OpenFile(s).(errors := s.errors + 1)
      case NotConnected => OpenStream(OpenFile(s), Unconnected).(errors := s.errors + 1)
      case Connected =>
        var s1 := OpenStream(OpenFile(s), Copying).(startedAt := s.now, starts := s.starts + [s.now]);
        var s2 := if c.max > 0 then ArmMax(s1, c.max) else s1;
        if s.announce then Emit(s2, Started).(announce := false) else s2
  }

  /** "succeeded", or another round after a second. */
  function RepeatOrSucceed(c: Config, s: Player): Player {
    if c.repeat then ArmRepeat(s) else Emit(s, Succeeded(s.now))
  }

  // ---------------------------------------------------------------- events

  function Play(c: Config, s: Player, o: Outcome): Player {
    var s1 := s.(announce := true, stopped := false, played := true);
    if s.ready then PlayReal(c, s1, o) else s1.(pending := true)
  }

  function ContextReady(c: Config, s: Player, o: Outcome): Player {
    var s1 := s.(ready := true);
    if s.pending then PlayReal(c, s1, o) else s1
  }

  /** Whole milliseconds since the stream was connected; the conversion to gint truncates. */
  function Elapsed(s: Player): int {
    (s.now - s.startedAt).Floor
  }

  function OnDrained(c: Config, s: Player): Player {
    var s1 := s.(stream := Drained, sources := s.sources - {s.maxId}, maxId := 0);
    if s.stopped then s1
    else if c.min > 0 && c.min - Elapsed(s) > 50 then ArmCheck(s1, c.min - Elapsed(s))
    else RepeatOrSucceed(c, s1)
  }

  function OnCheck(c: Config, s: Player): Player {
    RepeatOrSucceed(c, s).(checkId := 0)
  }

  function OnMax(c: Config, s: Player): Player {
    if c.repeat then ArmRepeat(s) else Emit(Cleanup(s), Succeeded(s.now))
  }

  function OnRepeat(c: Config, s: Player, o: Outcome): Player {
    PlayReal(c, Cleanup(s.(repeatId := 0)), o)
  }

  /** A source that has fired is gone when its callback has returned. */
  function OnTimer(c: Config, s: Player, id: nat, o: Outcome): Player
    requires id in s.sources
  {
    var s1 := s.(sources := s.sources - {id});
    match s.sources[id].kind
    case Repeat => OnRepeat(c, s1, o)
    case Check => OnCheck(c, s1)
    case Max => OnMax(c, s1)
  }

  datatype Event =
    | EPlay(o: Outcome)
    | EReady(o: Outcome)
    | ECopied                       // the write callback has requested the drain
    | EDrained
    | ETimer(id: nat, o: Outcome)
    | EStreamFails
    | EErrorIdle
    | EStop

  /**
   play is called once and the context gets ready once; a stream reports only while it exists, its
   drain was requested and not answered; and timers fire on time: no event comes after a due time.
   */
  predicate Enabled(s: Player, e: Event, at: real) {
    && s.now <= at
    && (forall id :: id in s.sources ==> at <= s.sources[id].due)
    && match e
       case EPlay(_) => !s.played
       case EReady(_) => !s.ready
       case ECopied => s.stream.Copying?
       case EDrained => s.stream.Draining?
       case ETimer(id, _) => id in s.sources && s.sources[id].due == at
       case EStreamFails => !s.stream.Closed?
       case EErrorIdle => s.errors > 0
       case EStop => true
  }

  function Step(c: Config, s0: Player, e: Event, at: real): Player
    requires Enabled(s0, e, at)
  {
    var s := s0.(now := at);
    match e
    case EPlay(o) => Play(c, s, o)
    case EReady(o) => ContextReady(c, s, o)
    case ECopied => s.(stream := Draining)
    case EDrained => OnDrained(c, s)
    case ETimer(id, o) => OnTimer(c, s, id, o)
    case EStreamFails => Cleanup(s).(errors := s.errors + 1)
    case EErrorIdle => Emit(s, Error).(errors := s.errors - 1)
    case EStop => Emit(Cleanup(s.(stopped := true)), StoppedSignal)
  }

  datatype Timed = Timed(event: Event, at: real)

  ghost predicate Possible(c: Config, es: seq<Timed>)
    decreases |es|, 0
  {
    es == [] || (var before := es[..|es| - 1];
                 Possible(c, before) && Enabled(Run(c, before), es[|es| - 1].event, es[|es| - 1].at))
  }

  ghost function Run(c: Config, es: seq<Timed>): Player
    requires Possible(c, es)
    decreases |es|, 1
  {
    if es == [] then FRESH
    else Step(c, Run(c, es[..|es| - 1]), es[|es| - 1].event, es[|es| - 1].at)
  }
}
