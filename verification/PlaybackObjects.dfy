/**
 NsvPlayback as an object: ids and flags are set and cleared in place, and the sources of the main loop
 are added and removed by id. Each method is proved against the function of the same name in Playback;
 an object remembers what happened to it, and so keeps what PlaybackTheorems promises about runs.
 */
module PlaybackObjects {
  import P = Playback
  import T = PlaybackTheorems
  import A = PlaybackAnswers

  class NsvPlayback {
    const config: P.Config
    var ready: bool
    var played: bool
    var playPending: bool
    var started: bool
    var stopped: bool
    var file: bool
    var stream: P.Stream
    var startedAt: real
    var repeatId: nat
    var checkRepeatId: nat
    var maxTimeoutId: nat
    // the main loop: its sources, pending idle errors, and the clock
    var sources: map<nat, P.Timer>
    var lastId: nat
    var errors: nat
    var now: real
    // history
    ghost var out: seq<P.Signal>
    ghost var starts: seq<real>
    ghost var streams: int
    ghost var files: int
    /** The events so far. */
    ghost var history: seq<P.Timed>

    constructor (config: P.Config)
      ensures this.config == config && Valid() && history == []
    {
      this.config := config;
      ready, played, playPending, started, stopped, file, stream := false, false, false, false, false, false, P.Closed;
      startedAt, repeatId, checkRepeatId, maxTimeoutId := 0.0, 0, 0, 0;
      sources, lastId, errors, now := map[], 0, 0, 0.0;
      out, starts, streams, files := [], [], 0, 0;
      history := [];
    }

    /** The object is where a run of its events leads. */
    ghost predicate Valid()
      reads this
    {
      P.Possible(config, history) && Contents() == P.Run(config, history)
    }

    /** What an object that came from the constructor and Dispatch holds and has emitted. */
    lemma Promises()
      requires Valid()
      ensures 0 <= streams <= 1 && 0 <= files <= 1
      ensures T.StartedCount(out) <= 1 && T.SucceededCount(out) <= (if config.repeat then 0 else 1)
      ensures T.SucceededCount(out) > 0 ==> T.StartedCount(out) == 1
      ensures T.Sole(config) ==> forall i, j :: i in sources && j in sources ==> i == j
      ensures forall k :: 0 <= k < |out| && out[k].Succeeded? ==>
                |starts| > 0 && T.OnTime(config, starts[|starts| - 1], out[k].at)
    {
      T.LifecycleHolds(config, history);
      T.SuccessIsOnTime(config, history);
    }

    /** And what it owes: an answer to every round, an error for every failure, a signal for every stop. */
    lemma Answers()
      requires Valid()
      ensures stream.Drained? && !A.StoppedLast(history) && (forall id :: id in sources ==> !sources[id].kind.Check?) ==>
                if config.repeat then repeatId in sources && sources[repeatId].kind.Repeat? else T.SucceededCount(out) == 1
      ensures starts != [] ==> T.StartedCount(out) == 1
      ensures |starts| == A.Connects(config, history) && A.ErrorCount(out) + errors == A.Failures(config, history)
      ensures A.StoppedCount(out) == A.Stops(history)
    {
      A.EveryRoundIsAnswered(config, history);
      A.AttemptsAreCounted(config, history);
    }

    ghost function Contents(): P.Player
      reads this
    {
      P.Player(ready, played, playPending, started, stopped, file, stream, startedAt, repeatId, checkRepeatId,
               maxTimeoutId, sources, lastId, errors, now, out, starts, streams, files)
    }

    ghost method Emit(x: P.Signal)
      modifies `out
      ensures Contents() == P.Emit(old(Contents()), x)
    {
      out := out + [x];
    }

    /** g_timeout_add. */
    method AddTimeout(kind: P.Kind, ms: int) returns (id: nat)
      modifies `sources, `lastId
      ensures id == old(lastId) + 1
      ensures Contents() == old(Contents()).(lastId := id, sources := old(sources)[id := P.Timer(kind, now + ms as real)])
    {
      lastId := lastId + 1;
      sources := sources[lastId := P.Timer(kind, now + ms as real)];
      id := lastId;
    }

    /** No source has the id 0, so an id that is not set removes nothing. */
    method RemoveTimeouts()
      modifies `sources, `repeatId, `checkRepeatId, `maxTimeoutId
      ensures repeatId == checkRepeatId == maxTimeoutId == 0
      ensures sources == old(sources) - {old(repeatId), old(checkRepeatId), old(maxTimeoutId)}
    {
      sources := sources - {repeatId} - {checkRepeatId} - {maxTimeoutId};
      repeatId, checkRepeatId, maxTimeoutId := 0, 0, 0;
    }

    method ReleaseStream()
      modifies `stream, `streams
      ensures stream == P.Closed && streams == if old(stream).Closed? then old(streams) else old(streams) - 1
    {
      if !stream.Closed? {
        stream := P.Closed;
        streams := streams - 1;
      }
    }

    method CloseFile()
      modifies `file, `files
      ensures !file && files == if old(file) then old(files) - 1 else old(files)
    {
      if file {
        file := false;
        files := files - 1;
      }
    }

    method Cleanup()
      modifies this
      ensures history == old(history)
      ensures Contents() == P.Cleanup(old(Contents()))
    {
      RemoveTimeouts();
      ReleaseStream();
      CloseFile();
    }

    method OpenFile()
      modifies `file, `files
      ensures Contents() == P.OpenFile(old(Contents()))
    {
      file := true;
      files := files + 1;
    }

    method OpenStream(x: P.Stream)
      modifies `stream, `streams
      ensures Contents() == P.OpenStream(old(Contents()), x)
    {
      stream := x;
      streams := streams + 1;
    }

    method ArmMax()
      modifies `maxTimeoutId, `sources, `lastId
      ensures Contents() == if config.max > 0 then P.ArmMax(old(Contents()), config.max) else old(Contents())
    {
      if config.max > 0 {
        maxTimeoutId := AddTimeout(P.Max, config.max);
      }
    }

    method Announce()
      modifies `started, `out
      ensures Contents() == var s := old(Contents()); if s.announce then P.Emit(s, P.Started).(announce := false) else s
    {
      if started {
        Emit(P.Started);
        started := false;
      }
    }

    method Connect()
      modifies `file, `files, `stream, `streams, `startedAt, `starts
      ensures Contents() == P.OpenStream(P.OpenFile(old(Contents())), P.Copying).(startedAt := now, starts := old(starts) + [now])
    {
      OpenFile();
      OpenStream(P.Copying);
      startedAt := now;
      starts := starts + [now];
    }

    method OnConnected()
      requires config.hasFile
      modifies this
      ensures history == old(history)
      ensures Contents() == P.PlayReal(config, old(Contents()), P.Connected)
    {
      Connect();
      ArmMax();
      Announce();
    }

    method PlayReal(o: P.Outcome)
      modifies this
      ensures history == old(history)
      ensures Contents() == P.PlayReal(config, old(Contents()), o)
    {
      if !config.hasFile {
        return;
      }
      if o.Connected? {
        OnConnected();
        return;
      }
      if !o.NoFile? {
        OpenFile();
      }
      if o.NotConnected? {
        OpenStream(P.Unconnected);
      }
      errors := errors + 1;
    }

    method Play(o: P.Outcome)
      modifies this
      ensures history == old(history)
      ensures Contents() == P.Play(config, old(Contents()), o)
    {
      hide P.PlayReal;
      started := true;
      stopped := false;
      played := true;
      if ready {
        PlayReal(o);
      } else {
        playPending := true;
      }
    }

    method OnContextReady(o: P.Outcome)
      modifies this
      ensures history == old(history)
      ensures Contents() == P.ContextReady(config, old(Contents()), o)
    {
      ready := true;
      if playPending {
        PlayReal(o);
      }
    }

    method Repeat() returns (again: bool)
      modifies `repeatId, `sources, `lastId
      ensures again == config.repeat
      ensures Contents() == if again then P.ArmRepeat(old(Contents())) else old(Contents())
    {
      if config.repeat {
        repeatId := AddTimeout(P.Repeat, 1000);
        return true;
      }
      return false;
    }

    method RepeatOrSucceed()
      modifies this
      ensures history == old(history)
      ensures Contents() == P.RepeatOrSucceed(config, old(Contents()))
    {
      var again := Repeat();
      if !again {
        Emit(P.Succeeded(now));
      }
    }

    method DropMaxTimeout()
      modifies `stream, `sources, `maxTimeoutId
      ensures Contents() == old(Contents()).(stream := P.Drained, sources := old(sources) - {old(maxTimeoutId)}, maxId := 0)
    {
      stream := P.Drained;
      sources := sources - {maxTimeoutId};
      maxTimeoutId := 0;
    }

    method OnDrained()
      modifies this
      ensures history == old(history)
      ensures Contents() == P.OnDrained(config, old(Contents()))
    {
      var elapsed := (now - startedAt).Floor;
      DropMaxTimeout();
      if stopped {
        return;
      }
      if config.min > 0 && config.min - elapsed > 50 {
        checkRepeatId := AddTimeout(P.Check, config.min - elapsed);
      } else {
        RepeatOrSucceed();
      }
    }

    method OnCheck()
      modifies this
      ensures history == old(history)
      ensures Contents() == P.OnCheck(config, old(Contents()))
    {
      RepeatOrSucceed();
      checkRepeatId := 0;
    }

    method OnMax()
      modifies this
      ensures history == old(history)
      ensures Contents() == P.OnMax(config, old(Contents()))
    {
      var again := Repeat();
      if !again {
        Cleanup();
        Emit(P.Succeeded(now));
      }
    }

    method OnRepeat(o: P.Outcome)
      modifies this
      ensures history == old(history)
      ensures Contents() == P.OnRepeat(config, old(Contents()), o)
    {
      repeatId := 0;
      Cleanup();
      PlayReal(o);
    }

    /** The main loop fires a source, which is gone after its callback. */
    method OnTimer(id: nat, o: P.Outcome)
      requires id in sources
      modifies this
      ensures history == old(history)
      ensures Contents() == P.OnTimer(config, old(Contents()), id, o)
    {
      var kind := sources[id].kind;
      sources := sources - {id};
      match kind
      case Repeat => OnRepeat(o);
      case Check => OnCheck();
      case Max => OnMax();
    }

    method OnStreamFails()
      modifies this
      ensures history == old(history)
      ensures Contents() == P.Cleanup(old(Contents())).(errors := old(errors) + 1)
    {
      Cleanup();
      errors := errors + 1;
    }

    method Stop()
      modifies this
      ensures history == old(history)
      ensures Contents() == P.Emit(P.Cleanup(old(Contents()).(stopped := true)), P.StoppedSignal)
    {
      stopped := true;
      Cleanup();
      Emit(P.StoppedSignal);
    }

    method OnErrorIdle()
      requires errors > 0
      modifies this
      ensures history == old(history)
      ensures Contents() == P.Emit(old(Contents()), P.Error).(errors := old(errors) - 1)
    {
      errors := errors - 1;
      Emit(P.Error);
    }

    /** One turn of the main loop, at the given time. */
    method Dispatch(e: P.Event, at: real)
      requires Valid() && P.Enabled(Contents(), e, at)
      modifies this
      ensures Valid() && history == old(history) + [P.Timed(e, at)]
    {
      T.Extend(config, history, P.Timed(e, at));
      history := history + [P.Timed(e, at)];
      Handle(e, at);
    }

    /** nsv_playback_finalize: nothing is left open, and no timer. */
    method Finalize()
      requires Valid()
      modifies this
      ensures streams == 0 && files == 0 && (T.Sole(config) ==> sources == map[])
    {
      T.CleanupLeavesNothing(config, history);
      Cleanup();
    }

    method Handle(e: P.Event, at: real)
      requires P.Enabled(Contents(), e, at)
      modifies this
      ensures Contents() == P.Step(config, old(Contents()), e, at) && history == old(history)
    {
      now := at;
      match e
      case EPlay(o) => Play(o);
      case EReady(o) => OnContextReady(o);
      case ECopied => stream := P.Draining;
      case EDrained => OnDrained();
      case ETimer(id, o) => OnTimer(id, o);
      case EStreamFails => OnStreamFails();
      case EErrorIdle => OnErrorIdle();
      case EStop => Stop();
    }
  }
}
