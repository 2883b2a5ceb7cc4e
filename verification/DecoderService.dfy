/**
 The decoder service: one task at a time, requests served in the order of their acceptance, and a
 timer that ends the process when nothing is left to do. `accepted`, `reported` and `heard` are
 history.
 */
module DecoderService {
  import opened Wrappers
  import T = DecoderTask

  /** The "cut-off" that a task is constructed with, in milliseconds. */
  const CUT_OFF := 60000

  /** A request; opens: whether nsv_decoder_task_start will manage to set its pipeline up. */
  datatype Job = Job(category: string, source: string, target: string, opens: bool)

  datatype Running = Running(job: Job, task: T.Task, heard: seq<T.Event>)

  /** What went out on the bus: decoded, or error_decoding; began tells whether the task was started. */
  datatype Report = Report(job: Job, kind: T.Signal, began: bool, heard: seq<T.Event>)

  datatype Service = Service(
    queue: seq<Job>,
    current: Option<Running>,
    armed: bool,              // the exit timer
    accepted: seq<Job>,
    reported: seq<Report>)

  const INITIAL := Service([], None, true, [], [])

  /** Tasks that fail to start are reported at once; the first that starts becomes the current one. */
  function StartNext(s: Service): Service
    decreases |s.queue|
  {
    if s.current.Some? then s
    else if s.queue == [] then s.(armed := true)
    else
      var job, rest := s.queue[0], s.(queue := s.queue[1..]);
      if job.opens then rest.(current := Some(Running(job, T.Begun(CUT_OFF), [])))
      else StartNext(rest.(reported := s.reported + [Report(job, T.Failed, false, [])]))
  }

  function Decode(s: Service, job: Job): Service {
    StartNext(s.(armed := false, queue := s.queue + [job], accepted := s.accepted + [job]))
  }

  /** The callbacks of the signals of the current task. */
  function Settled(s: Service, kind: T.Signal): Service
    requires s.current.Some?
  {
    var r := s.current.value;
    StartNext(s.(current := None, reported := s.reported + [Report(r.job, kind, true, r.heard)]))
  }

  /** The event of the current task, before its signal is handled. */
  function Heard(s: Service, e: T.Event): Service
    requires s.current.Some?
  {
    var r := s.current.value;
    s.(current := Some(r.(task := T.Handle(r.task, e).0, heard := r.heard + [e])))
  }

  function FromTask(s: Service, e: T.Event): Service
    requires s.current.Some?
  {
    var signal := T.Handle(s.current.value.task, e).1;
    if signal.Some? then Settled(Heard(s, e), signal.value) else Heard(s, e)
  }

  datatype Event = Request(job: Job) | TaskEvent(e: T.Event)

  /** Only the current task is there to be called back. */
  function Step(s: Service, e: Event): Service {
    match e
    case Request(job) => Decode(s, job)
    case TaskEvent(t) => if s.current.Some? then FromTask(s, t) else s
  }

  function Run(es: seq<Event>): Service {
    if es == [] then INITIAL else Step(Run(es[..|es| - 1]), es[|es| - 1])
  }

  function Requests(es: seq<Event>): seq<Job> {
    if es == [] then []
    else
      var e := es[|es| - 1];
      Requests(es[..|es| - 1]) + if e.Request? then [e.job] else []
  }

  // ---------------------------------------------------------------- theorems

  function Jobs(rs: seq<Report>): seq<Job> {
    seq(|rs|, k requires 0 <= k < |rs| => rs[k].job)
  }

  /** Accepted and not reported, oldest first. */
  function Underway(s: Service): seq<Job> {
    (if s.current.Some? then [s.current.value.job] else []) + s.queue
  }

  /** The report says what the task said, once and with the last event it heard. */
  predicate Truthful(r: Report) {
    && r.began == r.job.opens
    && if r.began then
         && r.heard != [] && T.Signals(T.Begun(CUT_OFF), r.heard) == [r.kind]
         && T.Signals(T.Begun(CUT_OFF), r.heard[..|r.heard| - 1]) == []
       else r.kind.Failed? && r.heard == []
  }

  /** Between reports: every accepted request is reported or under way, in order. */
  ghost predicate Accounted(s: Service) {
    && s.accepted == Jobs(s.reported) + Underway(s)
    && (forall k :: 0 <= k < |s.reported| ==> Truthful(s.reported[k]))
    && (s.current.Some? ==>
          var r := s.current.value;
          && r.job.opens && r.task == T.Run(T.Begun(CUT_OFF), r.heard)
          && T.Signals(T.Begun(CUT_OFF), r.heard) == [])
  }

  /** At rest: the timer is armed exactly when nothing is under way. */
  ghost predicate AtRest(s: Service) {
    && (s.armed <==> Underway(s) == [])
    && (s.current.None? ==> s.queue == [])
  }

  lemma {:induction false} StartNextAccounts(s: Service)
    requires Accounted(s) && !s.armed
    ensures Accounted(StartNext(s)) && AtRest(StartNext(s))
    ensures StartNext(s).accepted == s.accepted && s.reported <= StartNext(s).reported
    decreases |s.queue|
  {
    if s.current.None? && s.queue != [] {
      var job, rest := s.queue[0], s.(queue := s.queue[1..]);
      assert s.queue == [job] + s.queue[1..];
      if !job.opens {
        var u := rest.(reported := s.reported + [Report(job, T.Failed, false, [])]);
        assert Jobs(u.reported) == Jobs(s.reported) + [job];
        StartNextAccounts(u);
      }
    }
  }

  lemma DecodeAccounts(s: Service, job: Job)
    requires Accounted(s)
    ensures Accounted(Decode(s, job)) && AtRest(Decode(s, job))
    ensures Decode(s, job).accepted == s.accepted + [job] && s.reported <= Decode(s, job).reported
  {
    StartNextAccounts(s.(armed := false, queue := s.queue + [job], accepted := s.accepted + [job]));
  }

  /** u is s after the event with which the current task reports. */
  lemma SettledAccounts(s: Service, u: Service, kind: T.Signal)
    requires Accounted(s) && AtRest(s) && s.current.Some? && u.current.Some?
    requires u == s.(current := u.current) && u.current.value.job == s.current.value.job
    requires var heard := u.current.value.heard;
             && heard != [] && T.Signals(T.Begun(CUT_OFF), heard) == [kind]
             && T.Signals(T.Begun(CUT_OFF), heard[..|heard| - 1]) == []
    ensures Accounted(Settled(u, kind)) && AtRest(Settled(u, kind))
    ensures Settled(u, kind).accepted == s.accepted && s.reported <= Settled(u, kind).reported
  {
    var r := u.current.value;
    var next := u.(current := None, reported := u.reported + [Report(r.job, kind, true, r.heard)]);
    assert Jobs(next.reported) == Jobs(s.reported) + [r.job];
    StartNextAccounts(next);
  }

  lemma FromTaskAccounts(s: Service, e: T.Event)
    requires Accounted(s) && AtRest(s) && s.current.Some?
    ensures Accounted(FromTask(s, e)) && AtRest(FromTask(s, e))
    ensures FromTask(s, e).accepted == s.accepted && s.reported <= FromTask(s, e).reported
  {
    var r := s.current.value;
    T.RunAppend(T.Begun(CUT_OFF), r.heard, e);
    var signal := T.Handle(r.task, e).1;
    if signal.Some? {
      assert (r.heard + [e])[..|r.heard|] == r.heard;
      SettledAccounts(s, Heard(s, e), signal.value);
    }
  }

  lemma {:induction false} RunAccounts(es: seq<Event>)
    ensures Accounted(Run(es)) && AtRest(Run(es)) && Run(es).accepted == Requests(es)
  {
    if es != [] {
      var before, e := es[..|es| - 1], es[|es| - 1];
      RunAccounts(before);
      match e
      case Request(job) => DecodeAccounts(Run(before), job);
      case TaskEvent(t) => if Run(before).current.Some? { FromTaskAccounts(Run(before), t); }
    }
  }

  /**
   After every run, what was requested is what was reported followed by the running task and the
   queue: reports come in the order of the requests, none is lost and none is repeated. Each report is
   the one signal of its task, or the failure to start it. The exit timer is armed exactly when
   nothing is under way.
   */
  lemma EveryRequestIsReportedInOrder(es: seq<Event>)
    ensures var s := Run(es);
            && Requests(es) == Jobs(s.reported) + Underway(s)
            && (forall k :: 0 <= k < |s.reported| ==> Truthful(s.reported[k]))
            && (s.armed <==> Underway(s) == [])
            && (s.current.None? ==> s.queue == [])
  {
    RunAccounts(es);
  }

  /** The timer can end the process only when every request has been reported. */
  lemma ExitLosesNothing(es: seq<Event>)
    requires Run(es).armed
    ensures Jobs(Run(es).reported) == Requests(es)
  {
    RunAccounts(es);
  }

  /** What has been reported stays reported: later events only add reports. */
  lemma {:induction false} ReportsAreFinal(es: seq<Event>, k: nat)
    requires k <= |es|
    ensures Run(es[..k]).reported <= Run(es).reported
  {
    if k == |es| {
      assert es[..k] == es;
    } else {
      var before, e := es[..|es| - 1], es[|es| - 1];
      ReportsAreFinal(before, k);
      assert before[..k] == es[..k];
      RunAccounts(before);
      match e
      case Request(job) => DecodeAccounts(Run(before), job);
      case TaskEvent(t) => if Run(before).current.Some? { FromTaskAccounts(Run(before), t); }
    }
  }

  // ---------------------------------------------------------------- what a report is about

  /** A minute of sound. */
  const MINUTE := 5760000

  /** The buffers are small enough for the counter. */
  ghost predicate Small(heard: seq<T.Event>) {
    T.SizesUpTo(T.GUINT - MINUTE, heard)
  }

  /**
   Each report of a task that was begun is deserved by the last event it heard, and none before deserved
   one: an error of the pipeline, the end of its stream, or the idle callback after a minute of sound.
   */
  lemma ReportsAreDeserved(es: seq<Event>, k: nat)
    requires k < |Run(es).reported| && Run(es).reported[k].began && Small(Run(es).reported[k].heard)
    ensures var r := Run(es).reported[k];
            var n := |r.heard| - 1;
            && n >= 0
            && (match r.heard[n]
                case BusError => r.kind.Failed?
                case Eos(fromPipeline) => fromPipeline && r.kind.Succeeded?
                case SegmentDone(fromPipeline) => fromPipeline && r.kind.Succeeded?
                case Idle => T.Total(r.heard[..n]) >= MINUTE && r.kind.Succeeded?
                case Buffer(_) => false)
            && forall j :: 0 <= j < n ==>
                 && !r.heard[j].BusError?
                 && !(r.heard[j].Eos? && r.heard[j].fromPipeline) && !(r.heard[j].SegmentDone? && r.heard[j].fromPipeline)
                 && !(r.heard[j].Idle? && T.Total(r.heard[..j]) >= MINUTE)
  {
    hide T.Run, T.Total, T.Signals, T.NotEnded, T.EndsTask;
    RunAccounts(es);
    var r := Run(es).reported[k];
    assert Truthful(r);
    HeardEnds(r.heard, r.kind);
  }

  lemma MinuteFits(heard: seq<T.Event>)
    requires Small(heard)
    ensures T.SoundBytes(CUT_OFF) == MINUTE && T.Fits(CUT_OFF, heard)
  {
  }

  lemma HeardEnds(heard: seq<T.Event>, kind: T.Signal)
    requires Small(heard) && heard != [] && T.Signals(T.Begun(CUT_OFF), heard) == [kind]
    requires T.Signals(T.Begun(CUT_OFF), heard[..|heard| - 1]) == []
    ensures var n := |heard| - 1;
            && (match heard[n]
                case BusError => kind.Failed?
                case Eos(fromPipeline) => fromPipeline && kind.Succeeded?
                case SegmentDone(fromPipeline) => fromPipeline && kind.Succeeded?
                case Idle => T.Total(heard[..n]) >= MINUTE && kind.Succeeded?
                case Buffer(_) => false)
            && forall j :: 0 <= j < n ==>
                 && !heard[j].BusError?
                 && !(heard[j].Eos? && heard[j].fromPipeline) && !(heard[j].SegmentDone? && heard[j].fromPipeline)
                 && !(heard[j].Idle? && T.Total(heard[..j]) >= MINUTE)
  {
    hide T.Run, T.Total, T.Signals, T.NotEnded, T.SoundBytes;
    var n := |heard| - 1;
    var before := heard[..n];
    MinuteFits(heard);
    MinuteFits(before);
    T.SilentExactlyUntilEnded(CUT_OFF, heard);
    T.SilentExactlyUntilEnded(CUT_OFF, before);
    T.NotEndedStep(CUT_OFF, heard);
    T.TheFirstEndDecides(CUT_OFF, heard, n);
    forall j | 0 <= j < n
      ensures !heard[j].BusError?
      ensures !(heard[j].Eos? && heard[j].fromPipeline) && !(heard[j].SegmentDone? && heard[j].fromPipeline)
      ensures !(heard[j].Idle? && T.Total(heard[..j]) >= MINUTE)
    {
      T.EndsTaskBefore(CUT_OFF, heard, j);
      assert !T.EndsTask(CUT_OFF, before, j) by { NoneBefore(before, j); }
    }
  }

  lemma NoneBefore(heard: seq<T.Event>, j: int)
    requires T.NotEnded(CUT_OFF, heard)
    ensures !T.EndsTask(CUT_OFF, heard, j)
  {
  }

  /** The current task is completed exactly when a minute of its sound has been produced. */
  lemma CurrentIsCompletedAfterAMinute(es: seq<Event>)
    requires Run(es).current.Some? && Small(Run(es).current.value.heard)
    ensures var r := Run(es).current.value; r.task.completed <==> T.Total(r.heard) >= MINUTE
  {
    hide T.Run, T.Total, T.Signals, T.NotEnded, T.EndsTask;
    RunAccounts(es);
    var heard := Run(es).current.value.heard;
    MinuteFits(heard);
    T.SilentExactlyUntilEnded(CUT_OFF, heard);
    T.SilentUntilEnded(CUT_OFF, heard);
    T.SuccessComesFirst(CUT_OFF, heard);
    T.IdleIsAccountedFor(CUT_OFF, heard);
  }
}
