/**
 NsvDecoderTask and NsvDecoderService as objects: the callbacks update their fields in place, and the
 service pops its queue in a loop. Each method is proved against the functions of DecoderTask and
 DecoderService, so the theorems about runs are theorems about the objects.
 */
module DecoderObjects {
  import opened Wrappers
  import T = DecoderTask
  import S = DecoderService

  class NsvDecoderTask {
    const job: S.Job
    const cutOff: int
    var decodingStarted: bool
    var decodingCompleted: bool
    var dataSoFar: nat
    var cutOffMul96: nat
    var emitSucceededTimeout: bool
    /** The idle source with that id is still pending. */
    var idlePending: bool

    constructor (job: S.Job)
      ensures this.job == job && cutOff == S.CUT_OFF && Unstarted()
    {
      this.job, cutOff := job, S.CUT_OFF;
      decodingStarted, decodingCompleted, dataSoFar, cutOffMul96 := false, false, 0, 0;
      emitSucceededTimeout, idlePending := false, false;
    }

    predicate Unstarted()
      reads this
    {
      !decodingStarted && !decodingCompleted && dataSoFar == 0 && !emitSucceededTimeout && !idlePending
    }

    function Contents(): T.Task
      reads this
    {
      T.Task(cutOffMul96, decodingStarted, decodingCompleted, dataSoFar, idlePending, emitSucceededTimeout)
    }

    method Start() returns (ok: bool)
      requires Unstarted()
      modifies this
      ensures ok == job.opens
      ensures ok ==> Contents() == T.Begun(cutOff)
    {
      if !job.opens {
        return false;
      }
      cutOffMul96 := (T.BYTES_PER_MS * cutOff) % T.GUINT;
      decodingStarted := true;
      return true;
    }

    method OnBuffer(size: nat)
      modifies this
      ensures Contents() == T.Handle(old(Contents()), T.Buffer(size)).0
    {
      if cutOffMul96 == 0 || decodingCompleted {
        return;
      }
      dataSoFar := (dataSoFar + size) % T.GUINT;
      if dataSoFar < cutOffMul96 {
        return;
      }
      decodingCompleted := true;
      emitSucceededTimeout := true;
      idlePending := true;
    }

    method OnIdle() returns (signal: Option<T.Signal>)
      modifies this
      ensures (Contents(), signal) == T.Handle(old(Contents()), T.Idle)
    {
      signal := None;
      if idlePending {
        idlePending := false;
        if decodingStarted {
          decodingStarted := false;
          signal := Some(T.Succeeded);
        }
      }
    }

    method OnEos(e: T.Event) returns (signal: Option<T.Signal>)
      requires e.Eos? || e.SegmentDone?
      modifies this
      ensures (Contents(), signal) == T.Handle(old(Contents()), e)
    {
      signal := None;
      if e.fromPipeline && decodingStarted {
        if emitSucceededTimeout {
          idlePending := false;
          emitSucceededTimeout := false;
        }
        decodingStarted := false;
        decodingCompleted := true;
        signal := Some(T.Succeeded);
      }
    }

    method Handle(e: T.Event) returns (signal: Option<T.Signal>)
      modifies this
      ensures (Contents(), signal) == T.Handle(old(Contents()), e)
    {
      signal := None;
      match e
      case Buffer(size) => OnBuffer(size);
      case Idle => signal := OnIdle();
      case Eos(_) => signal := OnEos(e);
      case SegmentDone(_) => signal := OnEos(e);
      case BusError =>
        decodingStarted := false;
        signal := Some(T.Failed);
    }
  }

  class NsvDecoderService {
    var queue: seq<NsvDecoderTask>
    var currentTask: NsvDecoderTask?
    var exitTimeout: bool
    /** The state this object stands for, and the events that led there. */
    ghost var contents: S.Service
    ghost var history: seq<S.Event>

    constructor ()
      ensures Valid() && contents == S.INITIAL && currentTask == null && queue == []
      ensures InRun() && history == []
    {
      queue, currentTask, exitTimeout := [], null, true;
      contents := S.INITIAL;
      history := [];
    }

    /** Between events: the object is where a run of its events leads. */
    ghost predicate InRun()
      reads this, queue, currentTask
    {
      Valid() && contents == S.Run(history)
    }

    /** Every request is reported, in order and truthfully, or under way; the timer runs when none is. */
    lemma Promises()
      requires InRun()
      ensures S.Requests(history) == S.Jobs(contents.reported) + S.Underway(contents)
      ensures forall k :: 0 <= k < |contents.reported| ==> S.Truthful(contents.reported[k])
      ensures exitTimeout <==> currentTask == null && queue == []
      ensures exitTimeout ==> S.Jobs(contents.reported) == S.Requests(history)
    {
      S.EveryRequestIsReportedInOrder(history);
    }

    /** Each report is deserved by what its task heard last; and a task is completed after a minute of sound. */
    lemma ReportsAreDeserved(k: nat)
      requires InRun() && k < |contents.reported| && contents.reported[k].began && S.Small(contents.reported[k].heard)
      ensures var r := contents.reported[k];
              var n := |r.heard| - 1;
              n >= 0 &&
              match r.heard[n]
              case BusError => r.kind.Failed?
              case Eos(fromPipeline) => fromPipeline && r.kind.Succeeded?
              case SegmentDone(fromPipeline) => fromPipeline && r.kind.Succeeded?
              case Idle => T.Total(r.heard[..n]) >= S.MINUTE && r.kind.Succeeded?
              case Buffer(_) => false
    {
      S.ReportsAreDeserved(history, k);
    }

    /** The current task is started and has reported nothing; if it is completed, its report is pending. */
    lemma CurrentTaskIsSilent()
      requires InRun() && currentTask != null
      ensures currentTask.decodingStarted
      ensures currentTask.decodingCompleted == currentTask.idlePending == currentTask.emitSucceededTimeout
      ensures contents.current.Some?
      ensures var heard := contents.current.value.heard;
              S.Small(heard) ==> (currentTask.decodingCompleted <==> T.Total(heard) >= S.MINUTE)
    {
      if S.Small(contents.current.value.heard) {
        S.CurrentIsCompletedAfterAMinute(history);
      }
      S.RunAccounts(history);
      T.SuccessComesFirst(S.CUT_OFF, contents.current.value.heard);
      T.IdleIsAccountedFor(S.CUT_OFF, contents.current.value.heard);
    }

    /** The waiting tasks are distinct, not yet started, and not the current one. */
    ghost predicate Waiting()
      reads this, queue
    {
      && |contents.queue| == |queue|
      && (forall k :: 0 <= k < |queue| ==>
            && queue[k].job == contents.queue[k] && queue[k].cutOff == S.CUT_OFF
            && queue[k].Unstarted() && queue[k] != currentTask)
      && forall j, k :: 0 <= j < k < |queue| ==> queue[j] != queue[k]
    }

    ghost predicate Valid()
      reads this, queue, currentTask
    {
      && Waiting()
      && contents.armed == exitTimeout
      && (contents.current.Some? <==> currentTask != null)
      && (currentTask != null ==>
            && contents.current.value.job == currentTask.job
            && contents.current.value.task == currentTask.Contents())
    }

    method StartNextTask()
      requires Valid()
      modifies this, queue
      ensures history == old(history)
      ensures Valid() && contents == S.StartNext(old(contents))
    {
      if currentTask != null {
        return;
      }
      while queue != []
        invariant Valid() && currentTask == null && history == old(history)
        invariant S.StartNext(contents) == S.StartNext(old(contents))
        invariant forall t :: t in queue ==> t in old(queue)
        decreases |queue|
      {
        var task := queue[0];
        assert task in queue;
        var ok := task.Start();
        queue := queue[1..];
        if !ok {
          contents := contents.(queue := contents.queue[1..],
                                reported := contents.reported + [S.Report(task.job, T.Failed, false, [])]);
        } else {
          currentTask := task;
          contents := contents.(queue := contents.queue[1..], current := Some(S.Running(task.job, T.Begun(S.CUT_OFF), [])));
          return;
        }
      }
      exitTimeout := true;
      contents := contents.(armed := true);
    }

    method Decode(job: S.Job)
      requires Valid()
      modifies this, queue
      ensures history == old(history)
      ensures Valid() && contents == S.Decode(old(contents), job)
    {
      exitTimeout := false;
      var task := new NsvDecoderTask(job);
      queue := queue + [task];
      contents := contents.(armed := false, queue := contents.queue + [job], accepted := contents.accepted + [job]);
      StartNextTask();
    }

    /** The callbacks of "succeeded" and "error". */
    method OnSignal(kind: T.Signal)
      requires Valid() && currentTask != null
      modifies this, queue
      ensures history == old(history)
      ensures Valid() && contents == S.Settled(old(contents), kind)
    {
      ghost var r := contents.current.value;
      currentTask := null;
      contents := contents.(current := None, reported := contents.reported + [S.Report(r.job, kind, true, r.heard)]);
      StartNextTask();
    }

    method OnTaskEvent(e: T.Event)
      requires Valid() && currentTask != null
      modifies this, queue, currentTask
      ensures history == old(history)
      ensures Valid() && contents == S.FromTask(old(contents), e)
    {
      var signal := currentTask.Handle(e);
      contents := S.Heard(contents, e);
      if signal.Some? {
        OnSignal(signal.value);
      }
    }

    /** One turn of the main loop. */
    method Dispatch(e: S.Event)
      requires InRun()
      modifies this, queue, currentTask
      ensures InRun() && history == old(history) + [e]
    {
      Handle(e);
      assert (history + [e])[..|history|] == history;
      history := history + [e];
    }

    method Handle(e: S.Event)
      requires Valid()
      modifies this, queue, currentTask
      ensures Valid() && contents == S.Step(old(contents), e) && history == old(history)
    {
      match e
      case Request(job) => Decode(job);
      case TaskEvent(t) =>
        if currentTask != null {
          OnTaskEvent(t);
        }
    }
  }
}
