/**
 One decoding task: the buffer probe, the idle callback and the bus watch may come in any order, and
 each of them can end the task. A task is a value here; DecoderObjects has the object.
 */
module DecoderTask {
  import opened Wrappers

  /** guint arithmetic is modulo this. */
  const GUINT := 0x1_0000_0000

  /** Bytes per millisecond: 48 kHz, 16 bit, mono. */
  const BYTES_PER_MS := 96

  datatype Signal = Succeeded | Failed

  datatype Task = Task(
    limit: nat,        // cut_off_time_mul_96
    started: bool,
    completed: bool,
    soFar: nat,        // data_so_far
    idle: bool,        // an idle callback is pending
    idleId: bool)      // emit_suceeded_timeout is set

  function Limit(cutOff: int): nat {
    (BYTES_PER_MS * cutOff) % GUINT
  }

  /** After nsv_decoder_task_start has returned TRUE. */
  function Begun(cutOff: int): Task {
    Task(Limit(cutOff), true, false, 0, false, false)
  }

  /** SEGMENT_DONE from the pipeline is handled as EOS. */
  datatype Event =
    | Buffer(size: nat)
    | Idle
    | Eos(fromPipeline: bool)
    | SegmentDone(fromPipeline: bool)
    | BusError

  predicate IsEnd(e: Event) {
    (e.Eos? || e.SegmentDone?) && e.fromPipeline
  }

  /** The probe is installed only with a limit; the idle callback runs only when it is pending. */
  function Handle(t: Task, e: Event): (Task, Option<Signal>) {
    match e
    case Buffer(size) =>
      if t.limit == 0 || t.completed then (t, None)
      else
        var t1 := t.(soFar := (t.soFar + size) % GUINT);
        (if t1.soFar < t.limit then t1 else t1.(completed := true, idle := true, idleId := true), None)
    case Idle =>
      if !t.idle then (t, None)
      else if t.started then (t.(idle := false, started := false), Some(Succeeded))
      else (t.(idle := false), None)
    case Eos(_) | SegmentDone(_) =>
      if IsEnd(e) && t.started then
        (t.(idle := if t.idleId then false else t.idle, idleId := false, started := false, completed := true), Some(Succeeded))
      else (t, None)
    case BusError =>
      (t.(started := false), Some(Failed))
  }

  // ---------------------------------------------------------------- runs

  function Run(t: Task, es: seq<Event>): Task {
    if es == [] then t else Handle(Run(t, es[..|es| - 1]), es[|es| - 1]).0
  }

  function Signals(t: Task, es: seq<Event>): seq<Signal> {
    if es == [] then []
    else
      var before := es[..|es| - 1];
      var s := Handle(Run(t, before), es[|es| - 1]).1;
      Signals(t, before) + if s.Some? then [s.value] else []
  }

  lemma RunAppend(t: Task, es: seq<Event>, e: Event)
    ensures Run(t, es + [e]) == Handle(Run(t, es), e).0
    ensures Signals(t, es + [e]) ==
            Signals(t, es) + (var s := Handle(Run(t, es), e).1; if s.Some? then [s.value] else [])
  {
    assert (es + [e])[..|es|] == es;
  }

  /**
   Success is reported at most once and only as the first report: never after an error, never twice.
   A task that is still started has reported nothing.
   */
  lemma {:induction false} SuccessComesFirst(cutOff: int, es: seq<Event>)
    ensures var out := Signals(Begun(cutOff), es);
            && (forall k :: 0 <= k < |out| && out[k].Succeeded? ==> k == 0)
            && (Run(Begun(cutOff), es).started <==> out == [])
  {
    if es != [] {
      SuccessComesFirst(cutOff, es[..|es| - 1]);
    }
  }

  /**
   The idle callback that EOS removes is always a pending one, and a completed task that has not
   reported has its report pending.
   */
  lemma {:induction false} IdleIsAccountedFor(cutOff: int, es: seq<Event>)
    ensures var t := Run(Begun(cutOff), es);
            && (t.idle ==> t.idleId && t.completed)
            && (t.started ==> t.idleId == t.idle == t.completed)
            && (t.limit > 0 && !t.completed ==> t.soFar < t.limit)
            && t.limit == Limit(cutOff)
  {
    if es != [] {
      IdleIsAccountedFor(cutOff, es[..|es| - 1]);
    }
  }

  // ---------------------------------------------------------------- the byte limit

  /** The bytes that went through the probe, without wrap-around. */
  function Total(es: seq<Event>): nat {
    if es == [] then 0
    else
      var e := es[|es| - 1];
      Total(es[..|es| - 1]) + if e.Buffer? then e.size else 0
  }

  /** How often an idle success was scheduled. */
  function Scheduled(t: Task, es: seq<Event>): nat {
    if es == [] then 0
    else
      var before := es[..|es| - 1];
      var now, after := Run(t, before), Run(t, es);
      Scheduled(t, before) + if es[|es| - 1].Buffer? && after.idle && !now.idle then 1 else 0
  }

  /** The end of the stream was taken as the end of the task. */
  ghost predicate Ended(t: Task, es: seq<Event>) {
    exists k {:trigger es[k]} :: 0 <= k < |es| && IsEnd(es[k]) && Run(t, es[..k]).started
  }

  /** No buffer is so large that the sum could wrap past the limit. */
  ghost predicate Bounded(limit: nat, es: seq<Event>) {
    forall k :: 0 <= k < |es| && es[k].Buffer? ==> es[k].size <= GUINT - limit
  }

  /** Event k is the buffer with which the exact sum reaches the limit. */
  ghost predicate Crosses(limit: nat, es: seq<Event>, k: int) {
    0 <= k < |es| && Total(es[..k]) < limit <= Total(es[..k + 1])
  }

  /** Some buffer reaches the limit before the stream has ended. */
  ghost predicate CutOff(t: Task, es: seq<Event>) {
    exists k {:trigger Crosses(t.limit, es, k)} :: Crosses(t.limit, es, k) && !Ended(t, es[..k])
  }

  /** The probe decides by the exact sum, unless this buffer wraps the counter to below the limit. */
  lemma ProbeIsExactUnlessItWraps(t: Task, size: nat)
    requires t.limit > 0 && !t.completed && t.soFar < t.limit < GUINT
    ensures var r, sum := Handle(t, Buffer(size)).0, t.soFar + size;
            (r.completed <==> sum >= t.limit) <==> !(sum >= GUINT && sum % GUINT < t.limit)
  {
    if t.soFar + size < GUINT {
      assert (t.soFar + size) % GUINT == t.soFar + size;
    }
  }

  lemma BoundedBuffer(t: Task, size: nat)
    requires t.limit > 0 && !t.completed && t.soFar < t.limit && size <= GUINT - t.limit
    ensures var r := Handle(t, Buffer(size)).0;
            r.soFar == t.soFar + size && (r.completed <==> t.soFar + size >= t.limit) && r.idle == (t.idle || r.completed)
  {
  }

  lemma TotalStep(es: seq<Event>, k: nat)
    requires k < |es|
    ensures Total(es[..k + 1]) == Total(es[..k]) + if es[k].Buffer? then es[k].size else 0
  {
    assert es[..k + 1][..k] == es[..k];
  }

  lemma {:induction false} TotalGrows(es: seq<Event>, j: nat, k: nat)
    requires j <= k <= |es|
    ensures Total(es[..j]) <= Total(es[..k])
  {
    if j < k {
      TotalGrows(es, j, k - 1);
      TotalStep(es, k - 1);
    }
  }

  lemma EndedStep(t: Task, es: seq<Event>)
    requires es != []
    ensures var before := es[..|es| - 1];
            Ended(t, es) <==> Ended(t, before) || (IsEnd(es[|es| - 1]) && Run(t, before).started)
  {
    var before := es[..|es| - 1];
    if Ended(t, before) {
      var k :| 0 <= k < |before| && IsEnd(before[k]) && Run(t, before[..k]).started;
      assert es[k] == before[k] && es[..k] == before[..k];
    }
    if Ended(t, es) {
      var k :| 0 <= k < |es| && IsEnd(es[k]) && Run(t, es[..k]).started;
      if k < |es| - 1 {
        assert before[k] == es[k] && es[..k] == before[..k];
      }
    }
  }

  /**
   Without wrap-around the task is completed exactly when the exact sum has reached the limit or the
   stream ended; until then the counter is the exact sum.
   */
  lemma {:induction false} CompletedAtTheLimit(cutOff: int, es: seq<Event>)
    requires Limit(cutOff) > 0 && Bounded(Limit(cutOff), es)
    ensures var t := Run(Begun(cutOff), es);
            && (t.completed <==> Total(es) >= Limit(cutOff) || Ended(Begun(cutOff), es))
            && (!t.completed ==> t.soFar == Total(es))
  {
    if es != [] {
      var before, e := es[..|es| - 1], es[|es| - 1];
      var t := Run(Begun(cutOff), before);
      CompletedAtTheLimit(cutOff, before);
      IdleIsAccountedFor(cutOff, before);
      EndedStep(Begun(cutOff), es);
      if e.Buffer? && !t.completed {
        BoundedBuffer(t, e.size);
      }
    }
  }

  lemma CutOffStep(t: Task, es: seq<Event>)
    requires es != []
    ensures var before := es[..|es| - 1];
            CutOff(t, es) <==> CutOff(t, before) || (Crosses(t.limit, es, |es| - 1) && !Ended(t, before))
  {
    var before := es[..|es| - 1];
    CrossingsBefore(t.limit, es);
    if CutOff(t, es) {
      var k :| Crosses(t.limit, es, k) && !Ended(t, es[..k]);
      if k < |es| - 1 {
        assert before[..k] == es[..k] && Crosses(t.limit, before, k);
      }
    }
    if CutOff(t, before) {
      var k :| Crosses(t.limit, before, k) && !Ended(t, before[..k]);
      assert before[..k] == es[..k] && Crosses(t.limit, es, k);
    }
  }

  /** One event schedules the idle success exactly when it is the buffer that reaches the limit. */
  lemma SchedulingStep(cutOff: int, es: seq<Event>)
    requires es != [] && Limit(cutOff) > 0 && Bounded(Limit(cutOff), es)
    ensures var t, before := Begun(cutOff), es[..|es| - 1];
            es[|es| - 1].Buffer? && Run(t, es).idle && !Run(t, before).idle
            <==> Crosses(t.limit, es, |es| - 1) && !Ended(t, before)
  {
    var n := |es| - 1;
    var before, t := es[..n], Run(Begun(cutOff), es[..n]);
    CompletedAtTheLimit(cutOff, before);
    IdleIsAccountedFor(cutOff, before);
    TotalStep(es, n);
    assert es[..n + 1] == es;
    if es[n].Buffer? && !t.completed {
      BoundedBuffer(t, es[n].size);
    }
  }

  /**
   The idle success is scheduled exactly once, at the first buffer with which the exact sum reaches
   the limit, if the stream has not ended by then; otherwise never.
   */
  lemma {:induction false} ScheduledAtTheLimit(cutOff: int, es: seq<Event>)
    requires Limit(cutOff) > 0 && Bounded(Limit(cutOff), es)
    ensures Scheduled(Begun(cutOff), es) == if CutOff(Begun(cutOff), es) then 1 else 0
  {
    if es != [] {
      var before := es[..|es| - 1];
      ScheduledAtTheLimit(cutOff, before);
      SchedulingStep(cutOff, es);
      CutOffStep(Begun(cutOff), es);
      if CutOff(Begun(cutOff), before) {
        var k :| Crosses(Limit(cutOff), before, k);
        CrossingsBefore(Limit(cutOff), es);
        assert Crosses(Limit(cutOff), es, k);
        OneCrossing(Limit(cutOff), es);
      }
    }
  }

  /** The sum exceeds the limit by less than the buffer that reached it, and only one buffer does. */
  lemma Overshoot(limit: nat, es: seq<Event>, k: int)
    requires Crosses(limit, es, k)
    ensures es[k].Buffer? && 0 <= Total(es[..k + 1]) - limit < es[k].size
    ensures forall j :: Crosses(limit, es, j) ==> j == k
  {
    TotalStep(es, k);
    OneCrossing(limit, es);
  }

  lemma CrossingsBefore(limit: nat, es: seq<Event>)
    requires es != []
    ensures forall k :: 0 <= k < |es| - 1 ==> (Crosses(limit, es, k) <==> Crosses(limit, es[..|es| - 1], k))
  {
    var before := es[..|es| - 1];
    forall k | 0 <= k < |es| - 1 ensures Crosses(limit, es, k) <==> Crosses(limit, before, k) {
      assert before[..k] == es[..k] && before[..k + 1] == es[..k + 1];
    }
  }

  lemma OneCrossing(limit: nat, es: seq<Event>)
    ensures forall j, k :: Crosses(limit, es, j) && Crosses(limit, es, k) ==> j == k
  {
    forall j, k | Crosses(limit, es, j) && Crosses(limit, es, k) && j < k ensures false {
      TotalGrows(es, j + 1, k);
    }
  }

  // ---------------------------------------------------------------- which buffers are small enough

  ghost predicate SizesUpTo(bound: nat, es: seq<Event>) {
    forall k :: 0 <= k < |es| && es[k].Buffer? ==> es[k].size <= bound
  }

  /** Completion goes by the exact sum. */
  ghost predicate Exact(cutOff: int, es: seq<Event>) {
    var t := Begun(cutOff);
    Run(t, es).completed <==> Total(es) >= Limit(cutOff) || Ended(t, es)
  }

  function Ones(n: nat): seq<Event> {
    if n == 0 then [] else Ones(n - 1) + [Buffer(1)]
  }

  lemma LimitIsGuint(cutOff: int)
    ensures Limit(cutOff) < GUINT
  {
  }

  lemma OneMoreByte(t: Task)
    requires !t.completed && t.soFar + 1 < t.limit < GUINT
    ensures Handle(t, Buffer(1)).0 == t.(soFar := t.soFar + 1)
  {
  }

  lemma {:induction false} OnesCount(cutOff: int, n: nat)
    requires n < Limit(cutOff)
    ensures Run(Begun(cutOff), Ones(n)) == Begun(cutOff).(soFar := n) && Total(Ones(n)) == n
    ensures forall e :: e in Ones(n) ==> e == Buffer(1)
  {
    hide Handle, Limit;
    if n > 0 {
      OnesCount(cutOff, n - 1);
      LimitIsGuint(cutOff);
      OneMoreByte(Begun(cutOff).(soFar := n - 1));
      RunAppend(Begun(cutOff), Ones(n - 1), Buffer(1));
      assert Ones(n)[..|Ones(n)| - 1] == Ones(n - 1);
    }
  }

  /** Single bytes up to the limit, then a buffer that wraps the counter to 0: the limit is missed. */
  lemma LimitIsMissed(cutOff: int)
    requires Limit(cutOff) > 0
    ensures var es := Ones(Limit(cutOff) - 1) + [Buffer(GUINT - Limit(cutOff) + 1)];
            SizesUpTo(GUINT - Limit(cutOff) + 1, es) && !Exact(cutOff, es)
  {
    var n := Limit(cutOff) - 1;
    var ones, last := Ones(n), Buffer(GUINT - Limit(cutOff) + 1);
    OnesCount(cutOff, n);
    RunAppend(Begun(cutOff), ones, last);
    assert (ones + [last])[..|ones|] == ones;
    SmallAndLast(GUINT - Limit(cutOff) + 1, ones, last);
  }

  lemma SmallAndLast(bound: nat, es: seq<Event>, last: Event)
    requires 1 <= bound && (forall e :: e in es ==> e == Buffer(1)) && (last.Buffer? ==> last.size <= bound)
    ensures SizesUpTo(bound, es + [last])
  {
    forall k | 0 <= k < |es + [last]| && (es + [last])[k].Buffer? ensures (es + [last])[k].size <= bound {
      assert k < |es| ==> (es + [last])[k] in es;
    }
  }

  /** Completion goes by the exact sum for all buffers up to a size exactly when that is 2^32 less the limit. */
  lemma BoundIsExact(cutOff: int, bound: nat)
    requires Limit(cutOff) > 0
    ensures (forall es :: SizesUpTo(bound, es) ==> Exact(cutOff, es)) <==> bound <= GUINT - Limit(cutOff)
  {
    hide Run, Total;
    if bound <= GUINT - Limit(cutOff) {
      forall es | SizesUpTo(bound, es) ensures Exact(cutOff, es) {
        CompletedAtTheLimit(cutOff, es);
      }
    } else {
      var es := Ones(Limit(cutOff) - 1) + [Buffer(GUINT - Limit(cutOff) + 1)];
      LimitIsMissed(cutOff);
      assert SizesUpTo(bound, es);
    }
  }

  // ---------------------------------------------------------------- the limit as a length of sound

  /** The bytes of so many milliseconds of sound: 48000 samples a second, two bytes each, one channel. */
  function SoundBytes(ms: nat): nat {
    48000 * 2 * 1 * ms / 1000
  }

  /** The cut-off fits the counter, and so does every buffer on top of it. */
  ghost predicate Fits(cutOff: nat, es: seq<Event>) {
    0 < SoundBytes(cutOff) < GUINT && SizesUpTo(GUINT - SoundBytes(cutOff), es)
  }

  /** The pipeline said that its stream has ended, before the task had reported anything. */
  ghost predicate EndSeen(cutOff: nat, es: seq<Event>) {
    exists k {:trigger es[k]} ::
      && 0 <= k < |es|
      && ((es[k].Eos? && es[k].fromPipeline) || (es[k].SegmentDone? && es[k].fromPipeline))
      && Signals(Begun(cutOff), es[..k]) == []
  }

  lemma LimitIsSound(cutOff: nat)
    requires SoundBytes(cutOff) < GUINT
    ensures Limit(cutOff) == SoundBytes(cutOff)
  {
  }

  lemma EndedIsSeen(cutOff: nat, es: seq<Event>)
    ensures Ended(Begun(cutOff), es) <==> EndSeen(cutOff, es)
  {
    hide Run, Signals, Begun;
    forall k | 0 <= k < |es| ensures Run(Begun(cutOff), es[..k]).started <==> Signals(Begun(cutOff), es[..k]) == [] {
      SuccessComesFirst(cutOff, es[..k]);
    }
  }

  /** A task is completed exactly when it has produced its length of sound, or the stream ended. */
  lemma CompletedAfterTheSound(cutOff: nat, es: seq<Event>)
    requires Fits(cutOff, es)
    ensures Run(Begun(cutOff), es).completed <==> Total(es) >= SoundBytes(cutOff) || EndSeen(cutOff, es)
  {
    hide Run, Total, EndSeen, Ended;
    LimitIsSound(cutOff);
    EndedIsSeen(cutOff, es);
    CompletedAtTheLimit(cutOff, es);
  }

  /** Without a cut-off it is completed only by the end of the stream. */
  lemma {:induction false} CompletedWithoutCutOff(es: seq<Event>)
    ensures Run(Begun(0), es).completed <==> EndSeen(0, es)
  {
    EndedIsSeen(0, es);
    if es != [] {
      CompletedWithoutCutOff(es[..|es| - 1]);
      EndedIsSeen(0, es[..|es| - 1]);
      EndedStep(Begun(0), es);
      IdleIsAccountedFor(0, es[..|es| - 1]);
    }
  }

  /** Some buffer completes the length of sound before the end of the stream was seen. */
  ghost predicate SoundedOut(cutOff: nat, es: seq<Event>) {
    exists k {:trigger Crosses(SoundBytes(cutOff), es, k)} :: Crosses(SoundBytes(cutOff), es, k) && !EndSeen(cutOff, es[..k])
  }

  /**
   The idle success is scheduled exactly once, at the buffer that completes the length of sound, which is
   exceeded by less than that buffer; or never, when the stream ends before.
   */
  lemma ScheduledAfterTheSound(cutOff: nat, es: seq<Event>)
    requires Fits(cutOff, es)
    ensures Scheduled(Begun(cutOff), es) == if SoundedOut(cutOff, es) then 1 else 0
    ensures forall k {:trigger Crosses(SoundBytes(cutOff), es, k)} :: Crosses(SoundBytes(cutOff), es, k) ==>
              es[k].Buffer? && 0 <= Total(es[..k + 1]) - SoundBytes(cutOff) < es[k].size
  {
    hide Run, Total, EndSeen, Ended, Scheduled, SoundBytes;
    LimitIsSound(cutOff);
    ScheduledAtTheLimit(cutOff, es);
    forall k | 0 <= k < |es| ensures Ended(Begun(cutOff), es[..k]) <==> EndSeen(cutOff, es[..k]) {
      EndedIsSeen(cutOff, es[..k]);
    }
    forall k | Crosses(SoundBytes(cutOff), es, k)
      ensures es[k].Buffer? && 0 <= Total(es[..k + 1]) - SoundBytes(cutOff) < es[k].size
    {
      Overshoot(SoundBytes(cutOff), es, k);
    }
  }

  // ---------------------------------------------------------------- the verdict

  /** An event that ends the task, if it has not ended yet: idle comes to something only after the sound. */
  ghost predicate EndsTask(cutOff: nat, es: seq<Event>, k: int) {
    && 0 <= k < |es|
    && match es[k]
       case Buffer(_) => false
       case Idle => Total(es[..k]) >= SoundBytes(cutOff)
       case Eos(fromPipeline) => fromPipeline
       case SegmentDone(fromPipeline) => fromPipeline
       case BusError => true
  }

  ghost predicate NotEnded(cutOff: nat, es: seq<Event>) {
    forall k :: !EndsTask(cutOff, es, k)
  }

  function BusErrors(es: seq<Event>): nat {
    if es == [] then 0 else BusErrors(es[..|es| - 1]) + if es[|es| - 1].BusError? then 1 else 0
  }

  function FailedCount(out: seq<Signal>): nat {
    if out == [] then 0 else FailedCount(out[..|out| - 1]) + if out[|out| - 1].Failed? then 1 else 0
  }

  lemma EndsTaskBefore(cutOff: nat, es: seq<Event>, k: int)
    requires es != [] && 0 <= k < |es| - 1
    ensures EndsTask(cutOff, es, k) <==> EndsTask(cutOff, es[..|es| - 1], k)
  {
    assert es[..|es| - 1][..k] == es[..k];
  }

  lemma NotEndedStep(cutOff: nat, es: seq<Event>)
    requires es != []
    ensures NotEnded(cutOff, es) <==> NotEnded(cutOff, es[..|es| - 1]) && !EndsTask(cutOff, es, |es| - 1)
  {
    hide EndsTask;
    var before := es[..|es| - 1];
    forall k | 0 <= k < |es| - 1 ensures EndsTask(cutOff, es, k) <==> EndsTask(cutOff, before, k) {
      EndsTaskBefore(cutOff, es, k);
    }
    assert forall k :: k < 0 || k >= |es| ==> !EndsTask(cutOff, es, k) by { OutOfRange(cutOff, es); }
    assert forall k :: k < 0 || k >= |before| ==> !EndsTask(cutOff, before, k) by { OutOfRange(cutOff, before); }
  }

  lemma OutOfRange(cutOff: nat, es: seq<Event>)
    ensures forall k :: k < 0 || k >= |es| ==> !EndsTask(cutOff, es, k)
  {
  }

  /** While nothing has ended it, a task is silent and its idle report is due exactly after the sound. */
  lemma SilentUntilEnded(cutOff: nat, es: seq<Event>)
    requires Fits(cutOff, es) && NotEnded(cutOff, es) && Signals(Begun(cutOff), es) == []
    ensures var t := Run(Begun(cutOff), es); t.started && (t.idle <==> Total(es) >= SoundBytes(cutOff))
  {
    hide Run, Total, Signals;
    SuccessComesFirst(cutOff, es);
    IdleIsAccountedFor(cutOff, es);
    CompletedAfterTheSound(cutOff, es);
    forall k | 0 <= k < |es| ensures !(es[k].Eos? && es[k].fromPipeline) && !(es[k].SegmentDone? && es[k].fromPipeline) {
      assert !EndsTask(cutOff, es, k);
    }
  }

  /** A task says nothing until the first event that ends it. */
  lemma {:induction false} SilentExactlyUntilEnded(cutOff: nat, es: seq<Event>)
    requires Fits(cutOff, es)
    ensures Signals(Begun(cutOff), es) == [] <==> NotEnded(cutOff, es)
    decreases |es|
  {
    hide Run, Total, NotEnded, SoundBytes;
    if es != [] {
      var before := es[..|es| - 1];
      SilentExactlyUntilEnded(cutOff, before);
      NotEndedStep(cutOff, es);
      if NotEnded(cutOff, before) {
        SilentUntilEnded(cutOff, before);
      }
    } else {
      OutOfRange(cutOff, es);
      assert NotEnded(cutOff, es) by { NothingEnds(cutOff); }
    }
  }

  lemma NothingEnds(cutOff: nat)
    ensures NotEnded(cutOff, [])
  {
  }

  /** The first event that ends it decides: an error of the pipeline is a failure, anything else a success. */
  lemma {:induction false} TheFirstEndDecides(cutOff: nat, es: seq<Event>, k: int)
    requires Fits(cutOff, es) && EndsTask(cutOff, es, k) && NotEnded(cutOff, es[..k])
    ensures var out := Signals(Begun(cutOff), es);
            out != [] && out[0] == if es[k].BusError? then Failed else Succeeded
    decreases |es|
  {
    hide Run, Total, SoundBytes, NotEnded;
    var before := es[..|es| - 1];
    if k < |es| - 1 {
      EndsTaskBefore(cutOff, es, k);
      assert before[..k] == es[..k];
      TheFirstEndDecides(cutOff, before, k);
    } else {
      assert before == es[..k];
      SilentExactlyUntilEnded(cutOff, before);
      SilentUntilEnded(cutOff, before);
    }
  }

  /** Every error of the pipeline is reported as a failure, and nothing else is. */
  lemma {:induction false} ErrorsAreFailures(cutOff: int, es: seq<Event>)
    ensures FailedCount(Signals(Begun(cutOff), es)) == BusErrors(es)
  {
    if es != [] {
      var before := es[..|es| - 1];
      ErrorsAreFailures(cutOff, before);
      var s := Handle(Run(Begun(cutOff), before), es[|es| - 1]).1;
      if s.Some? {
        assert (Signals(Begun(cutOff), before) + [s.value])[..|Signals(Begun(cutOff), before)|] == Signals(Begun(cutOff), before);
      } else {
        assert Signals(Begun(cutOff), before) + [] == Signals(Begun(cutOff), before);
      }
    }
  }
}
