/**
  _ThreadedStdioWriter as a transition system: senders that write, drain and close under the
  state lock, and one worker thread that owns the stream.
 */
module StdioWriter {
  import opened Options

  type Byte = b: int | 0 <= b < 256 witness 0

  /** One queued frame. Frames are numbered in enqueue order; the number names its completion, if it has one. */
  datatype Frame = Frame(data: seq<Byte>, awaited: Flag)

  datatype Job = Data(frame: Frame, number: nat) | Sentinel

  datatype Verdict = Written | Broken

  /** Where the worker thread is. */
  datatype Worker =
    | Waiting                                 // in jobs.get()
    | Writing(job: Frame, number: nat, sent: nat)
    | Flushed(job: Frame, number: nat)        // before it takes the lock to pop the drain
    | Popped(number: nat)                     // before it schedules the result
    | Failed                                  // a write or flush raised; before the latch
    | Fencing(left: set<nat>)                 // reporting the error to the fenced drains
    | Leaving                                 // about to close the stream
    | Gone

  datatype Writer = Writer(
    pending: seq<Byte>,
    jobs: seq<Job>,
    drains: set<nat>,
    closing: Flag,
    terminal: Flag,
    worker: Worker,
    stream: seq<Byte>,
    flushed: nat,
    // history
    accepted: seq<Byte>,                      // the data of all successful writes
    frames: seq<Frame>,                       // all frames ever enqueued
    taken: nat,                               // how many of them the worker has taken
    verdicts: map<nat, Verdict>
  )

  datatype Event =
    | Write(data: seq<Byte>) | Drain | Close
    | Take | Send(count: nat) | Flush | Break(count: nat) | Pop | Report | Latch | Fence(number: nat) | CloseStream

  function Start(): Writer {
    Writer([], [], {}, No, No, Waiting, [], 0, [], [], 0, map[])
  }

  function Enqueue(w: Writer, awaited: Flag): Writer {
    var f := Frame(w.pending, awaited);
    w.(pending := [], frames := w.frames + [f], jobs := w.jobs + [Data(f, |w.frames|)],
       drains := if awaited == Yes then w.drains + {|w.frames|} else w.drains)
  }

  /** write(): refused once closing or terminal. */
  function DoWrite(w: Writer, data: seq<Byte>): Writer {
    if w.terminal == Yes || w.closing == Yes then w
    else w.(pending := w.pending + data, accepted := w.accepted + data)
  }

  /** The locked part of drain(). */
  function DoDrain(w: Writer): Writer {
    if w.terminal == Yes || w.closing == Yes || w.pending == [] then w else Enqueue(w, Yes)
  }

  /** The close mark behind all frames, nothing being pending. */
  function MarkClosed(w: Writer): Writer {
    w.(closing := Yes, jobs := w.jobs + [Sentinel])
  }

  function DoClose(w: Writer): Writer {
    if w.terminal == Yes || w.closing == Yes then w
    else
      MarkClosed(if w.pending == [] then w else Enqueue(w, No))
  }

  function DoTake(w: Writer): Writer
    requires w.jobs != []
  {
    var rest := w.(jobs := w.jobs[1..]);
    match w.jobs[0]
    case Sentinel => rest.(worker := Leaving)
    case Data(f, n) => rest.(worker := Writing(f, n, 0), taken := w.taken + 1)
  }

  function DoSend(w: Writer, count: nat): Writer
    requires w.worker.Writing? && w.worker.sent + count <= |w.worker.job.data|
  {
    var sent := w.worker.sent;
    w.(stream := w.stream + w.worker.job.data[sent..sent + count], worker := w.worker.(sent := sent + count))
  }

  /** _latch_terminal_failure: one locked section. */
  function DoLatch(w: Writer): Writer {
    w.(terminal := Yes, pending := [], drains := {}, jobs := [], worker := Fencing(w.drains))
  }

  predicate Enabled(w: Writer, e: Event) {
    match e
    case Write(_) => true
    case Drain => true
    case Close => true
    case Take => w.worker.Waiting? && w.jobs != []
    case Send(count) => w.worker.Writing? && 0 < count && w.worker.sent + count <= |w.worker.job.data|
    case Flush => w.worker.Writing? && w.worker.sent == |w.worker.job.data|
    case Break(count) => w.worker.Writing? && w.worker.sent + count <= |w.worker.job.data|
    case Pop => w.worker.Flushed?
    case Report => w.worker.Popped?
    case Latch => w.worker.Failed?
    case Fence(n) => w.worker.Fencing? && n in w.worker.left
    case CloseStream => w.worker.Leaving? || (w.worker.Fencing? && w.worker.left == {})
  }

  function Apply(w: Writer, e: Event): Writer
    requires Enabled(w, e)
  {
    match e
    case Write(data) => DoWrite(w, data)
    case Drain => DoDrain(w)
    case Close => DoClose(w)
    case Take => DoTake(w)
    case Send(count) => DoSend(w, count)
    case Flush => w.(flushed := |w.stream|, worker := Flushed(w.worker.job, w.worker.number))
    case Break(count) => DoSend(w, count).(worker := Failed)
    case Pop =>
      if w.worker.job.awaited == Yes then w.(drains := w.drains - {w.worker.number}, worker := Popped(w.worker.number))
      else w.(worker := Waiting)
    case Report => w.(verdicts := w.verdicts[w.worker.number := Written], worker := Waiting)
    case Latch => DoLatch(w)
    case Fence(n) => w.(verdicts := w.verdicts[n := Broken], worker := Fencing(w.worker.left - {n}))
    case CloseStream => w.(worker := Gone)
  }

  ghost predicate Run(w: Writer, events: seq<Event>, w': Writer)
    decreases |events|
  {
    if events == [] then w' == w
    else Enabled(w, events[0]) && Run(Apply(w, events[0]), events[1..], w')
  }

  // ----- what every step keeps -----

  function Concat(frames: seq<Frame>): seq<Byte> {
    if frames == [] then [] else Concat(frames[..|frames| - 1]) + frames[|frames| - 1].data
  }

  /** The first frames, all bytes of them. */
  function Sent(w: Writer, count: nat): seq<Byte>
    requires count <= |w.frames|
  {
    Concat(w.frames[..count])
  }

  predicate Awaited(w: Writer, i: nat) {
    i < |w.frames| && w.frames[i].awaited == Yes
  }

  predicate Ended(w: Writer) {
    w.worker.Leaving? || w.worker.Gone?
  }

  /** The queue holds the frames not taken yet, in order, then the close mark. */
  ghost predicate QueueInv(w: Writer) {
    && w.taken <= |w.frames|
    && if w.terminal == Yes then w.jobs == []
       else if Ended(w) then w.jobs == [] && w.closing == Yes && w.taken == |w.frames|
       else
         && |w.jobs| == |w.frames| - w.taken + (if w.closing == Yes then 1 else 0)
         && (forall i: nat :: w.taken <= i < |w.frames| ==> w.jobs[i - w.taken] == Data(w.frames[i], i))
         && (w.closing == Yes ==> w.jobs[|w.frames| - w.taken] == Sentinel)
  }

  /** No accepted byte is lost or reordered on its way into frames. */
  ghost predicate AcceptedInv(w: Writer) {
    && (w.terminal == No ==> w.accepted == Concat(w.frames) + w.pending)
    && Concat(w.frames) <= w.accepted
    && (w.closing == Yes || w.terminal == Yes ==> w.pending == [])
  }

  /** What is on the stream, by where the worker is. */
  ghost predicate StreamInv(w: Writer)
    requires w.taken <= |w.frames|
  {
    && w.flushed <= |w.stream|
    && match w.worker
       case Writing(f, n, sent) =>
         n + 1 == w.taken && w.frames[n] == f && sent <= |f.data| && w.terminal == No && w.stream == Sent(w, n) + f.data[..sent]
       case Flushed(f, n) =>
         n + 1 == w.taken && w.frames[n] == f && w.terminal == No && w.stream == Sent(w, w.taken) && w.flushed == |w.stream|
       case Popped(n) =>
         n + 1 == w.taken && Awaited(w, n) && w.terminal == No && w.stream == Sent(w, w.taken) && w.flushed == |w.stream|
       case Waiting => w.terminal == No && w.stream == Sent(w, w.taken) && w.flushed == |w.stream|
       case Leaving => w.terminal == No && w.stream == Sent(w, w.taken) && w.flushed == |w.stream|
       case Failed => w.terminal == No && 0 < w.taken && w.stream <= Sent(w, w.taken)
       case Fencing(_) => w.terminal == Yes && w.stream <= Sent(w, w.taken)
       case Gone => w.stream <= Sent(w, w.taken) && (w.terminal == No ==> w.stream == Sent(w, w.taken) && w.flushed == |w.stream|)
  }

  /** The number of frames whose drain has been popped or never will be. */
  function Open(w: Writer): nat {
    if (w.worker.Writing? || w.worker.Flushed? || w.worker.Failed?) && w.taken > 0 then w.taken - 1 else w.taken
  }

  ghost predicate DrainInv(w: Writer) {
    forall i: nat :: i in w.drains <==> w.terminal == No && Awaited(w, i) && Open(w) <= i
  }

  /** Whose result the worker is about to report. */
  predicate InHand(w: Writer, i: nat) {
    w.worker == Popped(i) || (w.worker.Fencing? && i in w.worker.left)
  }

  /** Every awaited frame is in exactly one of: the drains, the worker's hand, the reported ones. */
  ghost predicate VerdictInv(w: Writer) {
    && (forall i: nat :: Awaited(w, i) ==> (i in w.drains || InHand(w, i) || i in w.verdicts))
    && (forall i: nat :: InHand(w, i) ==> Awaited(w, i) && i !in w.verdicts && i !in w.drains)
    && (forall i: nat :: i in w.verdicts ==> Awaited(w, i) && i !in w.drains)
  }

  /** A success is reported only for what has been flushed, a failure only after the latch. */
  ghost predicate SuccessInv(w: Writer)
    requires w.taken <= |w.frames|
  {
    forall i: nat :: i in w.verdicts ==>
      if w.verdicts[i] == Written then i < w.taken && |Sent(w, i + 1)| <= w.flushed else w.terminal == Yes
  }

  ghost predicate Inv(w: Writer) {
    QueueInv(w) && AcceptedInv(w) && StreamInv(w) && DrainInv(w) && VerdictInv(w) && SuccessInv(w)
  }

  // ----- frames only get appended -----

  lemma ConcatAppend(frames: seq<Frame>, f: Frame)
    ensures Concat(frames + [f]) == Concat(frames) + f.data
  {
    assert (frames + [f])[..|frames|] == frames;
  }

  lemma {:induction false} ConcatPrefix(frames: seq<Frame>, i: nat, j: nat)
    requires i <= j <= |frames|
    ensures Concat(frames[..i]) <= Concat(frames[..j])
    decreases j - i
  {
    if i < j {
      ConcatPrefix(frames, i, j - 1);
      assert frames[..j][..j - 1] == frames[..j - 1];
    }
  }

  lemma SentNext(w: Writer, n: nat)
    requires n < |w.frames|
    ensures Sent(w, n + 1) == Sent(w, n) + w.frames[n].data
  {
    assert w.frames[..n + 1] == w.frames[..n] + [w.frames[n]];
    ConcatAppend(w.frames[..n], w.frames[n]);
  }

  lemma SentSame(w: Writer, f: Frame, count: nat)
    requires count <= |w.frames|
    ensures Concat((w.frames + [f])[..count]) == Sent(w, count)
  {
    assert (w.frames + [f])[..count] == w.frames[..count];
  }

  lemma EnqueueKeepsQueue(w: Writer, awaited: Flag)
    requires QueueInv(w) && AcceptedInv(w) && w.terminal == No && w.closing == No && !Ended(w)
    ensures QueueInv(Enqueue(w, awaited)) && AcceptedInv(Enqueue(w, awaited))
  {
    ConcatAppend(w.frames, Frame(w.pending, awaited));
    var w' := Enqueue(w, awaited);
    forall i: nat | w'.taken <= i < |w'.frames| ensures w'.jobs[i - w'.taken] == Data(w'.frames[i], i) {
      if i < |w.frames| { assert w.jobs[i - w.taken] == Data(w.frames[i], i); }
    }
  }

  lemma EnqueueKeepsStream(w: Writer, awaited: Flag)
    requires Inv(w) && w.terminal == No && w.closing == No && !Ended(w)
    ensures StreamInv(Enqueue(w, awaited)) && SuccessInv(Enqueue(w, awaited))
  {
    var f := Frame(w.pending, awaited);
    var w' := Enqueue(w, awaited);
    SentSame(w, f, w.taken);
    if w.taken > 0 { SentSame(w, f, w.taken - 1); }
    forall i: nat | i in w'.verdicts && w'.verdicts[i] == Written ensures i < w'.taken && |Sent(w', i + 1)| <= w'.flushed {
      SentSame(w, f, i + 1);
    }
  }

  lemma EnqueueKeepsDrains(w: Writer, awaited: Flag)
    requires Inv(w) && w.terminal == No && w.closing == No && !Ended(w)
    ensures DrainInv(Enqueue(w, awaited)) && VerdictInv(Enqueue(w, awaited))
  {
    var w' := Enqueue(w, awaited);
    forall i: nat ensures Awaited(w', i) <==> Awaited(w, i) || (i == |w.frames| && awaited == Yes) {}
  }

  /** Putting one frame on the queue, as drain and close do. */
  lemma EnqueueKeeps(w: Writer, awaited: Flag)
    requires Inv(w) && w.terminal == No && w.closing == No && !Ended(w)
    ensures Inv(Enqueue(w, awaited))
  {
    EnqueueKeepsQueue(w, awaited);
    EnqueueKeepsStream(w, awaited);
    EnqueueKeepsDrains(w, awaited);
  }

  lemma OpenMeansRunning(w: Writer)
    requires Inv(w) && w.terminal == No && w.closing == No
    ensures !Ended(w)
  {
  }

  lemma WriteKeeps(w: Writer, data: seq<Byte>)
    requires Inv(w)
    ensures Inv(DoWrite(w, data))
  {
    if w.terminal == No && w.closing == No {
      assert w.accepted + data == Concat(w.frames) + (w.pending + data);
      var w' := DoWrite(w, data);
      assert QueueInv(w') && StreamInv(w') && DrainInv(w') && VerdictInv(w') && SuccessInv(w');
    }
  }

  lemma DrainKeeps(w: Writer)
    requires Inv(w)
    ensures Inv(DoDrain(w))
  {
    if w.terminal == No && w.closing == No && w.pending != [] {
      OpenMeansRunning(w);
      EnqueueKeeps(w, Yes);
    }
  }

  lemma MarkClosedKeeps(w: Writer)
    requires Inv(w) && w.terminal == No && w.closing == No && !Ended(w) && w.pending == []
    ensures Inv(MarkClosed(w))
  {
  }

  lemma CloseKeeps(w: Writer)
    requires Inv(w)
    ensures Inv(DoClose(w))
  {
    if w.terminal == No && w.closing == No {
      OpenMeansRunning(w);
      if w.pending != [] {
        EnqueueKeeps(w, No);
        MarkClosedKeeps(Enqueue(w, No));
      } else {
        MarkClosedKeeps(w);
      }
    }
  }

  /** The first job is the next frame, or the close mark when no frame is left. */
  lemma FirstJob(w: Writer)
    requires QueueInv(w) && w.terminal == No && !Ended(w) && w.jobs != []
    ensures if w.taken < |w.frames| then w.jobs[0] == Data(w.frames[w.taken], w.taken)
            else w.jobs == [Sentinel] && w.closing == Yes
  {
    if w.taken < |w.frames| {
      var i := w.taken;
      assert w.jobs[i - w.taken] == Data(w.frames[i], i);
    }
  }

  lemma TakeKeeps(w: Writer)
    requires Inv(w) && Enabled(w, Take)
    ensures Inv(DoTake(w))
  {
    FirstJob(w);
    if w.taken < |w.frames| {} else {}
  }

  lemma SendKeeps(w: Writer, count: nat)
    requires Inv(w) && w.worker.Writing? && w.worker.sent + count <= |w.worker.job.data|
    ensures Inv(DoSend(w, count))
  {
  }

  lemma BreakKeepsPrefix(w: Writer, count: nat)
    requires Inv(w) && Enabled(w, Break(count))
    ensures DoSend(w, count).stream <= Sent(w, w.taken)
  {
    SentNext(w, w.worker.number);
    SendKeeps(w, count);
  }

  lemma FailKeepsDrains(w: Writer)
    requires Inv(w) && w.worker.Writing?
    ensures DrainInv(w.(worker := Failed)) && VerdictInv(w.(worker := Failed))
  {
    assert Open(w) == Open(w.(worker := Failed));
    forall i: nat ensures Awaited(w, i) <==> Awaited(w.(worker := Failed), i) {}
  }

  lemma FailKeeps(w: Writer)
    requires Inv(w) && w.worker.Writing? && w.stream <= Sent(w, w.taken)
    ensures Inv(w.(worker := Failed))
  {
    FailKeepsDrains(w);
    var w' := w.(worker := Failed);
    assert w'.frames == w.frames && Sent(w', w'.taken) == Sent(w, w.taken);
    assert QueueInv(w') && AcceptedInv(w');
    assert SuccessInv(w');
  }

  lemma BreakKeeps(w: Writer, count: nat)
    requires Inv(w) && Enabled(w, Break(count))
    ensures Inv(Apply(w, Break(count)))
  {
    SendKeeps(w, count);
    BreakKeepsPrefix(w, count);
    FailKeeps(DoSend(w, count));
  }

  lemma FlushKeeps(w: Writer)
    requires Inv(w) && Enabled(w, Flush)
    ensures Inv(Apply(w, Flush))
  {
    SentNext(w, w.worker.number);
    assert w.worker.job.data[..w.worker.sent] == w.worker.job.data;
  }

  lemma PopKeepsDrains(w: Writer)
    requires Inv(w) && Enabled(w, Pop)
    ensures DrainInv(Apply(w, Pop)) && VerdictInv(Apply(w, Pop))
  {
    assert Awaited(w, w.worker.number) <==> w.worker.job.awaited == Yes;
    if w.worker.job.awaited == Yes {
    } else {
    }
  }

  lemma PopKeeps(w: Writer)
    requires Inv(w) && Enabled(w, Pop)
    ensures Inv(Apply(w, Pop))
  {
    PopKeepsDrains(w);
    if w.worker.job.awaited == Yes {
      assert Awaited(w, w.worker.number);
    } else {
    }
  }

  lemma ReportKeepsVerdicts(w: Writer)
    requires Inv(w) && Enabled(w, Report)
    ensures DrainInv(Apply(w, Report)) && VerdictInv(Apply(w, Report))
  {
    assert InHand(w, w.worker.number);
  }

  lemma ReportKeepsSuccess(w: Writer)
    requires Inv(w) && Enabled(w, Report)
    ensures SuccessInv(Apply(w, Report))
  {
    var w' := Apply(w, Report);
    forall i: nat | i in w'.verdicts && w'.verdicts[i] == Written ensures i < w'.taken && |Sent(w', i + 1)| <= w'.flushed {
      assert Sent(w', i + 1) == Sent(w, i + 1);
    }
  }

  lemma ReportKeepsStream(w: Writer)
    requires Inv(w) && Enabled(w, Report)
    ensures QueueInv(Apply(w, Report)) && AcceptedInv(Apply(w, Report)) && StreamInv(Apply(w, Report))
  {
    var w' := Apply(w, Report);
    assert w'.jobs == w.jobs && w'.frames == w.frames && w'.taken == w.taken;
  }

  lemma ReportKeeps(w: Writer)
    requires Inv(w) && Enabled(w, Report)
    ensures Inv(Apply(w, Report))
  {
    ReportKeepsVerdicts(w);
    ReportKeepsSuccess(w);
    ReportKeepsStream(w);
  }

  lemma LatchKeeps(w: Writer)
    requires Inv(w) && Enabled(w, Latch)
    ensures Inv(DoLatch(w))
  {
  }

  lemma FenceKeeps(w: Writer, n: nat)
    requires Inv(w) && Enabled(w, Fence(n))
    ensures Inv(Apply(w, Fence(n)))
  {
  }

  lemma StepKeeps(w: Writer, e: Event)
    requires Inv(w) && Enabled(w, e)
    ensures Inv(Apply(w, e))
  {
    match e
    case Write(data) => WriteKeeps(w, data);
    case Drain => DrainKeeps(w);
    case Close => CloseKeeps(w);
    case Take => TakeKeeps(w);
    case Send(count) => SendKeeps(w, count);
    case Flush => FlushKeeps(w);
    case Break(count) => BreakKeeps(w, count);
    case Pop => PopKeeps(w);
    case Report => ReportKeeps(w);
    case Latch => LatchKeeps(w);
    case Fence(n) => FenceKeeps(w, n);
    case CloseStream =>
  }

  lemma {:induction false} RunKeeps(w: Writer, events: seq<Event>, w': Writer)
    requires Inv(w) && Run(w, events, w')
    ensures Inv(w')
    decreases |events|
  {
    if events != [] {
      StepKeeps(w, events[0]);
      RunKeeps(Apply(w, events[0]), events[1..], w');
    }
  }
}
