/** What the stdio writer guarantees over every interleaving. */
module StdioSafety {
  import opened Options
  import opened StdioWriter

  lemma StartIsSafe()
    ensures Inv(Start())
  {
  }

  lemma Reached(events: seq<Event>, w: Writer)
    requires Run(Start(), events, w)
    ensures Inv(w)
  {
    StartIsSafe();
    RunKeeps(Start(), events, w);
  }

  lemma StreamWithinTaken(w: Writer)
    requires Inv(w)
    ensures w.stream <= Sent(w, w.taken)
  {
    if w.worker.Writing? { SentNext(w, w.worker.number); }
  }

  /** The wire carries a prefix of the enqueued frames in enqueue order, and so of the accepted bytes. */
  lemma StreamIsOrdered(events: seq<Event>, w: Writer)
    requires Run(Start(), events, w)
    ensures w.stream <= Concat(w.frames) <= w.accepted
  {
    Reached(events, w);
    StreamWithinTaken(w);
    ConcatPrefix(w.frames, w.taken, |w.frames|);
    assert w.frames[..|w.frames|] == w.frames;
  }

  /** A successful drain: its frame and all earlier ones are on the wire and flushed. */
  lemma SuccessMeansFlushed(events: seq<Event>, w: Writer, i: nat)
    requires Run(Start(), events, w) && i in w.verdicts && w.verdicts[i] == Written
    ensures i < |w.frames| && w.flushed <= |w.stream| && Concat(w.frames[..i + 1]) <= w.stream[..w.flushed]
  {
    Reached(events, w);
    StreamWithinTaken(w);
    ConcatPrefix(w.frames, i + 1, w.taken);
  }

  lemma StepKeepsVerdicts(w: Writer, e: Event, i: nat)
    requires Inv(w) && Enabled(w, e) && i in w.verdicts
    ensures i in Apply(w, e).verdicts && Apply(w, e).verdicts[i] == w.verdicts[i]
  {
    if e.Report? {
      assert InHand(w, w.worker.number);
    } else if e.Fence? {
      assert InHand(w, e.number);
    }
  }

  /** A drain that took bytes is resolved at most once. */
  lemma {:induction false} VerdictsAreFinal(w: Writer, events: seq<Event>, w': Writer, i: nat)
    requires Inv(w) && Run(w, events, w') && i in w.verdicts
    ensures i in w'.verdicts && w'.verdicts[i] == w.verdicts[i]
    decreases |events|
  {
    if events != [] {
      StepKeeps(w, events[0]);
      StepKeepsVerdicts(w, events[0], i);
      VerdictsAreFinal(Apply(w, events[0]), events[1..], w', i);
    }
  }

  /** ... and at least once by the time the worker thread is gone; an orderly close writes everything. */
  lemma GoneMeansResolved(events: seq<Event>, w: Writer, i: nat)
    requires Run(Start(), events, w) && w.worker.Gone? && Awaited(w, i)
    ensures i in w.verdicts
    ensures w.terminal == No ==> w.verdicts[i] == Written
  {
    Reached(events, w);
    assert !InHand(w, i);
  }

  lemma OrderlyCloseLosesNothing(events: seq<Event>, w: Writer)
    requires Run(Start(), events, w) && w.worker.Gone? && w.terminal == No
    ensures w.stream == w.accepted && w.flushed == |w.stream|
  {
    Reached(events, w);
    assert w.frames[..w.taken] == w.frames;
  }

  ghost predicate Dead(w: Writer) {
    w.worker.Failed? || w.worker.Fencing? || w.worker.Gone?
  }

  /** Once a write or flush has failed, nothing reaches the wire; once latched, nothing is accepted. */
  lemma {:induction false} SilentAfterFailure(w: Writer, events: seq<Event>, w': Writer)
    requires Dead(w) && Run(w, events, w')
    ensures Dead(w') && w'.stream == w.stream
    ensures w.terminal == Yes ==> w'.terminal == Yes && w'.accepted == w.accepted && w'.frames == w.frames
    decreases |events|
  {
    if events != [] {
      SilentAfterFailure(Apply(w, events[0]), events[1..], w');
    }
  }

  /** A failure before everything was flushed makes every drain behind it fail. */
  lemma UnflushedDrainsFail(events: seq<Event>, w: Writer, i: nat)
    requires Run(Start(), events, w) && i in w.verdicts && i < |w.frames| && |Concat(w.frames[..i + 1])| > w.flushed
    ensures w.verdicts[i] == Broken && w.terminal == Yes
  {
    Reached(events, w);
  }
}
