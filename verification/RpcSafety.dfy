/** What the request table guarantees over every run. */
module RpcSafety {
  import opened Options
  import opened RpcTable

  /** Ids are never reused: a request that is issued takes one nobody had. */
  lemma IdsAreFresh(events: seq<Event>, c: Client, sends: Flag)
    requires Run(New(), events, c) && c.closed == No
    ensures var c' := Apply(c, Request(sends));
            c'.nextId !in c.futures && c'.nextId in c'.futures && forall id :: id in c.futures ==> c'.nextId > id
  {
    NewIsSafe();
    RunKeeps(New(), events, c);
  }

  lemma StepCompletesOnce(c: Client, e: Event, id: nat)
    requires Inv(c) && Enabled(c, e) && id in c.futures && c.futures[id] != Pending
    ensures id in Apply(c, e).futures && Apply(c, e).futures[id] == c.futures[id]
  {
    if e.Reply? && TableKey(e.reply) == Some(id) {}
  }

  /** A future is completed at most once: what it holds then stays. */
  lemma {:induction false} CompletedOnce(c: Client, events: seq<Event>, c': Client, id: nat)
    requires Inv(c) && Run(c, events, c') && id in c.futures && c.futures[id] != Pending
    ensures id in c'.futures && c'.futures[id] == c.futures[id]
    decreases |events|
  {
    if events != [] {
      StepKeeps(c, events[0]);
      StepCompletesOnce(c, events[0], id);
      CompletedOnce(Apply(c, events[0]), events[1..], c', id);
    }
  }

  /** A reply nobody waits for changes nothing and does not end the read loop. */
  lemma LateRepliesAreDiscarded(events: seq<Event>, c: Client, reply: ReplyId, isError: Flag)
    requires Run(New(), events, c) && Enabled(c, Reply(reply, isError))
    requires TableKey(reply).Some? ==> !Waits(c, TableKey(reply).value)
    ensures Apply(c, Reply(reply, isError)) == c
  {
    NewIsSafe();
    RunKeeps(New(), events, c);
  }

  /** The read loop has ended after having run. */
  ghost predicate LoopEnded(c: Client) {
    c.stepped == Yes && (c.reader == Ended || c.reader == Absent)
  }

  lemma {:induction false} LoopStaysEnded(c: Client, events: seq<Event>, c': Client)
    requires Inv(c) && LoopEnded(c) && Run(c, events, c')
    ensures LoopEnded(c') && Inv(c')
    decreases |events|
  {
    if events != [] {
      StepKeeps(c, events[0]);
      LoopStaysEnded(Apply(c, events[0]), events[1..], c');
    }
  }

  /** From the loop's end on, nobody waits on an open future and every request fails at once. */
  lemma NobodyWaitsAfterTheLoop(events: seq<Event>, c: Client, later: seq<Event>, c': Client, sends: Flag)
    requires Run(New(), events, c) && LoopEnded(c) && Run(c, later, c')
    ensures forall id: nat :: !Hangs(c', id)
    ensures c'.closed == Yes && Apply(c', Request(sends)) == c'
  {
    NewIsSafe();
    RunKeeps(New(), events, c);
    LoopStaysEnded(c, later, c');
  }

  /** No read loop will ever run: its task was cancelled before the first step. */
  ghost predicate NeverRan(c: Client) {
    c.stepped == No && (c.reader == Unstarted || (c.reader == Absent && c.closing == Closed))
  }

  /** Then no reply and no terminal error ever completes a request: only its own caller's cancellation does. */
  lemma {:induction false} UnstartedLoopStrands(c: Client, events: seq<Event>, c': Client, id: nat)
    requires Inv(c) && NeverRan(c) && Run(c, events, c') && id in c.futures && c.futures[id] == Pending
    ensures NeverRan(c') && id in c'.futures && (c'.futures[id] == Pending || c'.futures[id] == Cancelled)
    decreases |events|
  {
    if events != [] {
      StepKeeps(c, events[0]);
      var c1 := Apply(c, events[0]);
      if c1.futures[id] == Pending {
        UnstartedLoopStrands(c1, events[1..], c', id);
      } else {
        CompletedOnce(c1, events[1..], c', id);
        NeverRanStays(c1, events[1..], c');
      }
    }
  }

  lemma {:induction false} NeverRanStays(c: Client, events: seq<Event>, c': Client)
    requires Inv(c) && NeverRan(c) && Run(c, events, c')
    ensures NeverRan(c')
    decreases |events|
  {
    if events != [] {
      StepKeeps(c, events[0]);
      NeverRanStays(Apply(c, events[0]), events[1..], c');
    }
  }

  /** Once a client is fully closed and its reader settled, a request hangs only if the loop never ran. */
  lemma HangsOnlyIfLoopNeverRan(events: seq<Event>, c: Client, id: nat)
    requires Run(New(), events, c) && c.closing == Closed && c.reader != Running && c.reader != Created
    requires Hangs(c, id)
    ensures NeverRan(c)
  {
    NewIsSafe();
    RunKeeps(New(), events, c);
  }

  /** It does happen: a request, then a close before the read task's first step. */
  lemma ClosingBeforeTheFirstStepStrands()
    ensures exists events, c :: Run(New(), events, c) && c.closing == Closed && Hangs(c, 1) && NeverRan(c)
  {
    var c1 := Apply(New(), Request(Yes));
    var c2 := Apply(c1, CloseBegins);
    var c3 := Apply(c2, CloseDone);
    var events := [Request(Yes), CloseBegins, CloseDone];
    assert Run(c3, [], c3);
    assert events[1..][1..] == [CloseDone] && [CloseDone][1..] == [];
    assert Run(c2, [CloseDone], c3);
    assert events[1..] == [CloseBegins, CloseDone];
    assert Run(c1, events[1..], c3);
    assert Run(New(), events, c3);
  }
}
