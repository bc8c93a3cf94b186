/**
  Event delivery in IsolatedFeatureClient: the read loop, handler registration and the
  buffered drain, interleaved under the event lock. Events are numbered as they are read.
 */
module EventDelivery {
  import opened Options

  const MAX_PENDING_EVENTS: nat := 256

  /** One dispatch: not begun, or the handlers in `count` are being called, `index` next. */
  datatype Dispatch = NotBegun | Calling(count: nat, index: nat)

  /** The lock and what its holder still has to deliver; the head is being dispatched. */
  datatype Holder = Free | Reader(queue: seq<nat>, dispatch: Dispatch) | Drainer(queue: seq<nat>, dispatch: Dispatch)

  datatype Delivery = Delivery(
    received: nat,                // events read so far; the next one gets this number
    buffer: seq<nat>,             // _pending_notifications
    logs: seq<seq<nat>>,          // per handler, the events it has been called with
    lock: Holder,
    waiting: Option<nat>,         // the event the read loop waits for the lock with
    drain: Flag,                  // a drain task that has not got the lock yet
    readerAlive: Flag,
    // history
    subscribedAt: Option<nat>,    // how many events had been read at the first registration
    failed: Flag                  // some delivery failed or was cancelled
  )

  datatype Event =
    | Read                        // the read loop takes a notification and, if the lock is free, enters
    | ReaderEnters | DrainerEnters
    | Register
    | Begin | Call | Next | Release
    | Abort(called: Flag)         // the current handler fails, or the delivering task is cancelled
    | CancelReader | CancelDrain  // a task is cancelled while it waits for the lock

  function Start(): Delivery {
    Delivery(0, [], [], Free, None, No, Yes, None, No)
  }

  /** deque(maxlen=256).append: the oldest entry falls out. */
  function Append(buffer: seq<nat>, e: nat): seq<nat> {
    var longer := buffer + [e];
    if |longer| > MAX_PENDING_EVENTS then longer[1..] else longer
  }

  /** _handle_notification once it holds the lock. */
  function Enter(d: Delivery, e: nat): Delivery {
    if d.logs == [] then d.(buffer := Append(d.buffer, e))
    else d.(lock := Reader(d.buffer + [e], NotBegun), buffer := [])
  }

  function SetWork(d: Delivery, queue: seq<nat>, dispatch: Dispatch): Delivery {
    match d.lock
    case Reader(_, _) => d.(lock := Reader(queue, dispatch))
    case Drainer(_, _) => d.(lock := Drainer(queue, dispatch))
    case Free => d
  }

  predicate Enabled(d: Delivery, ev: Event) {
    match ev
    case Read => d.readerAlive == Yes && !d.lock.Reader? && d.waiting.None?
    case ReaderEnters => d.lock.Free? && d.waiting.Some?
    case DrainerEnters => d.lock.Free? && d.drain == Yes
    case Register => true
    case Begin => !d.lock.Free? && d.lock.queue != [] && d.lock.dispatch.NotBegun?
    case Call => !d.lock.Free? && d.lock.queue != [] && d.lock.dispatch.Calling? && d.lock.dispatch.index < d.lock.dispatch.count <= |d.logs|
    case Next => !d.lock.Free? && d.lock.queue != [] && d.lock.dispatch.Calling? && d.lock.dispatch.index >= d.lock.dispatch.count
    case Release => !d.lock.Free? && d.lock.queue == []
    case Abort(called) =>
      !d.lock.Free? &&
      (called == Yes ==> d.lock.queue != [] && d.lock.dispatch.Calling? && d.lock.dispatch.index < d.lock.dispatch.count <= |d.logs|)
    case CancelReader => d.waiting.Some?
    case CancelDrain => d.drain == Yes
  }

  function DoRead(d: Delivery): Delivery {
    var d1 := d.(received := d.received + 1);
    if d.lock.Free? then Enter(d1, d.received) else d1.(waiting := Some(d.received))
  }

  /** on_event: the first handler starts a drain of what was buffered. */
  function DoRegister(d: Delivery): Delivery {
    var d1 := d.(logs := d.logs + [[]]);
    if d.logs != [] then d1
    else d1.(subscribedAt := Some(d.received), drain := if d.buffer != [] then Yes else d.drain)
  }

  function DoCall(d: Delivery): Delivery
    requires Enabled(d, Call)
  {
    var i := d.lock.dispatch.index;
    SetWork(d.(logs := d.logs[i := d.logs[i] + [d.lock.queue[0]]]), d.lock.queue, Calling(d.lock.dispatch.count, i + 1))
  }

  /** The exception ends the delivering task; the rest of what it had taken is not delivered. */
  function DoAbort(d: Delivery, called: Flag): Delivery
    requires Enabled(d, Abort(called))
  {
    var d1 := if called == Yes then DoCall(d) else d;
    d1.(lock := Free, failed := Yes, readerAlive := if d.lock.Reader? then No else d.readerAlive)
  }

  function Apply(d: Delivery, ev: Event): Delivery
    requires Enabled(d, ev)
  {
    match ev
    case Read => DoRead(d)
    case ReaderEnters => Enter(d.(waiting := None), d.waiting.value)
    case DrainerEnters => d.(lock := Drainer(d.buffer, NotBegun), buffer := [], drain := No)
    case Register => DoRegister(d)
    case Begin => SetWork(d, d.lock.queue, Calling(|d.logs|, 0))
    case Call => DoCall(d)
    case Next => SetWork(d, d.lock.queue[1..], NotBegun)
    case Release => d.(lock := Free)
    case Abort(called) => DoAbort(d, called)
    case CancelReader => d.(waiting := None, readerAlive := No, failed := Yes)
    case CancelDrain => d.(drain := No, failed := Yes)
  }

  ghost predicate Run(d: Delivery, events: seq<Event>, d': Delivery)
    decreases |events|
  {
    if events == [] then d' == d
    else Enabled(d, events[0]) && Run(Apply(d, events[0]), events[1..], d')
  }

  // ----- everything a handler has got or may still get -----

  /** What the lock holder will still deliver to this handler. */
  function Held(d: Delivery, h: nat): seq<nat> {
    if d.lock.Free? then []
    else if d.lock.queue == [] then []
    else if d.lock.dispatch.NotBegun? then d.lock.queue
    else if h < d.lock.dispatch.index || d.lock.dispatch.count <= h then d.lock.queue[1..]
    else d.lock.queue
  }

  function Outside(d: Delivery): seq<nat> {
    d.buffer + if d.waiting.Some? then [d.waiting.value] else []
  }

  /** The handler's log, then what is on its way to it. */
  function Line(d: Delivery, h: nat): seq<nat>
    requires h < |d.logs|
  {
    d.logs[h] + Held(d, h) + Outside(d)
  }

  function Range(a: nat, b: nat): seq<nat>
    requires a <= b
  {
    seq(b - a, i requires 0 <= i < b - a => a + i)
  }

  /** Increasing, and below the next number. */
  predicate Ordered(s: seq<nat>, bound: nat) {
    (forall i, j :: 0 <= i < j < |s| ==> s[i] < s[j]) && forall i :: 0 <= i < |s| ==> s[i] < bound
  }

  function Oldest(count: nat): nat {
    if count <= MAX_PENDING_EVENTS then 0 else count - MAX_PENDING_EVENTS
  }

  predicate ShapeInv(d: Delivery) {
    && (d.logs == [] ==> d.lock.Free? && d.waiting.None? && d.drain == No && d.failed == No && d.subscribedAt.None?
                         && d.buffer == Range(Oldest(d.received), d.received))
    && (d.logs != [] ==> d.subscribedAt.Some? && d.subscribedAt.value <= d.received)
    && (d.logs != [] && d.buffer != [] && d.failed == No ==> d.drain == Yes)
    && (!d.lock.Free? ==> d.buffer == [])
    && (d.lock.Reader? ==> d.waiting.None?)
    && (!d.lock.Free? && d.lock.dispatch.Calling? ==> d.lock.queue != [] && d.lock.dispatch.index <= d.lock.dispatch.count <= |d.logs|)
  }

  ghost predicate OrderInv(d: Delivery) {
    && Ordered((if d.lock.Free? then [] else d.lock.queue) + Outside(d), d.received)
    && forall h :: 0 <= h < |d.logs| ==> Ordered(Line(d, h), d.received)
  }

  /** Without failures the first handler's line is the last 256 earlier events and all later ones. */
  ghost predicate FirstInv(d: Delivery) {
    d.logs != [] && d.failed == No && d.subscribedAt.Some? && d.subscribedAt.value <= d.received ==>
      Line(d, 0) == Range(Oldest(d.subscribedAt.value), d.received)
  }

  ghost predicate Inv(d: Delivery) {
    ShapeInv(d) && OrderInv(d) && FirstInv(d)
  }

  // ----- sequences -----

  lemma DropMiddle(a: seq<nat>, b: seq<nat>, c: seq<nat>, bound: nat)
    requires Ordered(a + b + c, bound)
    ensures Ordered(a + c, bound) && Ordered(b + c, bound)
  {
    var s := a + b + c;
    forall i, j | 0 <= i < j < |a + c| ensures (a + c)[i] < (a + c)[j] {
      assert (a + c)[i] == s[if i < |a| then i else i + |b|] && (a + c)[j] == s[if j < |a| then j else j + |b|];
    }
    forall i | 0 <= i < |a + c| ensures (a + c)[i] < bound {
      assert (a + c)[i] == s[if i < |a| then i else i + |b|];
    }
    forall i, j | 0 <= i < j < |b + c| ensures (b + c)[i] < (b + c)[j] {
      assert (b + c)[i] == s[i + |a|] && (b + c)[j] == s[j + |a|];
    }
    forall i | 0 <= i < |b + c| ensures (b + c)[i] < bound {
      assert (b + c)[i] == s[i + |a|];
    }
  }

  lemma PushNext(a: seq<nat>, bound: nat)
    requires Ordered(a, bound)
    ensures Ordered(a + [bound], bound + 1)
  {
  }

  lemma RangeNext(a: nat, b: nat)
    requires a <= b
    ensures Range(a, b) + [b] == Range(a, b + 1) && (a < b ==> Range(a, b)[1..] == Range(a + 1, b))
    ensures Ordered(Range(a, b), b)
  {
  }

  // ----- every step -----

  lemma ReadBuffers(d: Delivery)
    requires Inv(d) && Enabled(d, Read) && d.logs == []
    ensures Inv(DoRead(d))
  {
    RangeNext(Oldest(d.received), d.received);
    RangeNext(Oldest(d.received + 1), d.received + 1);
  }

  /** With a handler registered, the event joins the end of every line. */
  lemma ReadExtends(d: Delivery, h: nat)
    requires Inv(d) && Enabled(d, Read) && h < |d.logs|
    ensures Line(DoRead(d), h) == Line(d, h) + [d.received]
  {
  }

  lemma ReadKeepsOrder(d: Delivery)
    requires Inv(d) && Enabled(d, Read) && d.logs != []
    ensures OrderInv(DoRead(d))
  {
    var d' := DoRead(d);
    var all := (if d.lock.Free? then [] else d.lock.queue) + Outside(d);
    PushNext(all, d.received);
    assert (if d'.lock.Free? then [] else d'.lock.queue) + Outside(d') == all + [d.received];
    forall h | 0 <= h < |d.logs| ensures Ordered(Line(d', h), d'.received) {
      ReadExtends(d, h);
      PushNext(Line(d, h), d.received);
    }
  }

  lemma ReadKeeps(d: Delivery)
    requires Inv(d) && Enabled(d, Read)
    ensures Inv(DoRead(d))
  {
    if d.logs == [] {
      ReadBuffers(d);
    } else {
      ReadKeepsOrder(d);
      ReadExtends(d, 0);
      RangeNext(Oldest(d.subscribedAt.value), d.received);
    }
  }

  /** Steps that neither read nor lose events leave every line as it was. */
  lemma SameLines(d: Delivery, d': Delivery)
    requires Inv(d) && ShapeInv(d') && |d'.logs| == |d.logs| && d'.received == d.received
    requires d'.subscribedAt == d.subscribedAt && (d'.failed == No ==> d.failed == No)
    requires forall h :: 0 <= h < |d.logs| ==> Line(d', h) == Line(d, h)
    requires Ordered((if d'.lock.Free? then [] else d'.lock.queue) + Outside(d'), d'.received)
    ensures Inv(d')
  {
  }

  lemma EnterKeeps(d: Delivery, ev: Event)
    requires Inv(d) && Enabled(d, ev) && (ev.ReaderEnters? || ev.DrainerEnters?)
    ensures Inv(Apply(d, ev))
  {
    var d' := Apply(d, ev);
    forall h | 0 <= h < |d.logs| ensures Line(d', h) == Line(d, h) {}
    assert (if d'.lock.Free? then [] else d'.lock.queue) + Outside(d') == Outside(d);
    assert [] + Outside(d) == Outside(d);
    SameLines(d, d');
  }

  /** A handler that registers during a dispatch gets the rest of what the lock holder has. */
  lemma NewLineOrdered(d: Delivery)
    requires Inv(d) && d.logs != []
    ensures Ordered(Line(DoRegister(d), |d.logs|), d.received)
  {
    var d' := DoRegister(d);
    var n := |d.logs|;
    var queue := if d.lock.Free? then [] else d.lock.queue;
    if Held(d', n) == queue {
      assert Line(d', n) == queue + Outside(d);
    } else {
      assert queue == [queue[0]] + queue[1..];
      DropMiddle([], [queue[0]], queue[1..] + Outside(d), d.received) by {
        assert [] + [queue[0]] + (queue[1..] + Outside(d)) == queue + Outside(d);
      }
      assert Line(d', n) == [] + (queue[1..] + Outside(d));
    }
  }

  lemma RegisterKeeps(d: Delivery)
    requires Inv(d)
    ensures Inv(DoRegister(d))
  {
    if d.logs == [] {
      RangeNext(Oldest(d.received), d.received);
      assert Line(DoRegister(d), 0) == Range(Oldest(d.received), d.received);
    } else {
      forall h | 0 <= h < |d.logs| ensures Line(DoRegister(d), h) == Line(d, h) {}
      NewLineOrdered(d);
    }
  }

  lemma CallKeepsLines(d: Delivery, h: nat)
    requires Inv(d) && Enabled(d, Call) && h < |d.logs|
    ensures Line(DoCall(d), h) == Line(d, h)
  {
    var q := d.lock.queue;
    assert q == [q[0]] + q[1..];
    if h == d.lock.dispatch.index {
      assert d.logs[h] + q == d.logs[h] + [q[0]] + q[1..];
    }
  }

  lemma CallKeeps(d: Delivery)
    requires Inv(d) && Enabled(d, Call)
    ensures Inv(DoCall(d))
  {
    forall h | 0 <= h < |d.logs| ensures Line(DoCall(d), h) == Line(d, h) { CallKeepsLines(d, h); }
    SameLines(d, DoCall(d));
  }

  lemma NextKeeps(d: Delivery)
    requires Inv(d) && Enabled(d, Next)
    ensures Inv(Apply(d, Next))
  {
    var d' := Apply(d, Next);
    forall h | 0 <= h < |d.logs| ensures Line(d', h) == Line(d, h) {}
    var q := d.lock.queue;
    assert [] + [q[0]] + (q[1..] + Outside(d)) == q + Outside(d);
    DropMiddle([], [q[0]], q[1..] + Outside(d), d.received);
    assert [] + (q[1..] + Outside(d)) == q[1..] + Outside(d);
    SameLines(d, d');
  }

  lemma BeginOrReleaseKeeps(d: Delivery, ev: Event)
    requires Inv(d) && Enabled(d, ev) && (ev.Begin? || ev.Release?)
    ensures Inv(Apply(d, ev))
  {
    var d' := Apply(d, ev);
    forall h | 0 <= h < |d.logs| ensures Line(d', h) == Line(d, h) {}
    SameLines(d, d');
  }

  /** Losing what the lock holder had taken keeps the order of everything else. */
  lemma LosingKeeps(d: Delivery, d': Delivery)
    requires Inv(d) && d.logs != [] && !d.lock.Free?
    requires d' == d.(lock := Free, failed := Yes, readerAlive := d'.readerAlive)
    ensures Inv(d')
  {
    var out := Outside(d);
    forall h | 0 <= h < |d.logs| ensures Ordered(Line(d', h), d.received) {
      assert Line(d, h) == d.logs[h] + Held(d, h) + out && Ordered(Line(d, h), d.received);
      DropMiddle(d.logs[h], Held(d, h), out, d.received);
      assert Line(d', h) == d.logs[h] + out;
    }
    assert [] + d.lock.queue + out == d.lock.queue + out;
    DropMiddle(d.lock.queue, [], out, d.received) by { assert d.lock.queue + [] + out == d.lock.queue + out; }
  }

  lemma AbortKeeps(d: Delivery, called: Flag)
    requires Inv(d) && Enabled(d, Abort(called))
    ensures Inv(DoAbort(d, called))
  {
    if called == Yes { CallKeeps(d); }
    LosingKeeps(if called == Yes then DoCall(d) else d, DoAbort(d, called));
  }

  lemma CancelKeeps(d: Delivery, ev: Event)
    requires Inv(d) && Enabled(d, ev) && (ev.CancelReader? || ev.CancelDrain?)
    ensures Inv(Apply(d, ev))
  {
    var d' := Apply(d, ev);
    if ev.CancelReader? {
      forall h | 0 <= h < |d.logs| ensures Ordered(Line(d', h), d.received) {
        var kept := d.logs[h] + Held(d, h) + d.buffer;
        assert kept + [d.waiting.value] + [] == Line(d, h);
        DropMiddle(kept, [d.waiting.value], [], d.received);
        assert kept + [] == Line(d', h);
      }
      var kept := (if d.lock.Free? then [] else d.lock.queue) + d.buffer;
      assert kept + [d.waiting.value] + [] == (if d.lock.Free? then [] else d.lock.queue) + Outside(d);
      DropMiddle(kept, [d.waiting.value], [], d.received);
      assert kept + [] == (if d'.lock.Free? then [] else d'.lock.queue) + Outside(d');
    } else {
      forall h | 0 <= h < |d.logs| ensures Line(d', h) == Line(d, h) {}
      SameLines(d, d');
    }
  }

  lemma StepKeeps(d: Delivery, ev: Event)
    requires Inv(d) && Enabled(d, ev)
    ensures Inv(Apply(d, ev))
  {
    if ev.Read? { ReadKeeps(d); }
    else if ev.ReaderEnters? || ev.DrainerEnters? { EnterKeeps(d, ev); }
    else if ev.Register? { RegisterKeeps(d); }
    else if ev.Begin? || ev.Release? { BeginOrReleaseKeeps(d, ev); }
    else if ev.Call? { CallKeeps(d); }
    else if ev.Next? { NextKeeps(d); }
    else if ev.Abort? { AbortKeeps(d, ev.called); }
    else { CancelKeeps(d, ev); }
  }

  lemma {:induction false} RunKeeps(d: Delivery, events: seq<Event>, d': Delivery)
    requires Inv(d) && Run(d, events, d')
    ensures Inv(d')
    decreases |events|
  {
    if events != [] {
      StepKeeps(d, events[0]);
      RunKeeps(Apply(d, events[0]), events[1..], d');
    }
  }
}
