/** What event handlers get to see, over every interleaving. */
module EventSafety {
  import opened Options
  import opened EventDelivery

  lemma Reached(events: seq<Event>, d: Delivery)
    requires Run(Start(), events, d)
    ensures Inv(d)
  {
    RunKeeps(Start(), events, d);
  }

  /** Every handler is called in stream order, never twice with one event, whatever fails or is cancelled. */
  lemma HandlersSeeStreamOrder(events: seq<Event>, d: Delivery, h: nat)
    requires Run(Start(), events, d) && h < |d.logs|
    ensures Ordered(d.logs[h], d.received)
  {
    Reached(events, d);
    var rest := Held(d, h) + Outside(d);
    assert d.logs[h] + rest + [] == Line(d, h);
    DropMiddle(d.logs[h], rest, [], d.received);
    assert d.logs[h] + [] == d.logs[h];
  }

  /** Nothing is under way. */
  predicate Quiet(d: Delivery) {
    d.lock.Free? && d.waiting.None? && d.drain == No
  }

  /**
    Without failures the first handler's calls are always the start of: the last 256 events
    read before it registered, then all later ones; and all of them once nothing is under way.
   */
  lemma FirstHandlerMissesNothing(events: seq<Event>, d: Delivery)
    requires Run(Start(), events, d) && d.logs != [] && d.failed == No
    ensures d.subscribedAt.Some? && d.subscribedAt.value <= d.received
    ensures d.logs[0] <= Range(Oldest(d.subscribedAt.value), d.received)
    ensures Quiet(d) ==> d.logs[0] == Range(Oldest(d.subscribedAt.value), d.received)
  {
    Reached(events, d);
    assert Line(d, 0) == d.logs[0] + (Held(d, 0) + Outside(d));
  }
}
