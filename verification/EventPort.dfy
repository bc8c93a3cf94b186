/** The event fields of IsolatedFeatureClient and the sections that run without suspension. */
module EventPort {
  import opened Options
  import opened EventDelivery

  class EventPort {
    var pendingNotifications: seq<nat>
    var handlers: nat
    ghost var delivery: Delivery

    ghost predicate Valid()
      reads this
    {
      pendingNotifications == delivery.buffer && handlers == |delivery.logs| && Inv(delivery)
    }

    constructor ()
      ensures Valid() && delivery == Start()
    {
      pendingNotifications, handlers := [], 0;
      delivery := Start();
    }

    /** on_event: whether a drain task is created. */
    method OnEvent() returns (drains: bool)
      requires Valid()
      modifies this
      ensures Valid() && delivery == DoRegister(old(delivery))
      ensures drains <==> old(delivery).logs == [] && old(delivery).buffer != []
    {
      RegisterKeeps(delivery);
      var first := handlers == 0;
      handlers := handlers + 1;
      drains := first && pendingNotifications != [];
      delivery := DoRegister(delivery);
    }

    /** _handle_notification from taking the lock to its first delivery: what is to be delivered, in order. */
    method HandleNotification(e: nat) returns (queue: seq<nat>)
      requires Valid() && delivery.lock.Free? && Enabled(delivery, Read) && e == delivery.received
      modifies this
      ensures Valid() && delivery == DoRead(old(delivery))
      ensures queue == if old(handlers) == 0 then [] else old(pendingNotifications) + [e]
    {
      ReadKeeps(delivery);
      delivery := DoRead(delivery);
      if handlers == 0 {
        pendingNotifications := pendingNotifications + [e];
        if |pendingNotifications| > MAX_PENDING_EVENTS {
          pendingNotifications := pendingNotifications[1..];
        }
        return [];
      }
      queue := FlushBuffer();
      queue := queue + [e];
    }

    /** _flush_buffer up to its first delivery: a fresh buffer replaces the one being delivered. */
    method FlushBuffer() returns (buffered: seq<nat>)
      modifies this`pendingNotifications
      ensures buffered == old(pendingNotifications) && pendingNotifications == []
    {
      buffered := pendingNotifications;
      pendingNotifications := [];
    }
  }
}
