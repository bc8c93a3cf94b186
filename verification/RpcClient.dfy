/** The request table on mutable fields, with one shared future object per request. */
module RpcClient {
  import opened Options
  import opened RpcTable

  class FutureCell {
    var state: Future

    constructor ()
      ensures state == Pending
    {
      state := Pending;
    }

    predicate Done()
      reads this
    {
      state != Pending
    }
  }

  class IsolatedFeatureClient {
    var nextId: nat
    var pending: map<nat, FutureCell>
    var closedExc: Flag
    ghost var client: Client

    ghost predicate Valid()
      reads this, pending.Values
    {
      && nextId == client.nextId && closedExc == client.closed && pending.Keys == client.pending
      && Inv(client)
      && (forall id :: id in pending ==> id in client.futures && pending[id].state == client.futures[id])
      && (forall a, b :: a in pending && b in pending && a != b ==> pending[a] != pending[b])
    }

    /** request(): the id and the future, registered; None when the stream is dead. */
    method Register() returns (r: Option<(nat, FutureCell)>)
      requires Valid()
      modifies this
      ensures Valid() && client == DoRequest(old(client), Yes)
      ensures r.None? <==> old(closedExc) == Yes
      ensures r.Some? ==> r.value.0 == old(nextId) + 1 && r.value.0 in pending && pending[r.value.0] == r.value.1
                          && fresh(r.value.1) && pending == old(pending)[r.value.0 := r.value.1]
    {
      RequestKeeps(client, Yes);
      if closedExc == Yes {
        return None;
      }
      nextId := nextId + 1;
      var future := new FutureCell();
      pending := pending[nextId := future];
      client := DoRequest(client, Yes);
      r := Some((nextId, future));
    }

    /** The response branch of the read loop. */
    method OnResponse(reply: ReplyId, isError: Flag)
      requires Valid() && client.reader == Running
      modifies this, pending.Values
      ensures Valid() && client == DoReply(old(client), reply, isError)
    {
      ReplyKeeps(client, reply, isError);
      var key := TableKey(reply);
      if key.None? || key.value !in pending {
        return;
      }
      var future := pending[key.value];
      pending := pending - {key.value};
      client := DoReply(client, reply, isError);
      if !future.Done() {
        future.state := if isError == Yes then ErrorReply else Result;
      }
    }

    /** request()'s finally block, for the caller that registered `future`. */
    method Forget(id: nat, future: FutureCell)
      requires Valid() && id in client.waiters && (id in pending ==> pending[id] == future)
      modifies this
      ensures Valid() && pending == old(pending) - {id}
      ensures client == old(client).(waiters := old(client).waiters[id := Left], pending := old(client).pending - {id})
    {
      if id in pending && pending[id] == future {
        pending := pending - {id};
      }
      client := client.(waiters := client.waiters[id := Left], pending := client.pending - {id});
    }

    /** Every future still open gets the terminal error. */
    method FailPending()
      requires forall a, b :: a in pending && b in pending && a != b ==> pending[a] != pending[b]
      modifies pending.Values
      ensures forall id :: id in pending ==>
        pending[id].state == if old(pending[id].state) == Pending then Terminal else old(pending[id].state)
    {
      var left := pending.Keys;
      while left != {}
        invariant left <= pending.Keys
        invariant forall id :: id in left ==> pending[id].state == old(pending[id].state)
        invariant forall id :: id in pending && id !in left ==>
          pending[id].state == if old(pending[id].state) == Pending then Terminal else old(pending[id].state)
        decreases |left|
      {
        var id :| id in left;
        if !pending[id].Done() {
          pending[id].state := Terminal;
        }
        left := left - {id};
      }
    }

    /** The read loop's finally block: every pending request gets the terminal error. */
    method EndReadLoop()
      requires Valid() && client.reader == Running
      modifies this, pending.Values
      ensures Valid() && client == DoReaderEnds(old(client)) && pending == map[]
      ensures forall id :: id in old(pending) ==>
        old(pending)[id].state == if old(pending[id].state) == Pending then Terminal else old(pending[id].state)
    {
      StepKeeps(client, ReaderEnds);
      closedExc := Yes;
      FailPending();
      pending := map[];
      client := DoReaderEnds(client);
    }
  }
}
