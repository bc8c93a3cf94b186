/** The locked sections of _ThreadedStdioWriter on mutable fields, and the writing of one job. */
module StdioThread {
  import opened Options
  import opened StdioWriter

  datatype Refusal = Terminal | Closed

  class ThreadedStdioWriter {
    var pending: seq<Byte>
    var jobs: seq<Job>
    var drains: set<nat>
    var closing: Flag
    var terminalFailure: Flag
    ghost var state: Writer

    ghost predicate Valid()
      reads this
    {
      && pending == state.pending && jobs == state.jobs && drains == state.drains
      && closing == state.closing && terminalFailure == state.terminal && number == |state.frames|
    }

    var number: nat    // the next completion

    constructor ()
      ensures Valid() && state == Start()
    {
      pending, jobs, drains, closing, terminalFailure, number := [], [], {}, No, No, 0;
      state := Start();
    }

    predicate MayEnqueue()
      reads this
    {
      terminalFailure == No && closing == No
    }

    function WhyNot(): Refusal
      reads this
    {
      if terminalFailure == Yes then Terminal else Closed
    }

    method Write(data: seq<Byte>) returns (r: Result<(), Refusal>)
      requires Valid()
      modifies this
      ensures Valid() && state == DoWrite(old(state), data)
      ensures r == if old(MayEnqueue()) then Ok(()) else Err(old(WhyNot()))
    {
      if !MayEnqueue() {
        return Err(WhyNot());
      }
      pending := pending + data;
      state := DoWrite(state, data);
      r := Ok(());
    }

    /** drain() up to the await: the completion to wait for, if any bytes were pending. */
    method Drain() returns (r: Result<Option<nat>, Refusal>)
      requires Valid()
      modifies this
      ensures Valid() && state == DoDrain(old(state))
      ensures r == if !old(MayEnqueue()) then Err(old(WhyNot()))
                   else if old(pending) == [] then Ok(None) else Ok(Some(old(|state.frames|)))
    {
      if !MayEnqueue() {
        return Err(WhyNot());
      }
      var data := pending;
      pending := [];
      state := DoDrain(state);
      if data == [] {
        return Ok(None);
      }
      drains := drains + {number};
      jobs := jobs + [Data(Frame(data, Yes), number)];
      number := number + 1;
      r := Ok(Some(number - 1));
    }

    method Close()
      requires Valid()
      modifies this
      ensures Valid() && state == DoClose(old(state))
    {
      if terminalFailure == Yes || closing == Yes {
        return;
      }
      closing := Yes;
      var data := pending;
      pending := [];
      if data != [] {
        jobs := jobs + [Data(Frame(data, No), number)];
        number := number + 1;
      }
      jobs := jobs + [Sentinel];
      state := DoClose(state);
    }

    /** _latch_terminal_failure: the drains that must fail. */
    method LatchTerminalFailure() returns (failed: set<nat>)
      requires Valid() && state.worker.Failed?
      modifies this
      ensures Valid() && state == DoLatch(old(state)) && state.worker == Fencing(failed)
    {
      terminalFailure := Yes;
      pending := [];
      failed := drains;
      drains := {};
      while jobs != []
        invariant drains == {} && pending == [] && terminalFailure == Yes && number == old(number)
        invariant failed == old(drains) && closing == old(closing) && state == old(state)
        decreases |jobs|
      {
        jobs := jobs[1..];
      }
      state := DoLatch(state);
    }
  }

  // ----- _write_and_flush -----

  /** How the stream answers one call: bytes taken, nothing ready, or an error after some bytes. */
  datatype Reply = Took(count: nat) | WouldBlock | Raises(count: nat)

  class Wire {
    var bytes: seq<Byte>
    var flushed: nat
    var script: seq<Reply>

    function Taken(view: seq<Byte>, count: nat): nat {
      if count <= |view| then count else |view|
    }

    method Write(view: seq<Byte>) returns (r: Option<nat>, ok: bool)
      modifies this`bytes, this`script
      ensures ok && r.Some? ==> r.value <= |view| && bytes == old(bytes) + view[..r.value]
      ensures ok && r.None? ==> bytes == old(bytes)
      ensures !ok ==> exists k :: 0 <= k <= |view| && bytes == old(bytes) + view[..k]
    {
      var reply := if script == [] then Raises(0) else script[0];
      if script != [] {
        script := script[1..];
      }
      match reply
      case Took(count) =>
        bytes := bytes + view[..Taken(view, count)];
        return Some(Taken(view, count)), true;
      case WouldBlock => return None, true;
      case Raises(count) =>
        bytes := bytes + view[..Taken(view, count)];
        return None, false;
    }

    method Flush() returns (ok: bool)
      modifies this`flushed, this`script
      ensures ok ==> flushed == |bytes|
      ensures !ok ==> flushed == old(flushed)
    {
      ok := script == [] || !script[0].Raises?;
      if script != [] {
        script := script[1..];
      }
      if ok {
        flushed := |bytes|;
      }
    }
  }

  /** Success puts all of `data` on the wire and flushes it; failure leaves some prefix of it there. */
  method WriteAndFlush(wire: Wire, data: seq<Byte>) returns (ok: bool)
    modifies wire
    ensures ok ==> wire.bytes == old(wire.bytes) + data && wire.flushed == |wire.bytes|
    ensures !ok ==> wire.flushed == old(wire.flushed) && exists k :: 0 <= k <= |data| && wire.bytes == old(wire.bytes) + data[..k]
  {
    var sent := 0;
    while sent < |data|
      invariant sent <= |data| && wire.bytes == old(wire.bytes) + data[..sent] && wire.flushed == old(wire.flushed)
    {
      var written, accepted := wire.Write(data[sent..]);
      if !accepted {
        ghost var k :| 0 <= k <= |data[sent..]| && wire.bytes == old(wire.bytes) + data[..sent] + data[sent..][..k];
        assert data[..sent] + data[sent..][..k] == data[..sent + k];
        return false;
      }
      if written.None? || written.value == 0 {
        return false;
      }
      assert data[..sent] + data[sent..][..written.value] == data[..sent + written.value];
      sent := sent + written.value;
    }
    assert data[..sent] == data;
    ok := wire.Flush();
  }
}
