/**
  The request table of IsolatedFeatureClient: requests, replies, cancellation, the read
  loop's end and close, each step being the code between two suspension points.
 */
module RpcTable {
  import opened Options

  datatype Future = Pending | Result | ErrorReply | Terminal | Cancelled

  datatype Waiter = Draining | Awaiting | Left

  /** The read task. Unstarted: cancelled before its first step, so none of its code ever runs. */
  datatype Reader = Absent | Created | Running | Ended | Unstarted

  /** close(): whether it found a read task when it began. */
  datatype Closing = NotClosing | ClosingReader | ClosingAlone | Closed

  datatype Client = Client(
    nextId: nat,
    pending: set<nat>,
    futures: map<nat, Future>,
    waiters: map<nat, Waiter>,
    closed: Flag,                 // _closed_exc is set
    reader: Reader,
    closing: Closing,
    stepped: Flag                 // history: a read loop has taken its first step
  )

  /** The id of a decoded response: a string, an integer, a boolean or null. */
  datatype ReplyId = Text(s: string) | Number(n: int) | Truth(b: bool) | Null

  /** The table key it finds: a dict takes True and 1 for the same key. */
  function TableKey(id: ReplyId): Option<nat> {
    match id
    case Number(n) => if n >= 0 then Some(n) else None
    case Truth(b) => Some(if b then 1 else 0)
    case Text(_) => None
    case Null => None
  }

  datatype Event =
    | Request(sends: Flag)          // whether encoding and writing the frame succeed
    | DrainDone(id: nat) | DrainFails(id: nat)
    | CancelAwait(id: nat) | Leave(id: nat)
    | ReaderStarts | Reply(reply: ReplyId, isError: Flag) | ReaderEnds
    | CloseBegins | CloseDone

  function New(): Client {
    Client(0, {}, map[], map[], No, Absent, NotClosing, No)
  }

  predicate Waits(c: Client, id: nat) {
    id in c.waiters && c.waiters[id] != Left
  }

  /** The caller of this request is still waiting and nothing has completed it. */
  predicate Hangs(c: Client, id: nat) {
    Waits(c, id) && id in c.futures && c.futures[id] == Pending
  }

  predicate Enabled(c: Client, e: Event) {
    match e
    case Request(_) => true
    case DrainDone(id) => id in c.waiters && c.waiters[id] == Draining
    case DrainFails(id) => id in c.waiters && c.waiters[id] == Draining
    case CancelAwait(id) => id in c.waiters && id in c.futures && c.waiters[id] == Awaiting && c.futures[id] == Pending
    case Leave(id) => id in c.waiters && id in c.futures && c.waiters[id] == Awaiting && c.futures[id] != Pending
    case ReaderStarts => c.reader == Created
    case Reply(_, _) => c.reader == Running
    case ReaderEnds => c.reader == Running
    case CloseBegins => c.closing == NotClosing
    case CloseDone => c.closing == ClosingAlone || (c.closing == ClosingReader && (c.reader == Ended || c.reader == Unstarted))
  }

  /** request() up to the first await. */
  function DoRequest(c: Client, sends: Flag): Client {
    if c.closed == Yes then c
    else
      var id := c.nextId + 1;
      var started := if c.reader == Absent then c.(reader := Created) else c;
      var issued := started.(nextId := id, futures := c.futures[id := Pending]);
      if sends == Yes then issued.(pending := c.pending + {id}, waiters := c.waiters[id := Draining])
      else issued.(waiters := c.waiters[id := Left])
  }

  function DoReply(c: Client, reply: ReplyId, isError: Flag): Client {
    var key := TableKey(reply);
    if key.None? || key.value !in c.pending || key.value !in c.futures then c
    else
      var id := key.value;
      var popped := c.(pending := c.pending - {id});
      if c.futures[id] != Pending then popped
      else popped.(futures := c.futures[id := if isError == Yes then ErrorReply else Result])
  }

  /** The read loop's finally block. */
  function DoReaderEnds(c: Client): Client {
    c.(reader := Ended, closed := Yes, pending := {},
       futures := map id | id in c.futures :: if id in c.pending && c.futures[id] == Pending then Terminal else c.futures[id])
  }

  function Apply(c: Client, e: Event): Client
    requires Enabled(c, e)
  {
    match e
    case Request(sends) => DoRequest(c, sends)
    case DrainDone(id) => c.(waiters := c.waiters[id := Awaiting])
    case DrainFails(id) => c.(waiters := c.waiters[id := Left], pending := c.pending - {id})
    case CancelAwait(id) => c.(futures := c.futures[id := Cancelled])
    case Leave(id) => c.(waiters := c.waiters[id := Left], pending := c.pending - {id})
    case ReaderStarts => c.(reader := Running, stepped := Yes)
    case Reply(reply, isError) => DoReply(c, reply, isError)
    case ReaderEnds => DoReaderEnds(c)
    case CloseBegins =>
      if c.reader == Absent then c.(closing := ClosingAlone)
      else c.(closing := ClosingReader, reader := if c.reader == Created then Unstarted else c.reader)
    case CloseDone =>
      if c.closing == ClosingAlone then c.(closing := Closed, closed := Yes)
      else c.(closing := Closed, closed := Yes, reader := Absent)
  }

  ghost predicate Run(c: Client, events: seq<Event>, c': Client)
    decreases |events|
  {
    if events == [] then c' == c
    else Enabled(c, events[0]) && Run(Apply(c, events[0]), events[1..], c')
  }

  // ----- the invariant -----

  ghost predicate TablesInv(c: Client) {
    && (forall id: nat :: id in c.futures <==> 1 <= id <= c.nextId)
    && (forall id: nat :: id in c.waiters <==> 1 <= id <= c.nextId)
    && (forall id: nat :: id in c.pending ==> Waits(c, id))
    && (forall id: nat :: Waits(c, id) && c.futures[id] == Pending ==> id in c.pending)
  }

  predicate ReaderInv(c: Client) {
    && (c.reader == Running || c.reader == Ended ==> c.stepped == Yes)
    && (c.reader == Ended ==> c.closed == Yes && c.pending == {})
    && (c.closing == Closed ==> c.closed == Yes)
    && (c.reader == Absent && c.stepped == Yes ==> c.closed == Yes && c.pending == {})
    && (c.reader == Unstarted ==> c.stepped == No)
    && (c.reader == Created ==> c.stepped == No)
    && (c.closed == Yes && c.closing != Closed ==> c.reader == Ended)
  }

  ghost predicate Inv(c: Client) {
    TablesInv(c) && ReaderInv(c)
  }

  lemma RequestKeeps(c: Client, sends: Flag)
    requires Inv(c)
    ensures Inv(DoRequest(c, sends))
  {
    if c.closed == No {
      if sends == Yes {} else {}
    }
  }

  lemma ReplyKeeps(c: Client, reply: ReplyId, isError: Flag)
    requires Inv(c) && c.reader == Running
    ensures Inv(DoReply(c, reply, isError))
  {
    if TableKey(reply).Some? && TableKey(reply).value in c.pending {
      if c.futures[TableKey(reply).value] != Pending {} else {}
    }
  }

  lemma StepKeeps(c: Client, e: Event)
    requires Inv(c) && Enabled(c, e)
    ensures Inv(Apply(c, e))
  {
    match e
    case Request(sends) => RequestKeeps(c, sends);
    case DrainDone(_) =>
    case DrainFails(_) =>
    case CancelAwait(_) =>
    case Leave(_) =>
    case ReaderStarts =>
    case Reply(reply, isError) => ReplyKeeps(c, reply, isError);
    case ReaderEnds =>
    case CloseBegins =>
    case CloseDone =>
  }

  lemma {:induction false} RunKeeps(c: Client, events: seq<Event>, c': Client)
    requires Inv(c) && Run(c, events, c')
    ensures Inv(c')
    decreases |events|
  {
    if events != [] {
      StepKeeps(c, events[0]);
      RunKeeps(Apply(c, events[0]), events[1..], c');
    }
  }

  lemma NewIsSafe()
    ensures Inv(New())
  {
  }
}
