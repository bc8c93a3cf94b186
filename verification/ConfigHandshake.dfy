/**
  The configuration handshake between the host wrapper, its inner client and the isolated
  service.  One lifecycle operation runs at a time (`_lifecycle_lock`); stop() and the end of
  the stream may interrupt it at every suspension point.
 */
module ConfigHandshake {
  import opened Options

  /** A configuration object; 0 is the empty object. */
  type Config = nat

  /** What the service's transition hook does. */
  datatype Hook = Fails | ReturnsInvalid | ReturnsRestart | ReturnsApplied

  datatype Reply = Refused | Restart | Applied | Malformed

  /** IsolatedFeatureService, as far as configuration goes. */
  datatype Service = Service(
    hostConfig: Config,
    restartRequired: Flag,
    capability: Option<Flag>        // advertised transitions; Some(Yes): live apply too
  )

  /** IsolatedFeatureClient, as far as configuration goes. */
  datatype Client = Client(
    restartRequired: Flag,
    ready: Flag,
    closed: Flag,
    shutdownStarted: Flag,
    capability: Option<Flag>,       // as negotiated by initialize
    cause: Option<Config>           // history: the next config of the transition that fenced it
  )

  /** A child: both endpoints and the transition traffic between them. */
  datatype Child = Child(
    client: Client,
    service: Service,
    requests: seq<Config>,
    replies: seq<Reply>
  )

  datatype Pending = Pending(previous: Option<Config>, next: Config)

  /** The lifecycle operation that holds the wrapper's lock. */
  datatype Op =
    | Idle
    | Starting(initialized: Flag)
    | Snapshot(next: Config, fenced: Flag)
    | Calling(next: Config, pending: Option<Pending>)
    | Waiting(next: Config, pending: Option<Pending>)
    | Finishing(pending: Option<Pending>, retain: Flag)

  datatype State = State(
    config: Option<Config>,
    pending: Option<Pending>,
    published: Option<Child>,
    detached: Option<Child>,        // a child stop() took away from the running operation
    op: Op
  )

  datatype Event =
    | Spawn | Initialize | StartReturns | StartFails
    | Begin(next: Config) | RegisterPending | Call | Arrive(reply: Reply) | Cancel | StreamFails | Finish
    | Serve(hook: Hook) | Deliver | Readvertise(capability: Option<Flag>) | HealthReply(ready: Flag)
    | CloseStarts | StreamEnds | Stop

  const NewService := Service(0, No, None)
  const NewClient := Client(No, No, No, No, None, None)

  /** The child the running operation talks to. */
  function OpChild(s: State): Option<Child> {
    if s.detached.Some? then s.detached else s.published
  }

  function SetOpChild(s: State, c: Child): State {
    if s.detached.Some? then s.(detached := Some(c)) else s.(published := Some(c))
  }

  function Effective(config: Option<Config>): Config {
    if config.Some? then config.value else 0
  }

  /** on_initialize: a missing config leaves the service's empty default. */
  function OnInitialize(service: Service, config: Option<Config>): Service {
    if config.Some? then service.(hostConfig := config.value) else service
  }

  /** The CONFIG_TRANSITION branch of _dispatch, and the frame _handle_request sends for it. */
  function Dispatch(service: Service, next: Config, hook: Hook): (Service, Reply) {
    if service.restartRequired == Yes || service.capability.None? then (service, Refused)
    else match hook
      case Fails => (service, Refused)
      case ReturnsInvalid => (service, Refused)
      case ReturnsRestart => (service.(restartRequired := Yes), Restart)
      case ReturnsApplied =>
        if service.capability == Some(Yes) then (service.(hostConfig := next), Applied) else (service, Refused)
  }

  /** _mark_restart_required. */
  function Fence(client: Client, next: Config): Client {
    client.(restartRequired := Yes, ready := No, cause := Some(next))
  }

  /** The client side checks before a transition request is written. */
  predicate RefusedLocally(client: Client) {
    client.capability.None? || client.shutdownStarted == Yes || client.restartRequired == Yes
  }

  /**
    The end of prepare_config_transition once a reply arrived.  An error reply is a refusal by
    the service only while the stream is open; on a closed one it may be the terminal error.
   */
  function Receive(client: Client, next: Config, reply: Reply): Client {
    match reply
    case Refused => if client.closed == Yes then Fence(client, next) else client
    case Restart => Fence(client, next)
    case Applied => if client.capability == Some(Yes) then client else Fence(client, next)
    case Malformed => Fence(client, next)
  }

  predicate Succeeds(client: Client, reply: Reply) {
    reply == Restart || (reply == Applied && client.capability == Some(Yes))
  }

  /** Does the wrapper keep the next config when the inner call has ended? */
  function Retains(client: Client, pending: Option<Pending>): Flag {
    if pending.Some? && client.restartRequired == Yes then Yes else No
  }

  predicate Enabled(s: State, ev: Event) {
    match ev
    case Spawn => s.op.Idle? && s.published.None? && s.detached.None?
    case Initialize => s.op == Starting(No) && s.published.Some?
    case StartReturns => s.op == Starting(Yes) && s.published.Some?
    case StartFails => s.op.Starting?
    case Begin(next) => s.op.Idle? && s.published.Some? && s.detached.None?
    case RegisterPending => s.op.Snapshot? && OpChild(s).Some?
    case Call => s.op.Calling? && OpChild(s).Some?
    case Arrive(reply) => s.op.Waiting? && OpChild(s).Some?
                          && OpChild(s).value.replies != [] && (reply == Malformed || OpChild(s).value.replies[0] == reply)
    case Cancel => (s.op.Snapshot? || s.op.Calling? || s.op.Waiting?) && OpChild(s).Some?
    case StreamFails => s.op.Waiting? && OpChild(s).Some?
    case Finish => s.op.Finishing?
    case Serve(hook) => OpChild(s).Some? && OpChild(s).value.requests != []
    case Deliver => OpChild(s).Some? && OpChild(s).value.replies != [] && !s.op.Waiting?
    case Readvertise(capability) => s.published.Some?
    case HealthReply(ready) => s.published.Some?
    case CloseStarts => OpChild(s).Some?
    case StreamEnds => OpChild(s).Some?
    case Stop => true
  }

  /** The operation's inner call has ended; the finalizer is queued. */
  function EndCall(s: State, child: Child, pending: Option<Pending>, retain: Flag): State {
    SetOpChild(s, child).(op := Finishing(pending, retain))
  }

  function DoCall(s: State, child: Child): State
    requires s.op.Calling?
  {
    if RefusedLocally(child.client) then EndCall(s, child, s.op.pending, Retains(child.client, s.op.pending))
    else if child.client.closed == Yes then
      EndCall(s, child.(client := Fence(child.client, s.op.next)), s.op.pending, if s.op.pending.Some? then Yes else No)
    else
      SetOpChild(s, child.(requests := child.requests + [s.op.next])).(op := Waiting(s.op.next, s.op.pending))
  }

  function DoArrive(s: State, child: Child, reply: Reply): State
    requires s.op.Waiting? && child.replies != []
  {
    var client := Receive(child.client, s.op.next, reply);
    var retain := if s.op.pending.None? then No
                  else if Succeeds(child.client, reply) then Yes
                  else Retains(client, s.op.pending);
    EndCall(s, child.(client := client, replies := child.replies[1..]), s.op.pending, retain)
  }

  /** Cancellation, or a transport failure, while the request may be on the wire. */
  function DoInterrupt(s: State, child: Child): State
    requires s.op.Waiting?
  {
    EndCall(s, child.(client := Fence(child.client, s.op.next)), s.op.pending, if s.op.pending.Some? then Yes else No)
  }

  function DoCancel(s: State, child: Child): State
    requires s.op.Snapshot? || s.op.Calling? || s.op.Waiting?
  {
    if s.op.Snapshot? then s.(op := Idle, detached := None)
    else if s.op.Calling? then EndCall(s, child, s.op.pending, Retains(child.client, s.op.pending))
    else DoInterrupt(s, child)
  }

  /** Publish the handoff unless the child was taken away or already needs replacement. */
  function DoRegister(s: State): State
    requires s.op.Snapshot?
  {
    if s.op.fenced == Yes then s.(op := Calling(s.op.next, None))
    else if s.detached.Some? then s.(op := Idle, detached := None)
    else
      var p := Pending(s.config, s.op.next);
      s.(pending := Some(p), op := Calling(s.op.next, Some(p)))
  }

  /** _finish_transition: only the transition that still owns the handoff changes the config. */
  function DoFinish(s: State): State
    requires s.op.Finishing?
  {
    var s1 := s.(op := Idle, detached := None);
    if s.op.pending.Some? && s.pending == s.op.pending then
      s1.(pending := None, config := if s.op.retain == Yes then Some(s.op.pending.value.next) else s.op.pending.value.previous)
    else s1
  }

  /** The detaching section of a stop attempt. */
  function DoStop(s: State): State {
    var s1 := if s.pending.Some? then s.(config := Some(s.pending.value.next), pending := None) else s;
    var s2 := s1.(published := None);
    if s.op.Idle? || s.op.Starting? then s2.(op := Idle)
    else if s.detached.Some? then s2
    else s2.(detached := s.published)
  }

  function Apply(s: State, ev: Event): State
    requires Enabled(s, ev)
  {
    match ev
    case Spawn => s.(published := Some(Child(NewClient, NewService, [], [])), op := Starting(No))
    case Initialize =>
      var c := s.published.value;
      s.(published := Some(c.(service := OnInitialize(c.service, s.config),
                              client := c.client.(capability := c.service.capability))),
         op := Starting(Yes))
    case StartReturns =>
      var c := s.published.value;
      s.(published := Some(c.(client := c.client.(ready := Yes))), op := Idle)
    case StartFails => s.(published := None, op := Idle)
    case Begin(next) => s.(op := Snapshot(next, s.published.value.client.restartRequired))
    case RegisterPending => DoRegister(s)
    case Call => DoCall(s, OpChild(s).value)
    case Arrive(reply) => DoArrive(s, OpChild(s).value, reply)
    case Cancel => DoCancel(s, OpChild(s).value)
    case StreamFails => DoInterrupt(s, OpChild(s).value)
    case Finish => DoFinish(s)
    case Serve(hook) =>
      var c := OpChild(s).value;
      var (service, reply) := Dispatch(c.service, c.requests[0], hook);
      SetOpChild(s, c.(service := service, requests := c.requests[1..], replies := c.replies + [reply]))
    case Deliver =>
      var c := OpChild(s).value;
      SetOpChild(s, c.(replies := c.replies[1..]))
    case Readvertise(capability) =>
      var c := s.published.value;
      s.(published := Some(c.(service := c.service.(capability := capability))))
    case HealthReply(ready) =>
      var c := s.published.value;
      s.(published := Some(c.(client := c.client.(ready := if c.client.restartRequired == Yes then No else ready))))
    case CloseStarts =>
      var c := OpChild(s).value;
      SetOpChild(s, c.(client := c.client.(shutdownStarted := Yes)))
    case StreamEnds =>
      var c := OpChild(s).value;
      SetOpChild(s, c.(client := c.client.(closed := Yes)))
    case Stop => DoStop(s)
  }

  const Initial := State(None, None, None, None, Idle)

  /** The state after a whole run from a configured wrapper, or nothing if some event was not enabled. */
  function Run(config: Option<Config>, events: seq<Event>): Option<State>
    decreases |events|
  {
    if events == [] then Some(Initial.(config := config))
    else
      var last := |events| - 1;
      match Run(config, events[..last])
      case None => None
      case Some(s) => if Enabled(s, events[last]) then Some(Apply(s, events[last])) else None
  }
}
