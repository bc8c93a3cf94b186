/** Host and service agree on the effective configuration, or the child is fenced. */
module ConfigAgreement {
  import opened Options
  import opened ConfigHandshake

  /** The service runs the wrapper's configuration and accepts work. */
  predicate Agrees(c: Child, config: Option<Config>) {
    c.service.restartRequired == No && c.service.hostConfig == Effective(config)
  }

  predicate Quiescent(c: Child) {
    c.requests == [] && c.replies == []
  }

  predicate Fenced(c: Child) {
    c.client.restartRequired == Yes
  }

  predicate IdleChild(c: Child, config: Option<Config>) {
    if Fenced(c) then config.Some? && c.client.cause == config
    else Quiescent(c) && Agrees(c, config)
  }

  /** One request is on the wire, or its answer is. */
  predicate InTransition(c: Child, config: Option<Config>, next: Config) {
    && !Fenced(c)
    && (|| (c.requests == [next] && c.replies == [] && Agrees(c, config))
        || (c.requests == [] && |c.replies| == 1 &&
            match c.replies[0]
            case Refused => Agrees(c, config)
            case Restart => c.service.restartRequired == Yes
            case Applied => Agrees(c, Some(next))
            case Malformed => false))
  }

  predicate EndedTransition(c: Child, p: Pending, retain: Flag) {
    if Fenced(c) then retain == Yes && c.client.cause == Some(p.next)
    else Quiescent(c) && Agrees(c, if retain == Yes then Some(p.next) else p.previous)
  }

  predicate NeverReadyFenced(c: Option<Child>) {
    c.Some? && Fenced(c.value) ==> c.value.client.ready == No
  }

  /** The published child, seen from the running operation. */
  predicate PublishedInv(s: State, c: Child) {
    match s.op
    case Idle => s.pending.None? && IdleChild(c, s.config)
    case Starting(initialized) =>
      && s.pending.None? && !Fenced(c) && Quiescent(c) && c.service.restartRequired == No
      && c.service.hostConfig == if initialized == Yes then Effective(s.config) else 0
    case Snapshot(next, fenced) => s.pending.None? && IdleChild(c, s.config) && fenced == c.client.restartRequired
    case Calling(next, pending) =>
      && s.pending == pending && IdleChild(c, s.config)
      && (if pending.Some? then !Fenced(c) && pending.value == Pending(s.config, next) else Fenced(c))
    case Waiting(next, pending) =>
      pending == Some(Pending(s.config, next)) && s.pending == pending && InTransition(c, s.config, next)
    case Finishing(pending, retain) =>
      && s.pending == pending
      && (if pending.Some? then pending.value.previous == s.config && EndedTransition(c, pending.value, retain)
          else Fenced(c) && IdleChild(c, s.config))
  }

  predicate Inv(s: State) {
    && NeverReadyFenced(s.published) && NeverReadyFenced(s.detached)
    && (s.detached.Some? ==> s.published.None? && s.pending.None? && !s.op.Idle? && !s.op.Starting?)
    && (s.published.None? ==> s.pending.None? && (s.op.Idle? || s.detached.Some?))
    && (s.published.Some? ==> PublishedInv(s, s.published.value))
  }

  lemma ServeKeeps(s: State, hook: Hook)
    requires Inv(s) && Enabled(s, Serve(hook))
    ensures Inv(Apply(s, Serve(hook)))
  {
    if s.detached.None? {
      var c := s.published.value;
      assert s.op.Waiting? ==> c.requests == [s.op.next];
      assert Fenced(c) || s.op.Waiting?;
    }
  }

  /** Every enabled event keeps the agreement invariant. */
  lemma StepKeeps(s: State, ev: Event)
    requires Inv(s) && Enabled(s, ev)
    ensures Inv(Apply(s, ev))
  {
    match ev
    case Serve(hook) => ServeKeeps(s, hook);
    case Call => if RefusedLocally(OpChild(s).value.client) {} else if OpChild(s).value.client.closed == Yes {} else {}
    case Arrive(reply) =>
      var c := OpChild(s).value;
      if Succeeds(c.client, reply) {} else {}
      match reply { case Refused => if c.client.closed == Yes {} else {} case Restart => case Applied => case Malformed => }
    case Cancel => if s.op.Snapshot? {} else if s.op.Calling? {} else {}
    case RegisterPending => if s.op.fenced == Yes {} else {}
    case Finish => if s.op.pending.Some? && s.pending == s.op.pending {} else {}
    case _ =>
  }

  lemma {:induction false} RunKeeps(config: Option<Config>, events: seq<Event>)
    requires Run(config, events).Some?
    ensures Inv(Run(config, events).value)
    decreases |events|
  {
    if events != [] {
      var last := |events| - 1;
      RunKeeps(config, events[..last]);
      StepKeeps(Run(config, events[..last]).value, events[last]);
    }
  }

  /**
    Over all interleavings of transitions, refusals, cancellations, stream ends and stops:
    a published child with no lifecycle operation in flight either is fenced, and then the
    wrapper keeps the next configuration of the very transition that fenced it, or runs
    exactly the wrapper's configuration with a service that is not awaiting restart.
   */
  lemma IdleChildAgreesOrIsFenced(config: Option<Config>, events: seq<Event>)
    requires Run(config, events).Some?
    requires Run(config, events).value.op.Idle? && Run(config, events).value.published.Some?
    ensures var s := Run(config, events).value; var c := s.published.value;
      if Fenced(c) then s.config.Some? && s.config == c.client.cause
      else c.service.hostConfig == Effective(s.config) && c.service.restartRequired == No
  {
    RunKeeps(config, events);
  }

  /** The child an operation or the public surface knows, before and after a step. */
  predicate SameChild(s: State, ev: Event) {
    !ev.Spawn? && !(s.op.Starting? && (ev.Stop? || ev.StartFails?)) && !(s.op.Idle? && ev.Stop?)
    && !(s.detached.Some? && (ev.Finish? || ((ev.RegisterPending? || ev.Cancel?) && s.op.Snapshot?)))
  }

  /** A fence is for ever: the fenced child is never ready again, whatever replies still arrive. */
  lemma FenceIsForever(s: State, ev: Event)
    requires Inv(s) && Enabled(s, ev) && SameChild(s, ev)
    requires OpChild(s).Some? && Fenced(OpChild(s).value)
    ensures var s' := Apply(s, ev);
      OpChild(s').Some? && Fenced(OpChild(s').value) && OpChild(s').value.client.ready == No
  {
    StepKeeps(s, ev);
    match ev
    case Cancel => if s.op.Snapshot? {} else if s.op.Calling? {} else {}
    case RegisterPending => if s.op.fenced == Yes {} else {}
    case _ =>
  }

  /** The state after a run that never replaces the child, or nothing when it does or a step is not enabled. */
  function AfterWithChild(s: State, events: seq<Event>): Option<State>
    decreases |events|
  {
    if events == [] then Some(s)
    else if Enabled(s, events[0]) && SameChild(s, events[0]) then AfterWithChild(Apply(s, events[0]), events[1..])
    else None
  }

  /** Over any run with the same child a fenced client is never ready again. */
  lemma FencedChildNeverReady(config: Option<Config>, before: seq<Event>, events: seq<Event>)
    requires Run(config, before).Some? && OpChild(Run(config, before).value).Some? && Fenced(OpChild(Run(config, before).value).value)
    requires AfterWithChild(Run(config, before).value, events).Some?
    ensures var child := OpChild(AfterWithChild(Run(config, before).value, events).value);
            child.Some? && Fenced(child.value) && child.value.client.ready == No
  {
    RunKeeps(config, before);
    FencedRun(Run(config, before).value, events);
  }

  lemma {:induction false} FencedRun(s: State, events: seq<Event>)
    requires Inv(s) && OpChild(s).Some? && Fenced(OpChild(s).value) && AfterWithChild(s, events).Some?
    ensures var child := OpChild(AfterWithChild(s, events).value);
            child.Some? && Fenced(child.value) && child.value.client.ready == No
    decreases |events|
  {
    if events != [] {
      StepKeeps(s, events[0]);
      FenceIsForever(s, events[0]);
      FencedRun(Apply(s, events[0]), events[1..]);
    }
  }

  /** stop() leaves the configuration the replacement needs, whatever it interrupts. */
  lemma StopKeepsRequestedConfig(s: State)
    requires Inv(s)
    ensures var s' := Apply(s, Stop);
      && s'.published.None? && s'.pending.None?
      && (s.pending.Some? ==> s'.config == Some(s.pending.value.next))
      && (s.pending.None? ==> s'.config == s.config)
      && (s.published.Some? && Fenced(s.published.value) ==> s'.config == s.published.value.client.cause)
  {
  }

  lemma RunSnoc(config: Option<Config>, events: seq<Event>, ev: Event)
    requires Run(config, events).Some? && Enabled(Run(config, events).value, ev)
    ensures Run(config, events + [ev]) == Some(Apply(Run(config, events).value, ev))
  {
    assert (events + [ev])[..|events|] == events;
  }

  /** Replacing a fenced child brings up a service on the configuration of the fencing transition. */
  lemma ReplacementRunsFencingConfig(config: Option<Config>, events: seq<Event>)
    requires Run(config, events).Some?
    requires var s := Run(config, events).value; s.op.Idle? && s.published.Some? && Fenced(s.published.value)
    ensures var s := Run(config, events).value;
            var replaced := Run(config, events + [Stop] + [Spawn] + [Initialize] + [StartReturns]);
      && replaced.Some? && replaced.value.op.Idle? && replaced.value.published.Some?
      && !Fenced(replaced.value.published.value)
      && Some(replaced.value.published.value.service.hostConfig) == s.published.value.client.cause
  {
    RunKeeps(config, events);
    RunSnoc(config, events, Stop);
    RunSnoc(config, events + [Stop], Spawn);
    RunSnoc(config, events + [Stop] + [Spawn], Initialize);
    RunSnoc(config, events + [Stop] + [Spawn] + [Initialize], StartReturns);
  }
}
