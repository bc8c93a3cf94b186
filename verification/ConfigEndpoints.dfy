/**
  The objects on both ends of a configuration transition, updated field by field, and proved
  to make the updates the handshake uses.
 */
module ConfigEndpoints {
  import opened Options
  import opened ConfigHandshake

  class IsolatedFeatureService {
    var hostConfig: Config
    var restartRequired: Flag
    var capability: Option<Flag>

    ghost function View(): Service
      reads this
    {
      Service(hostConfig, restartRequired, capability)
    }

    /** The CONFIG_TRANSITION branch; a parameter that is not an object is refused. */
    method DispatchConfigTransition(next: Option<Config>, hook: Hook) returns (reply: Reply)
      modifies this
      ensures next.Some? ==> (View(), reply) == Dispatch(old(View()), next.value, hook)
      ensures next.None? ==> View() == old(View()) && reply == Refused
    {
      if restartRequired == Yes || capability.None? || next.None? {
        return Refused;
      }
      match hook
      case Fails => reply := Refused;
      case ReturnsInvalid => reply := Refused;
      case ReturnsRestart =>
        restartRequired := Yes;
        reply := Restart;
      case ReturnsApplied =>
        if capability == Some(Yes) {
          hostConfig := next.value;
          reply := Applied;
        } else {
          reply := Refused;
        }
    }

    /** on_initialize, as far as configuration goes: the reply carries the capability of this moment. */
    method OnInitializeConfig(config: Option<Config>) returns (advertised: Option<Flag>)
      modifies this
      ensures View() == OnInitialize(old(View()), config)
      ensures config.None? ==> View() == old(View())
      ensures advertised == old(capability)
    {
      if config.Some? {
        hostConfig := config.value;
      }
      advertised := capability;
    }
  }

  class IsolatedFeatureClient {
    var restartRequired: Flag
    var ready: Flag
    var closed: Flag
    var shutdownStarted: Flag
    var capability: Option<Flag>
    ghost var cause: Option<Config>

    ghost function View(): Client
      reads this
    {
      Client(restartRequired, ready, closed, shutdownStarted, capability, cause)
    }

    method MarkRestartRequired(ghost next: Config)
      modifies this
      ensures View() == Fence(old(View()), next)
    {
      restartRequired := Yes;
      ready := No;
      cause := Some(next);
    }

    /**
      prepare_config_transition after the reply: fence on everything but a refusal on an open
      stream and an advertised apply.
     */
    method ReceiveTransition(ghost next: Config, reply: Reply) returns (returned: bool)
      modifies this
      ensures View() == Receive(old(View()), next, reply)
      ensures returned <==> Succeeds(old(View()), reply)
    {
      returned := false;
      if reply == Refused {
        if closed == Yes {
          MarkRestartRequired(next);
        }
        return;
      }
      if reply == Malformed || (reply == Applied && capability != Some(Yes)) {
        MarkRestartRequired(next);
        return;
      }
      if reply != Applied {
        MarkRestartRequired(next);
      }
      returned := true;
    }

    /** health(): a reply that raced with a fence does not revive readiness. */
    method ReceiveHealth(reported: Flag)
      modifies this
      ensures View() == old(View()).(ready := if old(restartRequired) == Yes then No else reported)
    {
      if restartRequired == Yes {
        ready := No;
      } else {
        ready := reported;
      }
    }
  }

  class ConfigOwner {
    var config: Option<Config>
    var pendingTransition: Option<Pending>

    /** _finish_transition. */
    method FinishTransition(pending: Option<Pending>, retainNext: Flag)
      modifies this
      ensures forall s: State ::
                (s.op == Finishing(pending, retainNext) && s.config == old(config) && s.pending == old(pendingTransition)) ==>
                DoFinish(s).config == config && DoFinish(s).pending == pendingTransition
    {
      if pending.Some? && pendingTransition == pending {
        config := if retainNext == Yes then Some(pending.value.next) else pending.value.previous;
        pendingTransition := None;
      }
    }

    /** The handoff of a stop attempt. */
    method TakeOverTransition()
      modifies this
      ensures forall s: State :: (s.config == old(config) && s.pending == old(pendingTransition)) ==>
                DoStop(s).config == config && DoStop(s).pending == pendingTransition
    {
      if pendingTransition.Some? {
        config := Some(pendingTransition.value.next);
        pendingTransition := None;
      }
    }
  }
}
