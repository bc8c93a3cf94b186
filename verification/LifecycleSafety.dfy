/** Safety of the subprocess client over every run. */
module LifecycleSafety {
  import opened Options
  import opened RetirementRecord
  import opened RetirementInvariant
  import opened WrapperState
  import opened Lifecycle
  import opened LifecycleInvariant
  import opened LifecycleOutside
  import opened LifecycleRecords
  import opened LifecycleStart
  import opened LifecycleStop

  predicate IsSpawnEvent(ev: Event) {
    ev.RetireTerminal? || ev.Admit? || ev.SpawnResume?
  }

  predicate IsPhaseEvent(ev: Event) {
    ev.BeginPhase? || ev.PhaseResume? || ev.PhasesDone?
  }

  predicate IsEndOfStart(ev: Event) {
    ev.StartClaim? || ev.StartClaimed? || ev.Finalize? || ev.TailClaim? || ev.StartEnd? || ev.CancelStart?
  }

  predicate IsStopEvent(ev: Event) {
    || ev.StopCall? || ev.StopDetach? || ev.StopWaited? || ev.StopMark? || ev.StopReap?
    || ev.StopCheck? || ev.StopJoin? || ev.StopOps? || ev.StopFinish? || ev.StopFail?
  }

  /** Steps of the retire task itself and of the list it is kept in. */
  predicate IsRetireEvent(ev: Event) {
    ev.Retire? || ev.RetireFails? || ev.LateSpawn? || ev.Remove?
  }

  /** Callbacks of tasks a record retains. */
  predicate IsSettling(ev: Event) {
    ev.RetiredSettles? || ev.ShutdownSettles? || ev.CloseSettles? || ev.WaitSettles?
  }

  predicate IsRecordEvent(ev: Event) {
    IsRetireEvent(ev) || IsSettling(ev)
  }

  predicate IsOperationEvent(ev: Event) {
    ev.Register? || ev.Unregister? || ev.ReleaseOp? || ev.OpDone?
  }

  lemma SpawnStepKeeps(s: State, ev: Event)
    requires Inv(s) && Enabled(s, ev) && IsSpawnEvent(ev)
    ensures Inv(Apply(s, ev))
  {
    match ev
    case RetireTerminal => RetireTerminalKeeps(s);
    case Admit(op) => AdmitKeeps(s, op);
    case SpawnResume(timeout) => SpawnResumeKeeps(s);
  }

  lemma PhaseStepKeeps(s: State, ev: Event)
    requires Inv(s) && Enabled(s, ev) && IsPhaseEvent(ev)
    ensures Inv(Apply(s, ev))
  {
    match ev
    case BeginPhase => BeginPhaseKeeps(s);
    case PhaseResume(timeout, ok) => PhaseResumeKeeps(s, ok);
    case PhasesDone => StartMoves(s, s.start.(pc := Finalizing));
  }

  lemma EndOfStartKeeps(s: State, ev: Event)
    requires Inv(s) && Enabled(s, ev) && IsEndOfStart(ev)
    ensures Inv(Apply(s, ev))
  {
    match ev
    case StartClaim => StartClaimKeeps(s);
    case StartClaimed => StartMoves(s, s.start.(pc := Finalizing));
    case Finalize => FinalizeKeeps(s);
    case TailClaim => TailClaimKeeps(s);
    case StartEnd => StartEndKeeps(s);
    case CancelStart => CancelStartKeeps(s);
  }

  predicate IsStopStart(ev: Event) {
    ev.StopCall? || ev.StopWaited? || ev.StopMark?
  }

  predicate IsStopEnd(ev: Event) {
    ev.StopCheck? || ev.StopFinish? || ev.StopFail?
  }

  lemma StopStartKeeps(s: State, ev: Event)
    requires Inv(s) && Enabled(s, ev) && IsStopStart(ev)
    ensures Inv(Apply(s, ev))
  {
    match ev
    case StopCall => StopCallKeeps(s);
    case StopWaited(observed) => StopWaitedKeeps(s, observed);
    case StopMark => StopMarkKeeps(s);
  }

  lemma StopEndKeeps(s: State, ev: Event)
    requires Inv(s) && Enabled(s, ev) && IsStopEnd(ev)
    ensures Inv(Apply(s, ev))
  {
    match ev
    case StopCheck => StopMoves(s, Attempt(ObserveOps(Flagged(s.w.uncertainGen.None?))), s.stale);
    case StopFinish => StopFinishKeeps(s);
    case StopFail => StopMoves(s, Attempt(Finishing(No)), s.stale);
  }

  lemma StopWorkKeeps(s: State, ev: Event)
    requires Inv(s) && Enabled(s, ev) && IsStopEvent(ev) && !IsStopStart(ev) && !IsStopEnd(ev)
    ensures Inv(Apply(s, ev))
  {
    match ev
    case StopDetach(caller) => StopDetachKeeps(s, caller);
    case StopReap => StopReapKeeps(s);
    case StopJoin(complete) => StopJoinKeeps(s, complete);
    case StopOps => StopOpsKeeps(s);
  }

  lemma StopEventKeeps(s: State, ev: Event)
    requires Inv(s) && Enabled(s, ev) && IsStopEvent(ev)
    ensures Inv(Apply(s, ev))
  {
    if IsStopStart(ev) {
      StopStartKeeps(s, ev);
    } else if IsStopEnd(ev) {
      StopEndKeeps(s, ev);
    } else {
      StopWorkKeeps(s, ev);
    }
  }

  lemma StartEventKeeps(s: State, ev: Event)
    requires Inv(s) && Enabled(s, ev) && (IsSpawnEvent(ev) || IsPhaseEvent(ev) || IsEndOfStart(ev))
    ensures Inv(Apply(s, ev))
  {
    if IsSpawnEvent(ev) {
      SpawnStepKeeps(s, ev);
    } else if IsPhaseEvent(ev) {
      PhaseStepKeeps(s, ev);
    } else {
      EndOfStartKeeps(s, ev);
    }
  }

  lemma RetireEventKeeps(s: State, ev: Event)
    requires Inv(s) && Enabled(s, ev) && IsRetireEvent(ev)
    ensures Inv(Apply(s, ev))
  {
    match ev
    case Retire(i) => RetireKeeps(s, i);
    case RetireFails(i) => RetireFailsKeeps(s, i);
    case LateSpawn(i) => RerunKeeps(s, i);
    case Remove(i) => RemoveKeeps(s, i);
  }

  lemma SettlingKeeps(s: State, ev: Event)
    requires Inv(s) && Enabled(s, ev) && IsSettling(ev)
    ensures Inv(Apply(s, ev))
  {
    match ev
    case RetiredSettles(i, t) => RetiredSettlesKeeps(s, i, t);
    case ShutdownSettles(i, ok) => ShutdownSettlesKeeps(s, i, ok);
    case CloseSettles(i, ok) => CloseSettlesKeeps(s, i, ok);
    case WaitSettles(i, code) => WaitSettlesKeeps(s, i, code);
  }

  lemma RecordEventKeeps(s: State, ev: Event)
    requires Inv(s) && Enabled(s, ev) && IsRecordEvent(ev)
    ensures Inv(Apply(s, ev))
  {
    if IsRetireEvent(ev) { RetireEventKeeps(s, ev); } else { SettlingKeeps(s, ev); }
  }

  lemma OperationEventKeeps(s: State, ev: Event)
    requires Inv(s) && Enabled(s, ev) && IsOperationEvent(ev)
    ensures Inv(Apply(s, ev))
  {
    match ev
    case Register(op) => RegisterKeeps(s, op);
    case Unregister(op) => UnregisterKeeps(s, op);
    case ReleaseOp(op) => ReleaseOpKeeps(s, op);
    case OpDone(op) => OpDoneKeeps(s, op);
  }

  lemma OutsideEventKeeps(s: State, ev: Event)
    requires Inv(s) && Enabled(s, ev)
    requires !IsSpawnEvent(ev) && !IsPhaseEvent(ev) && !IsEndOfStart(ev) && !IsStopEvent(ev) && !IsRecordEvent(ev) && !IsOperationEvent(ev)
    ensures Inv(Apply(s, ev))
  {
    match ev
    case LiveSettles(t) => LiveSettlesKeeps(s, t);
    case SpawnDone(t, created, pipes) => SpawnDoneKeeps(s, t, created, pipes);
    case StartupDone(t) => StartupDoneKeeps(s, t);
    case ProcessExits(p) => ProcessExitsKeeps(s, p);
    case ReturncodePublished(p) => ReturncodeKeeps(s, p);
    case ClientFails(c) => ClientFailsKeeps(s, c);
  }

  /** Every enabled event keeps the invariant. */
  lemma StepKeeps(s: State, ev: Event)
    requires Inv(s) && Enabled(s, ev)
    ensures Inv(Apply(s, ev))
  {
    if IsSpawnEvent(ev) || IsPhaseEvent(ev) || IsEndOfStart(ev) {
      StartEventKeeps(s, ev);
    } else if IsStopEvent(ev) {
      StopEventKeeps(s, ev);
    } else if IsRecordEvent(ev) {
      RecordEventKeeps(s, ev);
    } else if IsOperationEvent(ev) {
      OperationEventKeeps(s, ev);
    } else {
      OutsideEventKeeps(s, ev);
    }
  }

  lemma {:induction false} RunKeeps(events: seq<Event>)
    requires Run(events).Some?
    ensures Inv(Run(events).value)
    decreases |events|
  {
    if events == [] {
      InitialInv();
    } else {
      var last := |events| - 1;
      RunKeeps(events[..last]);
      StepKeeps(Run(events[..last]).value, events[last]);
    }
  }

  // ----- ownership and exclusion -----

  /**
    In every reachable state each unsettled spawn, and each created process no retained
    wait has proved exited, is owned by the live spawn slot, the published pair, the start
    in flight or a listed retirement record.  A process that still runs is never reaped.
   */
  lemma EveryChildIsOwned(events: seq<Event>, t: TaskId)
    requires Run(events).Some?
    ensures var s := Run(events).value;
      && (t in s.env.spawnTasks && t !in s.env.done ==> s.w.spawnSlot == Some(t) || HoldsSpawn(s.w.recs, t))
      && (t in s.env.results && s.env.results[t] !in s.env.reaped ==>
            s.w.spawnSlot == Some(t) || HoldsSpawn(s.w.recs, t) || OwnsProcess(s, s.env.results[t]))
      && s.env.reaped <= s.env.exited
  {
    RunKeeps(events);
    var s := Run(events).value;
    if Live(s.env, t) { assert Owned(s, t); }
  }

  /** Two children never coexist, however late spawns finish and whatever ignores cancellation. */
  lemma NeverTwoChildren(events: seq<Event>, t: TaskId, u: TaskId)
    requires Run(events).Some?
    requires Live(Run(events).value.env, t) && Live(Run(events).value.env, u)
    ensures t == u
  {
    RunKeeps(events);
  }

  /** A start is admitted only when no child exists and nothing could still hold one. */
  lemma AdmissionIsExclusive(events: seq<Event>, op: OpId)
    requires Run(events).Some? && Enabled(Run(events).value, Admit(op))
    ensures var s := Run(events).value;
      && NoChild(s.env) && NoneListed(s.w.recs)
      && Unpublished(s.w) && s.w.spawnSlot.None? && s.start.NoStart? && s.w.retiring == {}
  {
    RunKeeps(events);
    AdmitKeeps(Run(events).value, op);
  }

  // ----- one-shot retirement -----

  /** Over any number of retries a record acts at most once of each kind, and kills only after TERM. */
  lemma RetirementActsOnce(events: seq<Event>, i: nat)
    requires Run(events).Some? && i < |Run(events).value.w.recs|
    ensures Once(Run(events).value.w.recs[i].log)
    ensures KillAfterTerminate(Run(events).value.w.recs[i].log)
  {
    RunKeeps(events);
    assert RecordInv(Run(events).value.w.recs[i], Run(events).value.env);
  }

  /**
    A record leaves the list only with its close done, every task it ever held settled, and its
    process reaped: the one it was handed as well as any that one of its spawn tasks delivered.
   */
  lemma RemovedMeansReaped(events: seq<Event>, i: nat)
    requires Run(events).Some? && i < |Run(events).value.w.recs| && Run(events).value.w.recs[i].listed == No
    ensures var s := Run(events).value; var r := s.w.recs[i];
      && r.spawnTask.None? && r.spawnHeld <= s.env.done && r.attached <= s.env.done
      && (forall t :: t in r.spawnHeld && t in s.env.results ==> s.env.results[t] in s.env.reaped)
      && (r.process.Some? ==> r.process.value in s.env.reaped)
      && (Close in r.log ==> r.closeOutcome == Some(Yes) && r.shutdownOutcome.Some?)
  {
    RunKeeps(events);
    assert RecordInv(Run(events).value.w.recs[i], Run(events).value.env);
  }

  /** Across the handoff from live to retired ownership no task is cancelled twice. */
  lemma TasksAreCancelledOnce(events: seq<Event>, t: TaskId, o: OpId)
    requires Run(events).Some?
    ensures Run(events).value.env.cancels[t] <= 1
    ensures Run(events).value.opCancels[o] <= 1
  {
    RunKeeps(events);
    var s := Run(events).value;
    if t in s.env.cancels {}
    if o in s.opCancels {}
  }
}
