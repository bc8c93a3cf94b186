/** The one inductive invariant over all ownership handoffs of the subprocess client. */
module LifecycleInvariant {
  import opened Options
  import opened RetirementRecord
  import opened RetirementInvariant
  import opened WrapperState
  import opened Lifecycle

  // ----- ownership of children -----

  ghost predicate HoldsSpawn(recs: seq<Record>, t: TaskId) {
    exists i :: 0 <= i < |recs| && recs[i].listed == Yes && recs[i].spawnTask == Some(t)
  }

  ghost predicate HoldsProcess(recs: seq<Record>, p: ProcId) {
    exists i :: 0 <= i < |recs| && recs[i].listed == Yes && recs[i].process == Some(p)
  }

  /** Between taking the spawn result and the retirement claim only the start itself knows the process. */
  predicate StartHolds(st: Start, p: ProcId) {
    st.Start? && st.pc == Claiming && st.process == Some(p)
  }

  ghost predicate OwnsProcess(s: State, p: ProcId) {
    s.w.pubProcess == Some(p) || StartHolds(s.start, p) || HoldsProcess(s.w.recs, p)
  }

  /** A child (a spawn task or the process it produced) has an owner. */
  ghost predicate Owned(s: State, t: TaskId) {
    || s.w.spawnSlot == Some(t)
    || HoldsSpawn(s.w.recs, t)
    || (t in s.env.results && OwnsProcess(s, s.env.results[t]))
  }

  ghost predicate OwnInv(s: State) {
    forall t :: Live(s.env, t) ==> Owned(s, t)
  }

  ghost predicate AtMostOneChild(e: Env) {
    forall t, u :: Live(e, t) && Live(e, u) ==> t == u
  }

  ghost predicate NoChild(e: Env) {
    forall t :: !Live(e, t)
  }

  ghost predicate RecordsInv(recs: seq<Record>, e: Env) {
    forall i :: 0 <= i < |recs| ==> RecordInv(recs[i], e)
  }

  // ----- cancellation -----

  ghost predicate SlotMarks(w: Wrapper, e: Env) {
    && (w.spawnSlot.Some? ==> w.spawnSlot.value in e.spawnTasks)
    && (w.spawnSlot.Some? && w.spawnSlot.value !in e.done && w.spawnSlot.value in e.cancels ==> w.spawnSlotCancel == Yes)
    && (w.spawnSlot.None? ==> w.spawnSlotCancel == No)
  }

  ghost predicate LiveMarks(w: Wrapper, e: Env) {
    && (forall t :: t in w.live ==> t < e.nextTask && t !in e.spawnTasks)
    && (forall t :: t in w.live && t !in e.done && t in e.cancels ==> t in w.liveCancel)
  }

  ghost predicate RecordMarks(recs: seq<Record>, e: Env) {
    forall i :: 0 <= i < |recs| ==> MarkInv(recs[i], e)
  }

  /** No unsettled spawn has two holders. */
  ghost predicate SpawnExclusive(w: Wrapper, e: Env) {
    && (forall i :: 0 <= i < |w.recs| && w.spawnSlot.Some? && w.spawnSlot.value !in e.done ==>
          w.recs[i].spawnTask != w.spawnSlot)
    && (forall i, j :: 0 <= i < j < |w.recs| && w.recs[i].spawnTask.Some? && w.recs[i].spawnTask.value !in e.done ==>
          w.recs[j].spawnTask != w.recs[i].spawnTask)
  }

  /** No startup task has two holders. */
  ghost predicate StartupExclusive(w: Wrapper) {
    && (forall i :: 0 <= i < |w.recs| ==> w.recs[i].startupTasks !! w.live)
    && (forall i, j :: 0 <= i < j < |w.recs| ==> w.recs[i].startupTasks !! w.recs[j].startupTasks)
  }

  ghost predicate CancelCounts(e: Env) {
    forall t :: t in e.cancels ==> e.cancels[t] == 1 && t < e.nextTask
  }

  ghost predicate CancelInv(w: Wrapper, e: Env) {
    && CancelCounts(e) && SlotMarks(w, e) && LiveMarks(w, e) && RecordMarks(w.recs, e)
    && SpawnExclusive(w, e) && StartupExclusive(w)
  }

  // ----- the start slot -----

  predicate PairOf(e: Env, c: Option<ClientId>, p: Option<ProcId>) {
    c.Some? ==> p.Some? && c.value in e.clientProc && e.clientProc[c.value] == p.value
  }

  predicate Unpublished(w: Wrapper) {
    w.pubClient.None? && w.pubProcess.None?
  }

  /** The pair the start published is still public, or a stop detached it and cancelled the start. */
  predicate StillPublic(s: State)
    requires s.start.Start?
  {
    && s.start.client.Some? && s.start.process.Some?
    && (if Unpublished(s.w) then s.start.cancelled == Yes
        else s.w.pubClient == s.start.client && s.w.pubProcess == s.start.process)
  }

  predicate StartPhaseInv(s: State)
    requires s.start.Start?
  {
    var st := s.start;
    match st.pc
    case Spawning =>
      && st.spawn.Some? && st.spawn.value in s.env.spawnTasks
      && st.client.None? && st.process.None? && st.claimed == No
      && Unpublished(s.w)
      && (s.w.spawnSlot == st.spawn || (s.w.spawnSlot.None? && st.cancelled == Yes))
    case Phases =>
      s.w.spawnSlot.None? && st.spawn.None? && st.claimed == No && StillPublic(s)
    case Claiming =>
      && st.claimed == No
      && (s.w.spawnSlot.None? || s.w.spawnSlot == st.spawn)
      && (st.spawn.Some? ==> st.spawn.value in s.env.spawnTasks && st.client.None? && st.process.None?)
      && (Unpublished(s.w) || (st.client.Some? && s.w.pubClient == st.client && s.w.pubProcess == st.process))
      && (st.spawn.Some? || st.process.Some?)
    case Claimed => st.claimed == Yes && s.w.spawnSlot.None? && Unpublished(s.w)
    case Finalizing =>
      s.w.spawnSlot.None? && (if st.claimed == Yes then Unpublished(s.w) else StillPublic(s))
    case Tail =>
      s.w.spawnSlot.None? && (if st.claimed == Yes then Unpublished(s.w) else StillPublic(s))
  }

  predicate StartInv(s: State) {
    && (s.w.pubClient.Some? <==> s.w.pubProcess.Some?)
    && PairOf(s.env, s.w.pubClient, s.w.pubProcess)
    && (s.start.Start? ==>
          && PairOf(s.env, s.start.client, s.start.process)
          && (s.start.process.Some? ==> s.start.process.value < s.env.nextProc)
          && (s.start.spawn.Some? ==> s.start.process.None?)
          && StartPhaseInv(s))
    && (if InFlight(s.start) then
          && s.w.starting == Yes && s.w.startingGen == Some(s.start.gen) && s.w.startSettled == No
          && (s.w.uncertainGen.Some? ==> s.w.uncertainGen.value == s.start.gen)
        else
          && s.w.starting == No && s.w.startingGen.None? && s.w.startSettled == Yes
          && s.w.uncertainGen.None? && s.w.spawnSlot.None?)
  }

  // ----- operations -----

  ghost predicate OpsInv(s: State) {
    && s.w.active !! s.w.retiring
    && (forall o :: o in s.opCancels ==> s.opCancels[o] == 1 && o !in s.w.active && (o in s.w.retiring || o in s.doneOps))
    && (s.start.Start? ==>
          && s.start.op !in s.doneOps
          && (s.start.op in s.w.active || (s.start.op in s.w.retiring && s.start.cancelled == Yes)))
  }

  // ----- the stop attempt -----

  ghost predicate ChildrenGone(s: State) {
    Unpublished(s.w) && s.w.spawnSlot.None? && !InFlight(s.start) && NoChild(s.env)
  }

  /** What a stop attempt that saw its children gone may rely on. */
  ghost predicate Quiet(s: State) {
    ChildrenGone(s) && (s.stale == No ==> NoneListed(s.w.recs))
  }

  predicate Detached(s: State) {
    && s.w.stopping == Yes && Unpublished(s.w) && s.w.spawnSlot.None?
    && (s.start.Start? ==> s.start.cancelled == Yes && s.start.op in s.w.retiring)
  }

  ghost predicate StopInv(s: State) {
    match s.stop
    case NoTask => true
    case Settled(result) => result == Yes ==> Quiet(s) && s.start.NoStart? && s.w.retiring == {}
    case Attempt(pc) =>
      match pc
      case Detaching => true
      case AwaitStart(gen) => Detached(s) && (InFlight(s.start) ==> s.start.gen == gen)
      case MarkUncertain(gen) => Detached(s) && (InFlight(s.start) ==> s.start.gen == gen)
      case AwaitAgain(gen) => Detached(s) && (InFlight(s.start) ==> s.start.gen == gen)
      case ReapBegin => Detached(s) && !InFlight(s.start)
      case CheckUncertain => Detached(s) && Quiet(s)
      case Join(snapshot) => Detached(s) && !InFlight(s.start)
      case ObserveOps(children) => Detached(s) && !InFlight(s.start) && (children == Yes ==> Quiet(s))
      case ObserveOpsAgain(children) => Detached(s) && !InFlight(s.start) && (children == Yes ==> Quiet(s))
      case Finishing(result) => result == Yes ==> Detached(s) && Quiet(s) && s.start.NoStart? && s.w.retiring == {}
  }

  ghost predicate Inv(s: State) {
    && EnvInv(s.env)
    && RecordsInv(s.w.recs, s.env)
    && CancelInv(s.w, s.env)
    && StartInv(s)
    && OwnInv(s)
    && AtMostOneChild(s.env)
    && OpsInv(s)
    && StopInv(s)
  }

  lemma InitialInv()
    ensures Inv(Initial)
  {
  }
}
