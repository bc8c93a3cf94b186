/**
  The subprocess client as a transition system.

  One event is the code between two suspension points of one coroutine: the start
  coroutine (serialised by `_lifecycle_lock`), the stop attempt (serialised by
  `_stop_task`), the retire task of each record, a wrapper operation, or the outside
  world.  The outside world is adversarial: tasks settle when they like, cancelled or
  not, spawns finish late, bounded waits expire at any time, processes exit at any time.
 */
module Lifecycle {
  import opened Options
  import opened RetirementRecord
  import opened WrapperState

  datatype StartPc = Spawning | Phases | Claiming | Claimed | Finalizing | Tail

  /** The start coroutine that holds the lifecycle lock after admission. */
  datatype Start =
    | NoStart
    | Start(op: OpId, gen: nat, pc: StartPc, cancelled: Flag, claimed: Flag,
            spawn: Option<TaskId>, phase: Option<TaskId>, client: Option<ClientId>, process: Option<ProcId>)

  datatype StopPc =
    | Detaching
    | AwaitStart(gen: nat) | MarkUncertain(gen: nat) | AwaitAgain(gen: nat)
    | ReapBegin | CheckUncertain | Join(snapshot: set<nat>)
    | ObserveOps(children: Flag) | ObserveOpsAgain(children: Flag)
    | Finishing(result: Flag)

  /** `_stop_task`. */
  datatype StopTask = NoTask | Attempt(pc: StopPc) | Settled(result: Flag)

  datatype State = State(
    w: Wrapper,
    env: Env,
    start: Start,
    stop: StopTask,
    doneOps: set<OpId>,           // operation tasks that have ended
    opCancels: multiset<OpId>,    // cancellations sent by stop attempts
    stale: Flag                   // a start claimed an already removed pair since the last child check
  )

  datatype Event =
    // start()
    | Register(op: OpId) | Unregister(op: OpId)
    | RetireTerminal | Admit(op: OpId)
    | SpawnResume(timeout: bool) | BeginPhase | PhaseResume(timeout: bool, ok: Flag) | PhasesDone
    | StartClaim | StartClaimed | Finalize | TailClaim | StartEnd | CancelStart
    // stop()
    | StopCall | StopDetach(caller: Option<OpId>) | StopWaited(observed: bool) | StopMark
    | StopReap | StopCheck | StopJoin(complete: set<nat>) | StopOps | StopFinish | StopFail
    // retirement records
    | Retire(i: nat) | RetireFails(i: nat) | LateSpawn(i: nat) | Remove(i: nat) | ReleaseOp(op: OpId)
    // settling callbacks and the outside world
    | LiveSettles(t: TaskId) | RetiredSettles(i: nat, t: TaskId)
    | ShutdownSettles(i: nat, ok: Flag) | CloseSettles(i: nat, ok: Flag) | WaitSettles(i: nat, code: Flag)
    | SpawnDone(t: TaskId, created: bool, pipes: bool) | StartupDone(t: TaskId)
    | ProcessExits(p: ProcId) | ReturncodePublished(p: ProcId) | ClientFails(c: ClientId) | OpDone(op: OpId)

  const NoChildren := Env(0, 0, 0, {}, {}, map[], multiset{}, {}, {}, {}, {}, map[], {})

  const Initial := State(
    Wrapper(None, None, 0, No, None, None, Yes, No, None, No, {}, {}, {}, {}, {}, []),
    NoChildren, NoStart, NoTask, {}, multiset{}, No)

  predicate AtStart(s: State, pc: StartPc) {
    s.start.Start? && s.start.pc == pc
  }

  /** An admitted start whose slot `_finalize_start` has not released. */
  predicate InFlight(st: Start) {
    st.Start? && st.pc != Tail
  }

  predicate Terminal(s: State) {
    || (s.w.pubProcess.Some? && s.w.pubProcess.value in s.env.returncodes)
    || (s.w.pubClient.Some? && s.w.pubClient.value in s.env.closed)
  }

  predicate RecordAt(s: State, i: nat) { i < |s.w.recs| }

  predicate Enabled(s: State, ev: Event) {
    match ev
    case Register(op) => op !in s.doneOps && !(s.start.Start? && s.start.op == op) && MayRegister(Prune(s.w, s.doneOps))
    case Unregister(op) => !(s.start.Start? && s.start.op == op)
    case RetireTerminal => s.start.NoStart? && Terminal(s)
    case Admit(op) => s.start.NoStart? && op in s.w.active && op !in s.doneOps
                      && MayAdmit(ClearUncertainty(s.w)) && !s.stop.Attempt?
    case SpawnResume(timeout) => AtStart(s, Spawning) && s.start.spawn.Some?
                                 && (s.start.cancelled == Yes || timeout || s.start.spawn.value in s.env.done)
    case BeginPhase => AtStart(s, Phases) && s.start.phase.None?
    case PhaseResume(timeout, ok) => AtStart(s, Phases) && s.start.phase.Some?
                                     && (s.start.cancelled == Yes || timeout || s.start.phase.value in s.env.done)
    case PhasesDone => AtStart(s, Phases) && s.start.phase.None?
    case StartClaim => AtStart(s, Claiming)
    case StartClaimed => AtStart(s, Claimed)
    case Finalize => AtStart(s, Finalizing)
    case TailClaim => AtStart(s, Tail) && s.start.claimed == No && s.start.cancelled == Yes
    case StartEnd => AtStart(s, Tail) && (s.start.claimed == Yes || s.start.cancelled == No)
    case CancelStart => s.start.Start?
    case StopCall => s.stop.NoTask? || s.stop == Settled(No)
    case StopDetach(caller) => s.stop == Attempt(Detaching) && !(s.start.Start? && caller == Some(s.start.op))
    case StopWaited(observed) => s.stop.Attempt? && (s.stop.pc.AwaitStart? || s.stop.pc.AwaitAgain?)
    case StopMark => s.stop.Attempt? && s.stop.pc.MarkUncertain?
    case StopReap => s.stop == Attempt(ReapBegin)
    case StopCheck => s.stop == Attempt(CheckUncertain)
    case StopJoin(complete) => s.stop.Attempt? && s.stop.pc.Join? && complete <= s.stop.pc.snapshot
                               && forall i :: i in complete ==> RecordAt(s, i) && s.w.recs[i].completed == Yes
    case StopOps => s.stop.Attempt? && (s.stop.pc.ObserveOps? || s.stop.pc.ObserveOpsAgain?)
    case StopFinish => s.stop.Attempt? && s.stop.pc.Finishing?
    case StopFail => s.stop.Attempt? && !s.stop.pc.Finishing?
    case Retire(i) => RecordAt(s, i) && s.w.recs[i].task.Running?
    case RetireFails(i) => RecordAt(s, i) && s.w.recs[i].task.Running?
    case LateSpawn(i) => Listed(s.w.recs, i) && s.w.recs[i].spawnTask.Some? && s.w.recs[i].spawnTask.value in s.env.done
                         && s.w.recs[i].task.Finished?
    case Remove(i) => Listed(s.w.recs, i) && s.w.recs[i].completed == Yes
    case ReleaseOp(op) => op in s.doneOps
    case LiveSettles(t) => t in s.w.live && t in s.env.done
    case RetiredSettles(i, t) => RecordAt(s, i) && t in s.w.recs[i].startupTasks && t in s.env.done
    case ShutdownSettles(i, ok) => RecordAt(s, i) && Shutdown in s.w.recs[i].begun && s.w.recs[i].shutdownOutcome.None?
    case CloseSettles(i, ok) => RecordAt(s, i) && Close in s.w.recs[i].begun && s.w.recs[i].closeOutcome.None?
    case WaitSettles(i, code) => RecordAt(s, i) && Wait in s.w.recs[i].begun && s.w.recs[i].waitOutcome.None?
                                 && s.w.recs[i].process.Some?
                                 && (code == Yes ==> s.w.recs[i].process.value in s.env.exited)
    case SpawnDone(t, created, pipes) => t in s.env.spawnTasks && t !in s.env.done
    case StartupDone(t) => t < s.env.nextTask && t !in s.env.spawnTasks && t !in s.env.done
    case ProcessExits(p) => p < s.env.nextProc
    case ReturncodePublished(p) => p in s.env.exited
    case ClientFails(c) => c < s.env.nextClient
    case OpDone(op) => !(s.start.Start? && s.start.op == op)
  }

  function SetRecord(s: State, i: nat, r: Record): State
    requires RecordAt(s, i)
  {
    s.(w := s.w.(recs := s.w.recs[i := r]))
  }

  /** _cancel_spawn_once, across live and retired ownership. */
  function CancelSpawn(s: State, t: TaskId): State {
    if t in s.env.done then s
    else if s.w.spawnSlot == Some(t) then
      if s.w.spawnSlotCancel == Yes then s
      else s.(w := s.w.(spawnSlotCancel := Yes), env := s.env.(cancels := s.env.cancels + multiset{t}))
    else
      match FindMatch(s.w.recs, None, None, Some(t), 0)
      case None => s
      case Some(i) =>
        var (r, e) := CancelSpawnOnce(s.w.recs[i], s.env, t);
        SetRecord(s.(env := e), i, r)
  }

  /** The first listed record that retains a startup task. */
  function FindStartup(recs: seq<Record>, t: TaskId, from: nat): (found: Option<nat>)
    requires from <= |recs|
    ensures found.Some? ==> from <= found.value < |recs| && Listed(recs, found.value) && t in recs[found.value].startupTasks
    decreases |recs| - from
  {
    if from == |recs| then None
    else if Listed(recs, from) && t in recs[from].startupTasks then Some(from)
    else FindStartup(recs, t, from + 1)
  }

  /** _cancel_startup_task_once, across live and retired ownership. */
  function CancelPhase(s: State, t: TaskId): State {
    if t in s.env.done then s
    else if t in s.w.live then
      if t in s.w.liveCancel then s
      else s.(w := s.w.(liveCancel := s.w.liveCancel + {t}), env := s.env.(cancels := s.env.cancels + multiset{t}))
    else
      match FindStartup(s.w.recs, t, 0)
      case None => s
      case Some(i) =>
        var (r, e) := CancelStartupOnce(s.w.recs[i], s.env, {t});
        SetRecord(s.(env := e), i, r)
  }

  function DoAdmit(s: State, op: OpId): State {
    var t := s.env.nextTask;
    var w := ClearUncertainty(s.w);
    s.(w := WrapperState.Admit(w, t),
       env := s.env.(nextTask := t + 1, spawnTasks := s.env.spawnTasks + {t}),
       start := Start(op, w.generation, Spawning, No, No, Some(t), None, None, None),
       stop := NoTask)
  }

  /** Take the spawn result and publish it, with no suspension in between. */
  function Publish(s: State, t: TaskId): State
    requires s.start.Start?
  {
    var w := if s.w.spawnSlot == Some(t) then TakeSpawnSlot(s.w) else s.w;
    if t !in s.env.results then s.(start := s.start.(pc := Claiming))
    else
      var p := s.env.results[t];
      if p in s.env.pipes then
        var c := s.env.nextClient;
        s.(w := w.(pubClient := Some(c), pubProcess := Some(p)),
           env := s.env.(nextClient := c + 1, clientProc := s.env.clientProc[c := p]),
           start := s.start.(pc := Phases, spawn := None, client := Some(c), process := Some(p)))
      else
        s.(w := w, start := s.start.(pc := Claiming, spawn := None, process := Some(p)))
  }

  function DoSpawnResume(s: State): State
    requires s.start.Start? && s.start.spawn.Some?
  {
    var t := s.start.spawn.value;
    if s.start.cancelled == Yes || t !in s.env.done then
      CancelSpawn(s, t).(start := s.start.(pc := Claiming))
    else Publish(s, t)
  }

  function DoBeginPhase(s: State): State
    requires s.start.Start?
  {
    var t := s.env.nextTask;
    s.(w := s.w.(live := s.w.live + {t}), env := s.env.(nextTask := t + 1), start := s.start.(phase := Some(t)))
  }

  function DoPhaseResume(s: State, ok: Flag): State
    requires s.start.Start? && s.start.phase.Some?
  {
    var t := s.start.phase.value;
    if s.start.cancelled == No && t in s.env.done && ok == Yes then s.(start := s.start.(phase := None))
    else CancelPhase(s, t).(start := s.start.(pc := Claiming))
  }

  function DoTailClaim(s: State): State
    requires s.start.Start?
  {
    var w := RetireStartupChild(s.w, s.start.client, s.start.process, None);
    var untimely := |w.recs| > |s.w.recs| && !IsPublished(s.w, s.start.client, s.start.process);
    s.(w := w, start := s.start.(claimed := Yes), stale := if untimely then Yes else s.stale)
  }

  function DoStartEnd(s: State): State
    requires s.start.Start?
  {
    var op := s.start.op;
    var w := if s.start.claimed == Yes then s.w
             else s.w.(active := s.w.active - {op}, opCancel := s.w.opCancel - {op});
    s.(w := w, start := NoStart)
  }

  function DoStopDetach(s: State, caller: Option<OpId>): State {
    var ops := Transferred(s.w, caller, s.doneOps);
    var next := if s.w.startingGen.Some? then AwaitStart(s.w.startingGen.value) else ReapBegin;
    s.(w := WrapperState.StopDetach(s.w, caller, s.doneOps),
       start := if s.start.Start? && s.start.op in ops then s.start.(cancelled := Yes) else s.start,
       opCancels := s.opCancels + multiset(ops),
       stop := Attempt(next))
  }

  function DoStopWaited(s: State, observed: bool): State
    requires s.stop.Attempt? && (s.stop.pc.AwaitStart? || s.stop.pc.AwaitAgain?)
  {
    var gen := s.stop.pc.gen;
    var settled := observed && s.w.startSettled == Yes && StartIsSettled(s.w, gen);
    if s.stop.pc.AwaitStart? then
      s.(stop := Attempt(if settled then ReapBegin else MarkUncertain(gen)))
    else if settled then
      s.(w := ClearUncertainty(s.w), stop := Attempt(ReapBegin))
    else
      s.(stop := Attempt(Finishing(No)))
  }

  function DoStopMark(s: State, gen: nat): State {
    if StartIsSettled(s.w, gen) then s.(w := ClearUncertainty(s.w), stop := Attempt(AwaitAgain(gen)))
    else s.(w := s.w.(uncertainGen := Some(gen)), stop := Attempt(AwaitAgain(gen)))
  }

  function DoStopReap(s: State): State {
    var w := RerunAll(s.w);
    if NoneListed(w.recs) then s.(w := w, stop := Attempt(CheckUncertain), stale := No)
    else s.(w := w, stop := Attempt(Join(set i | 0 <= i < |w.recs| && w.recs[i].listed == Yes)))
  }

  function DoStopJoin(s: State, complete: set<nat>): State {
    var w := RemoveAll(s.w, complete);
    s.(w := w, stop := Attempt(ObserveOps(Flagged(NoneListed(w.recs) && w.uncertainGen.None?))), stale := No)
  }

  function DoStopOps(s: State): State
    requires s.stop.Attempt? && (s.stop.pc.ObserveOps? || s.stop.pc.ObserveOpsAgain?)
  {
    var w := Prune(s.w, s.doneOps);
    var children := s.stop.pc.children;
    var next := if w.retiring == {} then Finishing(children)
                else if s.stop.pc.ObserveOps? then ObserveOpsAgain(children)
                else Finishing(No);
    s.(w := w, stop := Attempt(next))
  }

  function DoRetire(s: State, i: nat): State
    requires RecordAt(s, i) && s.w.recs[i].task.Running?
  {
    var (r, e) := RetireNext(s.w.recs[i], s.env);
    SetRecord(s.(env := e), i, r)
  }

  function DoSpawnDone(s: State, t: TaskId, created: bool, pipes: bool): State {
    var e := s.env.(done := s.env.done + {t});
    if !created then s.(env := e)
    else
      var p := s.env.nextProc;
      s.(env := e.(nextProc := p + 1, results := e.results[t := p],
                   pipes := if pipes then e.pipes + {p} else e.pipes))
  }

  function Apply(s: State, ev: Event): State
    requires Enabled(s, ev)
  {
    match ev
    case Register(op) => s.(w := Prune(s.w, s.doneOps).(active := Prune(s.w, s.doneOps).active + {op}))
    case Unregister(op) => s.(w := WrapperState.Unregister(s.w, op))
    case RetireTerminal => s.(w := RetireTerminalChild(s.w))
    case Admit(op) => DoAdmit(s, op)
    case SpawnResume(timeout) => DoSpawnResume(s)
    case BeginPhase => DoBeginPhase(s)
    case PhaseResume(timeout, ok) => DoPhaseResume(s, ok)
    case PhasesDone => s.(start := s.start.(pc := Finalizing))
    case StartClaim => s.(w := RetireStartupChild(s.w, s.start.client, s.start.process, s.start.spawn),
                          start := s.start.(pc := Claimed, claimed := Yes))
    case StartClaimed => s.(start := s.start.(pc := Finalizing))
    case Finalize => s.(w := FinalizeStart(s.w, s.start.gen), start := s.start.(pc := Tail))
    case TailClaim => DoTailClaim(s)
    case StartEnd => DoStartEnd(s)
    case CancelStart => s.(start := s.start.(cancelled := Yes))
    case StopCall => s.(stop := Attempt(Detaching))
    case StopDetach(caller) => DoStopDetach(s, caller)
    case StopWaited(observed) => DoStopWaited(s, observed)
    case StopMark => DoStopMark(s, s.stop.pc.gen)
    case StopReap => DoStopReap(s)
    case StopCheck => s.(stop := Attempt(ObserveOps(Flagged(s.w.uncertainGen.None?))))
    case StopJoin(complete) => DoStopJoin(s, complete)
    case StopOps => DoStopOps(s)
    case StopFinish => s.(w := s.w.(stopping := No), stop := Settled(s.stop.pc.result))
    case StopFail => s.(stop := Attempt(Finishing(No)))
    case Retire(i) => DoRetire(s, i)
    case RetireFails(i) => SetRecord(s, i, s.w.recs[i].(task := Finished(No)))
    case LateSpawn(i) => SetRecord(s, i, s.w.recs[i].(task := FreshRun))
    case Remove(i) => SetRecord(s, i, RemoveIfComplete(s.w.recs[i]))
    case ReleaseOp(op) => s.(w := s.w.(retiring := s.w.retiring - {op}, opCancel := s.w.opCancel - {op}))
    case LiveSettles(t) => s.(w := s.w.(live := s.w.live - {t}, liveCancel := s.w.liveCancel - {t}))
    case RetiredSettles(i, t) => SetRecord(s, i, FinishStartup(s.w.recs[i], {t}))
    case ShutdownSettles(i, ok) => SetRecord(s, i, s.w.recs[i].(shutdownOutcome := Some(ok)))
    case CloseSettles(i, ok) => SetRecord(s, i, s.w.recs[i].(closeOutcome := Some(ok)))
    case WaitSettles(i, code) => SetRecord(s, i, s.w.recs[i].(waitOutcome := Some(code)))
    case SpawnDone(t, created, pipes) => DoSpawnDone(s, t, created, pipes)
    case StartupDone(t) => s.(env := s.env.(done := s.env.done + {t}))
    case ProcessExits(p) => s.(env := s.env.(exited := s.env.exited + {p}))
    case ReturncodePublished(p) => s.(env := s.env.(returncodes := s.env.returncodes + {p}))
    case ClientFails(c) => s.(env := s.env.(closed := s.env.closed + {c}))
    case OpDone(op) => s.(doneOps := s.doneOps + {op})
  }

  /** The state after a whole run, or nothing if some event was not enabled. */
  function Run(events: seq<Event>): Option<State>
    decreases |events|
  {
    if events == [] then Some(Initial)
    else
      var last := |events| - 1;
      match Run(events[..last])
      case None => None
      case Some(s) => if Enabled(s, events[last]) then Some(Apply(s, events[last])) else None
  }
}
