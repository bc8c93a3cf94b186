/**
  One detached child and the private task that retires it
  (_ChildRetirement and _retire_child of the subprocess client).

  A record is stepped by its own retire task: `RetireNext` is the code between two
  suspension points.  Everything the code observes about the outside world (tasks that
  settle, processes that exit) is in `Env`, which other parties change at any time.
 */
module RetirementRecord {
  import opened Options

  type TaskId = nat
  type ProcId = nat
  type ClientId = nat
  type OpId = nat

  /** What the event loop and the operating system know. */
  datatype Env = Env(
    nextTask: nat,
    nextProc: nat,
    nextClient: nat,
    spawnTasks: set<TaskId>,            // subprocess-creation tasks
    done: set<TaskId>,                  // settled spawn and startup tasks
    results: map<TaskId, ProcId>,       // settled spawn tasks that produced a process
    cancels: multiset<TaskId>,          // one entry per Task.cancel() call
    pipes: set<ProcId>,                 // processes created with both stdio pipes
    exited: set<ProcId>,
    returncodes: set<ProcId>,           // processes whose returncode is published
    reaped: set<ProcId>,                // processes a retained wait proved exited
    clientProc: map<ClientId, ProcId>,  // the process each inner client talks to
    closed: set<ClientId>               // inner clients with a latched terminal error
  )

  /** A spawn task is live while it may still yield, or has yielded, an unreaped process. */
  predicate Live(e: Env, t: TaskId) {
    t in e.spawnTasks && (t !in e.done || (t in e.results && e.results[t] !in e.reaped))
  }

  /** The acts a record performs at most once. */
  datatype Act = Shutdown | Wait | Terminate | Kill | Close

  /** Where the retire task is suspended. */
  datatype Pc =
    | SpawnStart | SpawnObserve | SpawnAdopt
    | StartupStart | StartupObserve
    | ShutdownStart | ShutdownObserve
    | FirstWait | FirstWaitObserve
    | TerminateStart | SecondWaitObserve
    | KillStart | ThirdWaitObserve
    | CloseStart | CloseObserve | Release
    | Return | FinalWaitObserve

  /** Local variables of one run of the retire task. */
  datatype Locals = Locals(
    pc: Pc,
    spawn: Option<TaskId>,
    snapshot: set<TaskId>,
    spawnRetired: Flag,
    startupRetired: Flag,
    client: Option<ClientId>,
    shutdownSettled: Flag,
    process: Option<ProcId>,
    processRetired: Flag,
    closeStarted: Flag,
    clientRetired: Flag
  )

  datatype RetireTask = Running(locals: Locals) | Finished(result: Flag)

  datatype Record = Record(
    client: Option<ClientId>,
    process: Option<ProcId>,
    spawnTask: Option<TaskId>,
    spawnHeld: set<TaskId>,           // every spawn task ever handed to the record
    spawnCancelRequested: Flag,
    startupTasks: set<TaskId>,
    startupCancelRequested: set<TaskId>,
    attached: set<TaskId>,            // every startup task ever handed to the record
    task: RetireTask,
    begun: set<Act>,                  // shutdown_attempted, wait_task, terminate_requested, ...
    shutdownOutcome: Option<Flag>,    // settled shutdown request: did it succeed?
    closeOutcome: Option<Flag>,       // settled close: did it succeed?
    waitOutcome: Option<Flag>,        // settled wait: did it return a code?
    completed: Flag,                  // some run of the retire task returned True
    listed: Flag,                     // still in _retirements
    log: seq<Act>                     // every act the record performed, in order
  )

  const FreshRun := Running(Locals(SpawnStart, None, {}, No, No, None, Yes, None, No, No, No))

  function NewRecord(client: Option<ClientId>, process: Option<ProcId>,
                     spawn: Option<TaskId>, spawnCancel: Flag): Record {
    var held := if spawn.Some? then {spawn.value} else {};
    Record(client, process, spawn, held, spawnCancel, {}, {}, {}, FreshRun, {}, None, None, None, No, Yes, [])
  }

  /** _cancel_retired_spawn_once. */
  function CancelSpawnOnce(r: Record, e: Env, t: TaskId): (Record, Env) {
    if t in e.done || r.spawnCancelRequested == Yes then (r, e)
    else (r.(spawnCancelRequested := Yes), e.(cancels := e.cancels + multiset{t}))
  }

  /** _cancel_retired_startup_task_once for every task of a set. */
  function CancelStartupOnce(r: Record, e: Env, ts: set<TaskId>): (Record, Env) {
    var asked := ts - e.done - r.startupCancelRequested;
    (r.(startupCancelRequested := r.startupCancelRequested + asked),
     e.(cancels := e.cancels + multiset(asked)))
  }

  /** _finish_retired_startup_task for every settled task of a set. */
  function FinishStartup(r: Record, ts: set<TaskId>): Record {
    r.(startupTasks := r.startupTasks - ts,
       startupCancelRequested := r.startupCancelRequested - (ts * r.startupTasks))
  }

  /** What _wait_for_process reports at the moment the bounded observation ends. */
  predicate WaitProves(r: Record, e: Env, p: ProcId) {
    r.waitOutcome.Some? && (r.waitOutcome.value == Yes || p in e.returncodes)
  }

  /** Perform an act unless an earlier run already did. */
  function Begin(r: Record, a: Act): Record {
    if a in r.begun then r else r.(begun := r.begun + {a}, log := r.log + [a])
  }

  function At(r: Record, k: Locals): Record {
    r.(task := Running(k))
  }

  function Finish(r: Record, result: Flag): Record {
    if result == Yes then r.(task := Finished(Yes), completed := Yes)
    else r.(task := Finished(No))
  }

  /** The end of one bounded observation of the process waiter. */
  function EndWait(r: Record, e: Env, k: Locals, p: ProcId, next: Pc): (Record, Env) {
    if WaitProves(r, e, p) then
      (At(r, k.(pc := next, processRetired := Yes)), e.(reaped := e.reaped + {p}))
    else
      (At(r, k.(pc := next, processRetired := No)), e)
  }

  /** Cancel the spawn once, observe it, and take over a process it still delivers. */
  function SpawnSection(r: Record, e: Env, k: Locals): (Record, Env) {
    if k.pc.SpawnStart? then
      if r.spawnTask.None? then (At(r, k.(pc := StartupStart, spawnRetired := Yes)), e)
      else
        var (r1, e1) := CancelSpawnOnce(r, e, r.spawnTask.value);
        (At(r1, k.(pc := SpawnObserve, spawn := r.spawnTask)), e1)
    else if k.spawn.None? then (r, e)
    else if k.pc.SpawnAdopt? then AdoptSpawn(r, e, k, k.spawn.value)
    else if k.spawn.value in e.done then (At(r, k.(pc := SpawnAdopt)), e)
    else (At(r, k.(pc := StartupStart, spawnRetired := No)), e)
  }

  /** The locked section of _retire_spawn_task that takes over a late process. */
  function AdoptSpawn(r: Record, e: Env, k: Locals, t: TaskId): (Record, Env) {
    var late := if t in e.results then Some(e.results[t]) else None;
    if r.spawnTask != Some(t) then
      (At(r, k.(pc := StartupStart, spawnRetired := Flagged(r.process.Some? || late.None?))), e)
    else
      var r1 := At(r.(spawnTask := None), k.(pc := StartupStart, spawnRetired := Yes));
      if late.None? || r.process.Some? then (r1, e)
      else if late.value in e.pipes then
        (r1.(process := late, client := Some(e.nextClient)),
         e.(nextClient := e.nextClient + 1, clientProc := e.clientProc[e.nextClient := late.value]))
      else (r1.(process := late), e)
  }

  /** Cancel every retained startup task once, then drop those that have settled. */
  function StartupSection(r: Record, e: Env, k: Locals): (Record, Env) {
    if k.pc.StartupObserve? then
      var r1 := FinishStartup(r, k.snapshot * e.done);
      (At(r1, k.(pc := ShutdownStart, startupRetired := Flagged(r1.startupTasks == {}))), e)
    else if r.startupTasks == {} then (At(r, k.(pc := ShutdownStart, startupRetired := Yes)), e)
    else
      var (r1, e1) := CancelStartupOnce(r, e, r.startupTasks);
      (At(r1, k.(pc := StartupObserve, snapshot := r.startupTasks)), e1)
  }

  function Both(a: Flag, b: Flag): Flag {
    if a == Yes then b else No
  }

  /** Ask the child to shut down, at most once over all runs. */
  function ShutdownSection(r: Record, k: Locals): Record {
    if k.pc.ShutdownObserve? then
      At(r, k.(pc := FirstWait, shutdownSettled := Flagged(r.shutdownOutcome.Some?)))
    else
      var k1 := k.(client := r.client, clientRetired := Both(k.spawnRetired, k.startupRetired));
      if r.client.None? then At(r, k1.(pc := FirstWait, shutdownSettled := Yes))
      else At(Begin(r, Shutdown), k1.(pc := ShutdownObserve))
  }

  /** Start the one process waiter. */
  function WaitSection(r: Record, k: Locals): Record {
    if r.process.None? then At(r, k.(pc := CloseStart, process := None, processRetired := Yes))
    else At(Begin(r, Wait), k.(pc := FirstWaitObserve, process := r.process))
  }

  /** Observe the waiter; signal TERM, then KILL, if it does not settle. */
  function ProcessSection(r: Record, e: Env, k: Locals): (Record, Env) {
    if k.process.None? then (r, e)
    else
      var p := k.process.value;
      if k.pc.FirstWaitObserve? then
        EndWait(r, e, k, p, if WaitProves(r, e, p) then CloseStart else TerminateStart)
      else if k.pc.TerminateStart? then
        if p !in e.returncodes && Terminate !in r.begun then
          (At(Begin(r, Terminate), k.(pc := SecondWaitObserve)), e)
        else (At(r, k.(pc := KillStart)), e)
      else if k.pc.SecondWaitObserve? then EndWait(r, e, k, p, KillStart)
      else if k.pc.KillStart? then
        if k.processRetired == No && p !in e.returncodes && Kill !in r.begun then
          (At(Begin(r, Kill), k.(pc := ThirdWaitObserve)), e)
        else (At(r, k.(pc := CloseStart)), e)
      else EndWait(r, e, k, p, CloseStart)
  }

  /** Close the inner client, at most once over all runs, and release it when everything settled. */
  function CloseSection(r: Record, k: Locals): Record {
    if k.pc.CloseStart? then
      if k.client.None? then At(r, k.(pc := Return))
      else if Close in r.begun then At(r, k.(pc := CloseObserve))
      else At(Begin(r, Close), k.(pc := CloseObserve, closeStarted := Yes))
    else if k.pc.CloseObserve? then
      var shutdown := if k.shutdownSettled == Yes then Yes else Flagged(r.shutdownOutcome.Some?);
      var settled := Both(Both(k.spawnRetired, k.startupRetired), Both(shutdown, Flagged(r.closeOutcome == Some(Yes))));
      At(r, k.(pc := Release, shutdownSettled := shutdown, clientRetired := settled))
    else if k.clientRetired == Yes && r.startupTasks == {} then
      At(r.(client := None), k.(pc := Return))
    else
      At(r, k.(pc := Return, clientRetired := No))
  }

  function ReturnSection(r: Record, e: Env, k: Locals): (Record, Env) {
    if k.pc.FinalWaitObserve? then
      if k.process.None? then (r, e)
      else
        var (r1, e1) := EndWait(r, e, k, k.process.value, Return);
        (Finish(r1, Both(k.clientRetired, Flagged(WaitProves(r, e, k.process.value)))), e1)
    else if k.process.None? || k.processRetired == Yes then (Finish(r, k.clientRetired), e)
    else if k.closeStarted == Yes && k.clientRetired == Yes then (At(r, k.(pc := FinalWaitObserve)), e)
    else (Finish(r, No), e)
  }

  predicate InSpawn(pc: Pc) { pc.SpawnStart? || pc.SpawnObserve? || pc.SpawnAdopt? }
  predicate InStartup(pc: Pc) { pc.StartupStart? || pc.StartupObserve? }
  predicate InShutdown(pc: Pc) { pc.ShutdownStart? || pc.ShutdownObserve? }
  predicate InClose(pc: Pc) { pc.CloseStart? || pc.CloseObserve? || pc.Release? }
  predicate InReturn(pc: Pc) { pc.Return? || pc.FinalWaitObserve? }
  predicate InProcess(pc: Pc) {
    pc.FirstWaitObserve? || pc.TerminateStart? || pc.SecondWaitObserve? || pc.KillStart? || pc.ThirdWaitObserve?
  }

  /** One atomic section of _retire_child. */
  function RetireNext(r: Record, e: Env): (Record, Env)
    requires r.task.Running?
  {
    var k := r.task.locals;
    if InSpawn(k.pc) then SpawnSection(r, e, k)
    else if InStartup(k.pc) then StartupSection(r, e, k)
    else if InShutdown(k.pc) then (ShutdownSection(r, k), e)
    else if InProcess(k.pc) then ProcessSection(r, e, k)
    else if InClose(k.pc) then (CloseSection(r, k), e)
    else if InReturn(k.pc) then ReturnSection(r, e, k)
    else (WaitSection(r, k), e)
  }
}
