/** What every section of the retire task keeps true of its record. */
module RetirementInvariant {
  import opened Options
  import opened RetirementRecord

  ghost predicate EnvInv(e: Env) {
    && (forall t :: t in e.done || t in e.spawnTasks ==> t < e.nextTask)
    && (forall t :: t in e.results ==> t in e.spawnTasks && t in e.done && e.results[t] < e.nextProc)
    && (forall t, u :: t in e.results && u in e.results && e.results[t] == e.results[u] ==> t == u)
    && (forall c :: c in e.clientProc ==> c < e.nextClient && e.clientProc[c] < e.nextProc)
    && (forall c :: c in e.closed ==> c < e.nextClient)
    && (forall p :: p in e.exited ==> p < e.nextProc)
    && e.returncodes <= e.exited
    && e.reaped <= e.exited
  }

  /** Facts of the outside world are never taken back. */
  ghost predicate EnvGrows(e: Env, e': Env) {
    && e.nextTask <= e'.nextTask && e.nextProc <= e'.nextProc && e.nextClient <= e'.nextClient
    && e.spawnTasks <= e'.spawnTasks && e.done <= e'.done && e.exited <= e'.exited
    && e.returncodes <= e'.returncodes && e.reaped <= e'.reaped && e.closed <= e'.closed
    && (forall t :: t in e'.spawnTasks && t < e.nextTask ==> t in e.spawnTasks)
    && (forall t :: t in e.results ==> t in e'.results && e'.results[t] == e.results[t])
    && (forall t :: t in e.done && t in e'.results ==> t in e.results)
    && (forall c :: c in e.clientProc ==> c in e'.clientProc && e'.clientProc[c] == e.clientProc[c])
  }

  predicate Once(log: seq<Act>) {
    forall i, j :: 0 <= i < j < |log| ==> log[i] != log[j]
  }

  ghost predicate KillAfterTerminate(log: seq<Act>) {
    forall j :: 0 <= j < |log| && log[j] == Kill ==> exists i :: 0 <= i < j && log[i] == Terminate
  }

  /** The acts performed so far are exactly the ones the one-shot marks admit to. */
  ghost predicate LogInv(r: Record) {
    Once(r.log) && KillAfterTerminate(r.log) && (forall a :: a in r.log <==> a in r.begun)
  }

  ghost predicate OwnershipInv(r: Record, e: Env) {
    && (r.spawnTask.Some? ==>
          r.process.None? && r.client.None? && r.completed == No && r.spawnTask.value in e.spawnTasks)
    && (r.process.Some? ==> r.process.value < e.nextProc)
    && (r.client.Some? ==>
          r.process.Some? && r.client.value in e.clientProc && e.clientProc[r.client.value] == r.process.value)
    && (r.waitOutcome == Some(Yes) ==> r.process.Some? && r.process.value in e.exited)
    && (r.waitOutcome.Some? ==> Wait in r.begun)
    && (r.client.None? && Close in r.begun ==> r.closeOutcome == Some(Yes) && r.shutdownOutcome.Some?)
    && (r.completed == Yes ==> r.client.None? && (r.process.Some? ==> r.process.value in e.reaped))
    && (r.listed == No ==> r.completed == Yes && r.startupTasks == {})
    && r.startupTasks <= r.attached && r.attached - r.startupTasks <= e.done
    && (forall t :: t in r.attached ==> t < e.nextTask && t !in e.spawnTasks)
  }

  /** A spawn task the record no longer holds has settled, and the record took over what it delivered. */
  ghost predicate SpawnHistory(r: Record, e: Env) {
    forall t {:trigger t in r.spawnHeld} :: t in r.spawnHeld && r.spawnTask != Some(t) ==>
      t in e.done && (t in e.results ==> r.process == Some(e.results[t]))
  }

  predicate SpawnGone(r: Record, k: Locals) {
    k.spawnRetired == Yes ==> r.spawnTask.None?
  }

  predicate ClientTaken(r: Record, k: Locals) {
    && SpawnGone(r, k)
    && (k.clientRetired == Yes ==> k.spawnRetired == Yes)
    && k.client == r.client
    && (k.client.Some? ==> Shutdown in r.begun)
  }

  predicate ShutdownSeen(r: Record, k: Locals) {
    ClientTaken(r, k) && (k.shutdownSettled == Yes && k.client.Some? ==> r.shutdownOutcome.Some?)
  }

  predicate ProcessTaken(r: Record, e: Env, k: Locals) {
    && k.process == r.process
    && (k.process.Some? ==> Wait in r.begun)
    && (k.processRetired == Yes && k.process.Some? ==> k.process.value in e.reaped)
  }

  predicate Observing(r: Record, k: Locals) {
    ShutdownSeen(r, k) && k.process == r.process && k.process.Some? && Wait in r.begun
  }

  predicate Returning(r: Record, e: Env, k: Locals) {
    && SpawnGone(r, k) && ProcessTaken(r, e, k)
    && (k.clientRetired == Yes ==> k.spawnRetired == Yes && r.client.None?)
  }

  predicate Signalled(r: Record, e: Env, k: Locals) {
    k.process.Some? && (Terminate in r.begun || k.process.value in e.returncodes)
  }

  /** What the local variables guarantee at each suspension point. */
  predicate LocalsInv(r: Record, e: Env, k: Locals) {
    && (InSpawn(k.pc) && !k.pc.SpawnStart? ==> k.spawn.Some? && r.spawnTask == k.spawn)
    && (k.pc.SpawnAdopt? ==> k.spawn.value in e.done)
    && (InStartup(k.pc) || k.pc.ShutdownStart? ==> SpawnGone(r, k))
    && (k.pc.ShutdownObserve? ==> ClientTaken(r, k))
    && (k.pc.FirstWait? ==> ShutdownSeen(r, k))
    && (InProcess(k.pc) ==> Observing(r, k))
    && (k.pc.TerminateStart? ==> k.processRetired == No)
    && (k.pc.SecondWaitObserve? || k.pc.KillStart? ==> Signalled(r, e, k))
    && (k.pc.KillStart? || InClose(k.pc) ==> ProcessTaken(r, e, k))
    && (InClose(k.pc) ==> ShutdownSeen(r, k) && (!k.pc.CloseStart? ==> k.client.Some?))
    && (k.pc.Release? && k.clientRetired == Yes ==> r.closeOutcome == Some(Yes) && r.shutdownOutcome.Some?)
    && (InReturn(k.pc) ==> Returning(r, e, k))
    && (k.pc.FinalWaitObserve? ==> k.process.Some?)
  }

  ghost predicate Custody(r: Record, e: Env) {
    OwnershipInv(r, e) && SpawnHistory(r, e) && (r.task.Running? ==> LocalsInv(r, e, r.task.locals))
  }

  ghost predicate RecordInv(r: Record, e: Env) {
    LogInv(r) && Custody(r, e)
  }

  /** An unsettled task that was cancelled carries the durable mark that forbids a second cancel. */
  ghost predicate MarkInv(r: Record, e: Env) {
    && (r.spawnTask.Some? && r.spawnTask.value !in e.done && r.spawnTask.value in e.cancels ==>
          r.spawnCancelRequested == Yes)
    && (forall t :: t in r.startupTasks && t !in e.done && t in e.cancels ==> t in r.startupCancelRequested)
  }

  lemma EnvGrowthKeepsRecord(r: Record, e: Env, e': Env)
    requires RecordInv(r, e) && EnvInv(e) && EnvGrows(e, e') && EnvInv(e')
    ensures RecordInv(r, e')
  {
  }

  lemma BeginKeepsLog(r: Record, a: Act)
    requires LogInv(r) && (a == Kill ==> Terminate in r.begun)
    ensures LogInv(Begin(r, a))
  {
    var log' := Begin(r, a).log;
    forall j | 0 <= j < |log'| && log'[j] == Kill
      ensures exists i :: 0 <= i < j && log'[i] == Terminate
    {
      if j < |r.log| {
        var i :| 0 <= i < j && r.log[i] == Terminate;
        assert log'[i] == Terminate;
      } else {
        var i :| 0 <= i < |r.log| && r.log[i] == Terminate;
        assert log'[i] == Terminate;
      }
    }
  }

  lemma SpawnStartKeepsCustody(r: Record, e: Env, k: Locals)
    requires r.task == Running(k) && k.pc.SpawnStart? && Custody(r, e) && EnvInv(e)
    ensures var (r', e') := SpawnSection(r, e, k); Custody(r', e') && EnvInv(e') && EnvGrows(e, e')
  {
    if r.spawnTask.None? {} else if r.spawnTask.value in e.done || r.spawnCancelRequested == Yes {} else {}
  }

  lemma SpawnKeepsCustody(r: Record, e: Env, k: Locals)
    requires r.task == Running(k) && InSpawn(k.pc) && !k.pc.SpawnAdopt? && Custody(r, e) && EnvInv(e)
    ensures var (r', e') := SpawnSection(r, e, k); Custody(r', e') && EnvInv(e') && EnvGrows(e, e')
  {
    if k.pc.SpawnStart? { SpawnStartKeepsCustody(r, e, k); } else if k.spawn.value in e.done {} else {}
  }

  lemma AdoptKeepsCustody(r: Record, e: Env, k: Locals)
    requires r.task == Running(k) && k.pc.SpawnAdopt? && Custody(r, e) && EnvInv(e)
    ensures var (r', e') := SpawnSection(r, e, k); Custody(r', e') && EnvInv(e') && EnvGrows(e, e')
  {
    if k.spawn.value !in e.results {} else if e.results[k.spawn.value] in e.pipes {} else {}
  }

  lemma StartupStartKeepsCustody(r: Record, e: Env, k: Locals)
    requires r.task == Running(k) && k.pc.StartupStart? && Custody(r, e) && EnvInv(e)
    ensures var (r', e') := StartupSection(r, e, k); Custody(r', e') && EnvInv(e') && EnvGrows(e, e')
  {
    if r.startupTasks == {} {} else {}
  }

  lemma StartupKeepsCustody(r: Record, e: Env, k: Locals)
    requires r.task == Running(k) && InStartup(k.pc) && Custody(r, e) && EnvInv(e)
    ensures var (r', e') := StartupSection(r, e, k); Custody(r', e') && EnvInv(e') && EnvGrows(e, e')
  {
    if k.pc.StartupStart? { StartupStartKeepsCustody(r, e, k); } else {}
  }

  lemma ShutdownKeepsCustody(r: Record, e: Env, k: Locals)
    requires r.task == Running(k) && InShutdown(k.pc) && Custody(r, e)
    ensures Custody(ShutdownSection(r, k), e)
  {
    if k.pc.ShutdownObserve? {} else if r.client.None? {} else if Shutdown in r.begun {} else {}
  }

  lemma WaitKeepsCustody(r: Record, e: Env, k: Locals)
    requires r.task == Running(k) && k.pc.FirstWait? && Custody(r, e)
    ensures Custody(WaitSection(r, k), e)
  {
    if r.process.None? {} else if Wait in r.begun {} else {}
  }

  lemma TerminateKeepsCustody(r: Record, e: Env, k: Locals)
    requires r.task == Running(k) && k.pc.TerminateStart? && Custody(r, e)
    ensures ProcessSection(r, e, k).1 == e && Custody(ProcessSection(r, e, k).0, e)
  {
    if k.process.value !in e.returncodes && Terminate !in r.begun {} else {}
  }

  lemma KillKeepsCustody(r: Record, e: Env, k: Locals)
    requires r.task == Running(k) && k.pc.KillStart? && Custody(r, e)
    ensures ProcessSection(r, e, k).1 == e && Custody(ProcessSection(r, e, k).0, e)
  {
    if k.processRetired == No && k.process.value !in e.returncodes && Kill !in r.begun {} else {}
  }

  lemma SignalKeepsCustody(r: Record, e: Env, k: Locals)
    requires r.task == Running(k) && (k.pc.TerminateStart? || k.pc.KillStart?) && Custody(r, e)
    ensures ProcessSection(r, e, k).1 == e && Custody(ProcessSection(r, e, k).0, e)
  {
    if k.pc.TerminateStart? { TerminateKeepsCustody(r, e, k); } else { KillKeepsCustody(r, e, k); }
  }

  lemma ProvenWaitKeepsCustody(r: Record, e: Env, k: Locals, next: Pc)
    requires OwnershipInv(r, e) && SpawnHistory(r, e) && Observing(r, k) && EnvInv(e) && WaitProves(r, e, k.process.value)
    requires next.CloseStart? || (next.KillStart? && Signalled(r, e, k))
    ensures var (r', e') := EndWait(r, e, k, k.process.value, next); Custody(r', e') && EnvInv(e') && EnvGrows(e, e')
  {
  }

  lemma OpenWaitKeepsCustody(r: Record, e: Env, k: Locals, next: Pc)
    requires OwnershipInv(r, e) && SpawnHistory(r, e) && Observing(r, k) && EnvInv(e) && !WaitProves(r, e, k.process.value)
    requires next.CloseStart? || (next.KillStart? && Signalled(r, e, k)) || next.TerminateStart?
    ensures var (r', e') := EndWait(r, e, k, k.process.value, next); Custody(r', e') && EnvInv(e') && EnvGrows(e, e')
  {
  }

  lemma EndWaitKeepsCustody(r: Record, e: Env, k: Locals, next: Pc)
    requires OwnershipInv(r, e) && SpawnHistory(r, e) && Observing(r, k) && EnvInv(e)
    requires next.CloseStart? || (next.KillStart? && Signalled(r, e, k))
          || (next.TerminateStart? && !WaitProves(r, e, k.process.value))
    ensures var (r', e') := EndWait(r, e, k, k.process.value, next); Custody(r', e') && EnvInv(e') && EnvGrows(e, e')
  {
    if WaitProves(r, e, k.process.value) {
      ProvenWaitKeepsCustody(r, e, k, next);
    } else {
      OpenWaitKeepsCustody(r, e, k, next);
    }
  }

  lemma ObserveKeepsCustody(r: Record, e: Env, k: Locals)
    requires r.task == Running(k) && InProcess(k.pc) && !k.pc.TerminateStart? && !k.pc.KillStart?
    requires Custody(r, e) && EnvInv(e)
    ensures var (r', e') := ProcessSection(r, e, k); Custody(r', e') && EnvInv(e') && EnvGrows(e, e')
  {
    var next := if k.pc.SecondWaitObserve? then KillStart
                else if k.pc.FirstWaitObserve? && !WaitProves(r, e, k.process.value) then TerminateStart
                else CloseStart;
    assert ProcessSection(r, e, k) == EndWait(r, e, k, k.process.value, next);
    EndWaitKeepsCustody(r, e, k, next);
  }

  lemma CloseKeepsCustody(r: Record, e: Env, k: Locals)
    requires r.task == Running(k) && InClose(k.pc) && Custody(r, e)
    ensures Custody(CloseSection(r, k), e)
  {
    if k.pc.CloseStart? {
      if k.client.None? {} else if Close in r.begun {} else {}
    } else if k.pc.CloseObserve? {
    } else if k.clientRetired == Yes && r.startupTasks == {} {} else {}
  }

  lemma ReturnKeepsCustody(r: Record, e: Env, k: Locals)
    requires r.task == Running(k) && InReturn(k.pc) && Custody(r, e) && EnvInv(e)
    ensures var (r', e') := ReturnSection(r, e, k); Custody(r', e') && EnvInv(e') && EnvGrows(e, e')
  {
    if k.pc.FinalWaitObserve? {
      if WaitProves(r, e, k.process.value) {
        if k.clientRetired == Yes {} else {}
      } else {}
    } else if k.process.None? || k.processRetired == Yes {
      if k.clientRetired == Yes {} else {}
    } else if k.closeStarted == Yes && k.clientRetired == Yes {} else {}
  }

  lemma QuietKeepsLog(r: Record, e: Env, k: Locals)
    requires r.task == Running(k)
    requires !k.pc.ShutdownStart? && !k.pc.FirstWait? && !k.pc.TerminateStart? && !k.pc.KillStart? && !k.pc.CloseStart?
    ensures RetireNext(r, e).0.log == r.log && RetireNext(r, e).0.begun == r.begun
  {
    if InSpawn(k.pc) {
      if k.pc.SpawnStart? {} else if k.spawn.None? {} else if k.pc.SpawnAdopt? {} else {}
    } else if InStartup(k.pc) {
    } else if InProcess(k.pc) {
      if k.process.None? {} else if WaitProves(r, e, k.process.value) {} else {}
    } else if InClose(k.pc) {
    } else if InReturn(k.pc) {
      if k.process.None? {} else if WaitProves(r, e, k.process.value) {} else {}
    }
  }

  lemma RetireKeepsLog(r: Record, e: Env)
    requires r.task.Running? && RecordInv(r, e)
    ensures LogInv(RetireNext(r, e).0)
  {
    var k := r.task.locals;
    var r' := RetireNext(r, e).0;
    if k.pc.ShutdownStart? {
      BeginKeepsLog(r, Shutdown);
      if r.client.None? {} else {}
    } else if k.pc.FirstWait? {
      BeginKeepsLog(r, Wait);
      if r.process.None? {} else {}
    } else if k.pc.TerminateStart? {
      BeginKeepsLog(r, Terminate);
      if k.process.value !in e.returncodes && Terminate !in r.begun {} else {}
    } else if k.pc.KillStart? {
      if k.processRetired == No && k.process.value !in e.returncodes && Kill !in r.begun {
        BeginKeepsLog(r, Kill);
      } else {}
    } else if k.pc.CloseStart? {
      BeginKeepsLog(r, Close);
      if k.client.None? {} else {}
    } else {
      QuietKeepsLog(r, e, k);
      assert r'.log == r.log && r'.begun == r.begun;
    }
  }

  /** Every section of the retire task keeps the record invariant, whatever it observes. */
  lemma RetireKeepsRecord(r: Record, e: Env)
    requires r.task.Running? && RecordInv(r, e) && EnvInv(e)
    ensures var (r', e') := RetireNext(r, e); RecordInv(r', e') && EnvInv(e') && EnvGrows(e, e')
  {
    RetireKeepsLog(r, e);
    var k := r.task.locals;
    if k.pc.SpawnAdopt? { AdoptKeepsCustody(r, e, k); }
    else if InSpawn(k.pc) { SpawnKeepsCustody(r, e, k); }
    else if InStartup(k.pc) { StartupKeepsCustody(r, e, k); }
    else if InShutdown(k.pc) { ShutdownKeepsCustody(r, e, k); }
    else if k.pc.TerminateStart? || k.pc.KillStart? { SignalKeepsCustody(r, e, k); }
    else if InProcess(k.pc) { ObserveKeepsCustody(r, e, k); }
    else if InClose(k.pc) { CloseKeepsCustody(r, e, k); }
    else if InReturn(k.pc) { ReturnKeepsCustody(r, e, k); }
    else { WaitKeepsCustody(r, e, k); }
  }
}
