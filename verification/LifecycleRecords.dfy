/** Retire tasks, settling callbacks and removal keep the invariant. */
module LifecycleRecords {
  import opened Options
  import opened RetirementRecord
  import opened RetirementInvariant
  import opened WrapperState
  import opened Lifecycle
  import opened LifecycleInvariant
  import opened LifecycleOutside

  /** Cancellations added by a step were due to unsettled tasks the record holds, one each. */
  ghost predicate CancelsOwn(r: Record, e: Env, e': Env) {
    && CancelCounts(e') && e.cancels <= e'.cancels
    && (forall t :: t in e'.cancels && t !in e.cancels ==> t !in e.done && (r.spawnTask == Some(t) || t in r.startupTasks))
  }

  /** A record keeps every child it holds, as a spawn task or as the process it became. */
  ghost predicate KeepsChildren(r: Record, r': Record, e': Env) {
    && (forall t :: Live(e', t) && r.listed == Yes && r.spawnTask == Some(t) ==>
          r'.listed == Yes && (r'.spawnTask == Some(t) || (t in e'.results && r'.process == Some(e'.results[t]))))
    && (forall t :: Live(e', t) && r.listed == Yes && t in e'.results && r.process == Some(e'.results[t]) ==>
          r'.listed == Yes && r'.process == r.process)
  }

  ghost predicate RecordStep(r: Record, e: Env, r': Record, e': Env) {
    && RecordInv(r', e') && MarkInv(r', e') && EnvInv(e')
    && EnvGrows(e, e') && LiveShrinks(e, e')
    && e'.spawnTasks == e.spawnTasks && e'.nextTask == e.nextTask && e'.done == e.done && e'.results == e.results
    && CancelsOwn(r, e, e') && KeepsChildren(r, r', e')
    && r'.startupTasks <= r.startupTasks
    && (r'.spawnTask.Some? ==> r'.spawnTask == r.spawnTask)
    && (r'.listed == Yes ==> r.listed == Yes)
  }

  lemma RecordStepKeepsMarks(s: State, i: nat, r': Record, e': Env)
    requires Inv(s) && RecordAt(s, i) && RecordStep(s.w.recs[i], s.env, r', e')
    ensures RecordMarks(s.w.recs[i := r'], e')
  {
    var r := s.w.recs[i];
    var recs' := s.w.recs[i := r'];
    forall j | 0 <= j < |recs'| ensures MarkInv(recs'[j], e') {
      if j != i {
        assert MarkInv(s.w.recs[j], s.env);
        assert r.startupTasks !! s.w.recs[j].startupTasks;
      }
    }
  }

  lemma RecordStepKeepsExclusive(s: State, i: nat, r': Record, e': Env)
    requires Inv(s) && RecordAt(s, i) && RecordStep(s.w.recs[i], s.env, r', e')
    ensures var w' := s.w.(recs := s.w.recs[i := r']); SpawnExclusive(w', e') && StartupExclusive(w')
  {
  }

  lemma RecordStepKeepsCancel(s: State, i: nat, r': Record, e': Env)
    requires Inv(s) && RecordAt(s, i) && RecordStep(s.w.recs[i], s.env, r', e')
    ensures CancelInv(s.w.(recs := s.w.recs[i := r']), e')
  {
    RecordStepKeepsMarks(s, i, r', e');
    RecordStepKeepsExclusive(s, i, r', e');
  }

  lemma SpawnHolderStays(recs: seq<Record>, i: nat, r': Record, e': Env, t: TaskId)
    requires i < |recs| && KeepsChildren(recs[i], r', e') && Live(e', t) && HoldsSpawn(recs, t)
    ensures var recs' := recs[i := r'];
      HoldsSpawn(recs', t) || (t in e'.results && HoldsProcess(recs', e'.results[t]))
  {
    var recs' := recs[i := r'];
    var j :| 0 <= j < |recs| && recs[j].listed == Yes && recs[j].spawnTask == Some(t);
    assert recs'[j].listed == Yes;
  }

  lemma ProcessHolderStays(recs: seq<Record>, i: nat, r': Record, e': Env, t: TaskId)
    requires i < |recs| && KeepsChildren(recs[i], r', e') && Live(e', t)
    requires t in e'.results && HoldsProcess(recs, e'.results[t])
    ensures HoldsProcess(recs[i := r'], e'.results[t])
  {
    var recs' := recs[i := r'];
    var j :| 0 <= j < |recs| && recs[j].listed == Yes && recs[j].process == Some(e'.results[t]);
    assert recs'[j].listed == Yes && recs'[j].process == Some(e'.results[t]);
  }

  lemma RecordStepKeepsOwners(s: State, i: nat, r': Record, e': Env)
    requires Inv(s) && RecordAt(s, i) && RecordStep(s.w.recs[i], s.env, r', e')
    ensures OwnInv(SetRecord(s.(env := e'), i, r'))
  {
    var s' := SetRecord(s.(env := e'), i, r');
    forall t: TaskId | Live(e', t) ensures Owned(s', t) {
      assert Live(s.env, t) && Owned(s, t);
      if HoldsSpawn(s.w.recs, t) {
        SpawnHolderStays(s.w.recs, i, r', e', t);
      } else if t in s.env.results && HoldsProcess(s.w.recs, s.env.results[t]) {
        ProcessHolderStays(s.w.recs, i, r', e', t);
      }
    }
  }

  lemma RecordStepKeepsRecords(s: State, i: nat, r': Record, e': Env)
    requires Inv(s) && RecordAt(s, i) && RecordStep(s.w.recs[i], s.env, r', e')
    ensures RecordsInv(s.w.recs[i := r'], e') && (NoneListed(s.w.recs) ==> NoneListed(s.w.recs[i := r']))
  {
    RecordsSurvive(s.w.recs, s.env, e');
  }

  lemma ChildrenShrink(e: Env, e': Env)
    requires LiveShrinks(e, e') && AtMostOneChild(e)
    ensures AtMostOneChild(e') && (NoChild(e) ==> NoChild(e'))
  {
    forall t, u | Live(e', t) && Live(e', u) ensures t == u { assert Live(e, t) && Live(e, u); }
  }

  lemma RecordStepKeeps(s: State, i: nat, r': Record, e': Env)
    requires Inv(s) && RecordAt(s, i) && RecordStep(s.w.recs[i], s.env, r', e')
    ensures Inv(SetRecord(s.(env := e'), i, r'))
  {
    RecordStepKeepsCancel(s, i, r', e');
    RecordStepKeepsOwners(s, i, r', e');
    RecordStepKeepsRecords(s, i, r', e');
    ChildrenShrink(s.env, e');
  }

  // ----- the retire task -----

  /** The parts of a record step that do not depend on the invariant. */
  ghost predicate RetireFrame(r: Record, e: Env, r': Record, e': Env) {
    && e'.spawnTasks == e.spawnTasks && e'.nextTask == e.nextTask && e'.done == e.done && e'.results == e.results
    && r'.listed == r.listed
    && r'.startupTasks <= r.startupTasks
    && r'.startupCancelRequested - r.startupCancelRequested <= r.startupTasks
    && (r.process.Some? ==> r'.process == r.process)
    && (r'.spawnTask == r.spawnTask
        || (r'.spawnTask.None? && r.spawnTask.value in e.done
            && (r.process.None? && r.spawnTask.value in e.results ==> r'.process == Some(e.results[r.spawnTask.value]))))
  }

  lemma SpawnFramed(r: Record, e: Env, k: Locals)
    requires r.task == Running(k) && InSpawn(k.pc) && LocalsInv(r, e, k)
    ensures var (r', e') := SpawnSection(r, e, k); RetireFrame(r, e, r', e')
  {
    if k.pc.SpawnStart? {
      if r.spawnTask.None? {} else if r.spawnTask.value in e.done || r.spawnCancelRequested == Yes {} else {}
    } else if k.pc.SpawnAdopt? {
      if k.spawn.value !in e.results {} else if e.results[k.spawn.value] in e.pipes {} else {}
    } else {}
  }

  lemma ProcessFramed(r: Record, e: Env, k: Locals)
    requires r.task == Running(k) && LocalsInv(r, e, k)
    ensures InProcess(k.pc) ==> var (r', e') := ProcessSection(r, e, k); RetireFrame(r, e, r', e')
    ensures InReturn(k.pc) ==> var (r', e') := ReturnSection(r, e, k); RetireFrame(r, e, r', e')
  {
    if k.process.Some? {
      if WaitProves(r, e, k.process.value) {} else {}
    }
  }

  lemma RetireFramed(r: Record, e: Env)
    requires r.task.Running? && RecordInv(r, e)
    ensures var (r', e') := RetireNext(r, e); RetireFrame(r, e, r', e')
  {
    var k := r.task.locals;
    ProcessFramed(r, e, k);
    if InSpawn(k.pc) {
      SpawnFramed(r, e, k);
    } else if InStartup(k.pc) {
      if k.pc.StartupObserve? {} else if r.startupTasks == {} {} else {}
    }
  }

  lemma CancelSpawnOnceOwn(r: Record, e: Env)
    requires r.spawnTask.Some? && MarkInv(r, e) && CancelCounts(e) && EnvInv(e) && r.spawnTask.value in e.spawnTasks
    requires forall t :: t in r.startupTasks ==> t !in e.spawnTasks
    ensures var (r', e') := CancelSpawnOnce(r, e, r.spawnTask.value); CancelsOwn(r, e, e') && MarkInv(r', e')
  {
  }

  lemma CancelStartupOnceOwn(r: Record, e: Env, ts: set<TaskId>)
    requires ts <= r.startupTasks && MarkInv(r, e) && CancelCounts(e)
    requires (forall t :: t in r.startupTasks ==> t < e.nextTask && t !in e.spawnTasks)
    requires r.spawnTask.Some? ==> r.spawnTask.value in e.spawnTasks
    ensures var (r', e') := CancelStartupOnce(r, e, ts); CancelsOwn(r, e, e') && MarkInv(r', e')
  {
  }

  predicate Cancelling(r: Record, k: Locals) {
    (k.pc.SpawnStart? && r.spawnTask.Some?) || (k.pc.StartupStart? && r.startupTasks != {})
  }

  /** Every section but the two cancelling ones leaves all cancellation marks alone. */
  lemma QuietCancels(r: Record, e: Env, k: Locals)
    requires r.task == Running(k) && !Cancelling(r, k) && !k.pc.StartupObserve?
    ensures var (r', e') := RetireNext(r, e);
              && e'.cancels == e.cancels
              && r'.spawnCancelRequested == r.spawnCancelRequested
              && r'.startupCancelRequested == r.startupCancelRequested
              && r'.startupTasks == r.startupTasks
              && (r'.spawnTask.Some? ==> r'.spawnTask == r.spawnTask)
  {
    if InSpawn(k.pc) {
      if k.pc.SpawnStart? {} else if k.spawn.None? {} else if k.pc.SpawnAdopt? {
        if k.spawn.value !in e.results {} else if e.results[k.spawn.value] in e.pipes {} else {}
      } else {}
    } else if InStartup(k.pc) {
    } else if InProcess(k.pc) {
      if k.process.None? {} else if WaitProves(r, e, k.process.value) {} else {}
    } else if InReturn(k.pc) {
      if k.process.None? {} else if WaitProves(r, e, k.process.value) {} else {}
    }
  }

  lemma RetireCancels(r: Record, e: Env)
    requires r.task.Running? && RecordInv(r, e) && MarkInv(r, e) && CancelCounts(e) && EnvInv(e)
    ensures var (r', e') := RetireNext(r, e); CancelsOwn(r, e, e') && MarkInv(r', e') && e'.done == e.done
  {
    var k := r.task.locals;
    RetireFramed(r, e);
    if k.pc.SpawnStart? && r.spawnTask.Some? {
      CancelSpawnOnceOwn(r, e);
    } else if k.pc.StartupStart? && r.startupTasks != {} {
      CancelStartupOnceOwn(r, e, r.startupTasks);
    } else if k.pc.StartupObserve? {
    } else {
      QuietCancels(r, e, k);
    }
  }

  lemma RetireKeeps(s: State, i: nat)
    requires Inv(s) && RecordAt(s, i) && s.w.recs[i].task.Running?
    ensures Inv(DoRetire(s, i))
  {
    var r := s.w.recs[i];
    var (r', e') := RetireNext(r, s.env);
    RetireKeepsRecord(r, s.env);
    RetireFramed(r, s.env);
    RetireCancels(r, s.env);
    RecordStepKeeps(s, i, r', e');
  }

  /** The retire task may fail between any two of its sections: it then counts as unsuccessful. */
  lemma RetireFailsKeeps(s: State, i: nat)
    requires Inv(s) && RecordAt(s, i)
    ensures Inv(SetRecord(s, i, s.w.recs[i].(task := Finished(No))))
  {
    var r' := s.w.recs[i].(task := Finished(No));
    assert RecordStep(s.w.recs[i], s.env, r', s.env);
    RecordStepKeeps(s, i, r', s.env);
  }

  // ----- callbacks and removal -----

  lemma RerunKeeps(s: State, i: nat)
    requires Inv(s) && RecordAt(s, i)
    ensures Inv(SetRecord(s, i, s.w.recs[i].(task := FreshRun)))
  {
    var r' := s.w.recs[i].(task := FreshRun);
    assert RecordStep(s.w.recs[i], s.env, r', s.env);
    RecordStepKeeps(s, i, r', s.env);
  }

  lemma RemoveKeeps(s: State, i: nat)
    requires Inv(s) && RecordAt(s, i) && s.w.recs[i].completed == Yes
    ensures Inv(SetRecord(s, i, RemoveIfComplete(s.w.recs[i])))
  {
    var r := s.w.recs[i];
    assert RecordStep(r, s.env, RemoveIfComplete(r), s.env);
    RecordStepKeeps(s, i, RemoveIfComplete(r), s.env);
  }

  lemma RetiredSettlesKeeps(s: State, i: nat, t: TaskId)
    requires Inv(s) && RecordAt(s, i) && t in s.w.recs[i].startupTasks && t in s.env.done
    ensures Inv(SetRecord(s, i, FinishStartup(s.w.recs[i], {t})))
  {
    var r' := FinishStartup(s.w.recs[i], {t});
    assert RecordInv(s.w.recs[i], s.env);
    RecordStepKeeps(s, i, r', s.env);
  }

  lemma ShutdownSettlesKeeps(s: State, i: nat, ok: Flag)
    requires Inv(s) && RecordAt(s, i)
    ensures Inv(SetRecord(s, i, s.w.recs[i].(shutdownOutcome := Some(ok))))
  {
    assert RecordInv(s.w.recs[i], s.env);
    RecordStepKeeps(s, i, s.w.recs[i].(shutdownOutcome := Some(ok)), s.env);
  }

  lemma CloseSettlesKeeps(s: State, i: nat, ok: Flag)
    requires Inv(s) && RecordAt(s, i) && s.w.recs[i].closeOutcome.None? && Close in s.w.recs[i].begun
    ensures Inv(SetRecord(s, i, s.w.recs[i].(closeOutcome := Some(ok))))
  {
    assert RecordInv(s.w.recs[i], s.env);
    RecordStepKeeps(s, i, s.w.recs[i].(closeOutcome := Some(ok)), s.env);
  }

  lemma WaitSettlesKeeps(s: State, i: nat, code: Flag)
    requires Inv(s) && RecordAt(s, i) && s.w.recs[i].process.Some? && Wait in s.w.recs[i].begun
    requires code == Yes ==> s.w.recs[i].process.value in s.env.exited
    ensures Inv(SetRecord(s, i, s.w.recs[i].(waitOutcome := Some(code))))
  {
    assert RecordInv(s.w.recs[i], s.env);
    RecordStepKeeps(s, i, s.w.recs[i].(waitOutcome := Some(code)), s.env);
  }
}
