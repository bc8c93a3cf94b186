/** A concrete run on which stop() succeeds although a record remains: the claim that comes too late. */
module LifecycleLateClaim {
  import opened Options
  import opened RetirementRecord
  import opened WrapperState
  import opened Lifecycle

  ghost predicate Reachable(s: State) {
    exists events :: Run(events) == Some(s)
  }

  lemma StartReachable()
    ensures Reachable(Initial)
  {
    assert Run([]) == Some(Initial);
  }

  lemma StepReachable(s: State, ev: Event)
    requires Reachable(s) && Enabled(s, ev)
    ensures Reachable(Apply(s, ev))
  {
    var events :| Run(events) == Some(s);
    assert (events + [ev])[..|events|] == events;
    assert Run(events + [ev]) == Some(Apply(s, ev));
  }

  // ----- one child is started and published -----

  const Admitted := State(
    Wrapper(None, None, 0, Yes, Some(0), None, No, No, Some(0), No, {}, {}, {7}, {}, {}, []),
    Env(1, 0, 0, {0}, {}, map[], multiset{}, {}, {}, {}, {}, map[], {}),
    Start(7, 0, Spawning, No, No, Some(0), None, None, None), NoTask, {}, multiset{}, No)

  const SpawnedEnv := Env(1, 1, 0, {0}, {0}, map[0 := 0], multiset{}, {0}, {}, {}, {}, map[], {})

  const ChildEnv := Env(1, 1, 1, {0}, {0}, map[0 := 0], multiset{}, {0}, {}, {}, {}, map[0 := 0], {})

  const Published := State(
    Wrapper(Some(0), Some(0), 0, Yes, Some(0), None, No, No, None, No, {}, {}, {7}, {}, {}, []),
    ChildEnv, Start(7, 0, Phases, No, No, None, None, Some(0), Some(0)), NoTask, {}, multiset{}, No)

  const Released := State(
    Wrapper(Some(0), Some(0), 0, No, None, None, Yes, No, None, No, {}, {}, {7}, {}, {}, []),
    ChildEnv, Start(7, 0, Tail, No, No, None, None, Some(0), Some(0)), NoTask, {}, multiset{}, No)

  lemma AdmittedReachable()
    ensures Reachable(Admitted)
  {
    StartReachable();
    StepReachable(Initial, Register(7));
    var s := Apply(Initial, Register(7));
    assert s.w.active == {7};
    StepReachable(s, Admit(7));
    assert Apply(s, Admit(7)) == Admitted;
  }

  lemma PublishedReachable()
    ensures Reachable(Published)
  {
    AdmittedReachable();
    StepReachable(Admitted, SpawnDone(0, true, true));
    var s := Apply(Admitted, SpawnDone(0, true, true));
    assert s == Admitted.(env := SpawnedEnv);
    StepReachable(s, SpawnResume(false));
    assert Apply(s, SpawnResume(false)) == Published;
  }

  lemma ReleasedReachable()
    ensures Reachable(Released)
  {
    PublishedReachable();
    StepReachable(Published, PhasesDone);
    var s := Apply(Published, PhasesDone);
    StepReachable(s, Finalize);
    assert Apply(s, Finalize) == Released;
  }

  // ----- a stop attempt detaches it and cancels the start -----

  const DetachedWrapper := Wrapper(None, None, 1, No, None, None, Yes, Yes, None, No, {}, {}, {}, {7}, {7}, [])

  const CancelledStart := Start(7, 0, Tail, Yes, No, None, None, Some(0), Some(0))

  /** The state of the stop attempt while the one record `r` is being retired. */
  function Retiring(r: Record, e: Env): State {
    State(DetachedWrapper.(recs := [r]), e, CancelledStart, Attempt(ReapBegin), {}, multiset{7}, No)
  }

  lemma StoppingReachable()
    ensures Reachable(Released.(stop := Attempt(Detaching)))
  {
    ReleasedReachable();
    StepReachable(Released, StopCall);
  }

  lemma StopDetaches()
    ensures Transferred(Released.w, None, {}) == {7}
    ensures WrapperState.StopDetach(Released.w, None, {}) == DetachedWrapper.(recs := [NewRecord(Some(0), Some(0), None, No)])
  {
    assert Transferred(Released.w, None, {}) == {7};
  }

  lemma DetachedReachable()
    ensures Reachable(Retiring(NewRecord(Some(0), Some(0), None, No), ChildEnv))
  {
    StoppingReachable();
    var s := Released.(stop := Attempt(Detaching));
    StopDetaches();
    StepReachable(s, StopDetach(None));
    assert Apply(s, StopDetach(None)) == Retiring(NewRecord(Some(0), Some(0), None, No), ChildEnv);
  }

  // ----- the record is retired completely -----

  /** One section of the retire task. */
  lemma RetireReachable(r: Record, e: Env, r': Record, e': Env)
    requires Reachable(Retiring(r, e)) && r.task.Running? && RetireNext(r, e) == (r', e')
    ensures Reachable(Retiring(r', e'))
  {
    var s := Retiring(r, e);
    StepReachable(s, Retire(0));
    assert s.w.recs[0 := r'] == [r'];
    assert Apply(s, Retire(0)) == Retiring(r', e');
  }

  function Before(pc: Pc, startup: Flag, client: Option<ClientId>, process: Option<ProcId>): Locals {
    Locals(pc, None, {}, Yes, startup, client, Yes, process, No, No, if client.Some? then Yes else No)
  }

  const ExitedEnv := ChildEnv.(exited := {0})
  const ReapedEnv := ExitedEnv.(reaped := {0})

  const Fresh := NewRecord(Some(0), Some(0), None, No)
  const AskedRecord := Begin(Fresh, Shutdown)
  const AnsweredRecord := AskedRecord.(shutdownOutcome := Some(Yes))
  const WaitingRecord := Begin(AnsweredRecord, Wait)
  const ExitedRecord := WaitingRecord.(waitOutcome := Some(Yes))
  const ClosingRecord := Begin(ExitedRecord, Close)
  const ClosedRecord := ClosingRecord.(closeOutcome := Some(Yes))
  const DoneRecord := ClosedRecord.(client := None, task := Finished(Yes), completed := Yes)

  lemma AskedReachable()
    ensures Reachable(Retiring(At(AskedRecord, Before(ShutdownObserve, Yes, Some(0), None)), ChildEnv))
  {
    DetachedReachable();
    var r1 := At(Fresh, Locals(StartupStart, None, {}, Yes, No, None, Yes, None, No, No, No));
    RetireReachable(Fresh, ChildEnv, r1, ChildEnv);
    var r2 := At(Fresh, Before(ShutdownStart, Yes, None, None));
    RetireReachable(r1, ChildEnv, r2, ChildEnv);
    RetireReachable(r2, ChildEnv, At(AskedRecord, Before(ShutdownObserve, Yes, Some(0), None)), ChildEnv);
  }

  lemma AnsweredReachable()
    ensures Reachable(Retiring(At(AnsweredRecord, Before(ShutdownObserve, Yes, Some(0), None)), ChildEnv))
  {
    AskedReachable();
    var r0 := At(AskedRecord, Before(ShutdownObserve, Yes, Some(0), None));
    StepReachable(Retiring(r0, ChildEnv), ShutdownSettles(0, Yes));
    var r1 := At(AnsweredRecord, Before(ShutdownObserve, Yes, Some(0), None));
    assert [r0][0 := r1] == [r1];
    assert Apply(Retiring(r0, ChildEnv), ShutdownSettles(0, Yes)) == Retiring(r1, ChildEnv);
  }

  lemma WaitingReachable()
    ensures Reachable(Retiring(At(WaitingRecord, Before(FirstWaitObserve, Yes, Some(0), Some(0))), ChildEnv))
  {
    AnsweredReachable();
    var r1 := At(AnsweredRecord, Before(ShutdownObserve, Yes, Some(0), None));
    var r2 := At(AnsweredRecord, Before(FirstWait, Yes, Some(0), None));
    RetireReachable(r1, ChildEnv, r2, ChildEnv);
    RetireReachable(r2, ChildEnv, At(WaitingRecord, Before(FirstWaitObserve, Yes, Some(0), Some(0))), ChildEnv);
  }

  const Reaped := Before(CloseStart, Yes, Some(0), Some(0)).(processRetired := Yes)

  lemma ExitedReachable()
    ensures Reachable(Retiring(At(WaitingRecord, Before(FirstWaitObserve, Yes, Some(0), Some(0))), ExitedEnv))
  {
    WaitingReachable();
    var r0 := At(WaitingRecord, Before(FirstWaitObserve, Yes, Some(0), Some(0)));
    StepReachable(Retiring(r0, ChildEnv), ProcessExits(0));
    assert Apply(Retiring(r0, ChildEnv), ProcessExits(0)) == Retiring(r0, ExitedEnv);
  }

  lemma ReapedReachable()
    ensures Reachable(Retiring(At(ExitedRecord, Reaped), ReapedEnv))
  {
    ExitedReachable();
    var k := Before(FirstWaitObserve, Yes, Some(0), Some(0));
    var r0, r1 := At(WaitingRecord, k), At(ExitedRecord, k);
    StepReachable(Retiring(r0, ExitedEnv), WaitSettles(0, Yes));
    assert [r0][0 := r1] == [r1];
    assert Apply(Retiring(r0, ExitedEnv), WaitSettles(0, Yes)) == Retiring(r1, ExitedEnv);
    assert ExitedEnv.reaped + {0} == {0};
    assert RetireNext(r1, ExitedEnv) == (At(ExitedRecord, Reaped), ReapedEnv);
    RetireReachable(r1, ExitedEnv, At(ExitedRecord, Reaped), ReapedEnv);
  }

  const Closing := Reaped.(pc := CloseObserve, closeStarted := Yes)

  lemma ClosingReachable()
    ensures Reachable(Retiring(At(ClosingRecord, Closing), ReapedEnv))
  {
    ReapedReachable();
    RetireReachable(At(ExitedRecord, Reaped), ReapedEnv, At(ClosingRecord, Closing), ReapedEnv);
  }

  lemma ClosedReachable()
    ensures Reachable(Retiring(At(ClosedRecord, Closing), ReapedEnv))
  {
    ClosingReachable();
    var r0, r1 := At(ClosingRecord, Closing), At(ClosedRecord, Closing);
    StepReachable(Retiring(r0, ReapedEnv), CloseSettles(0, Yes));
    assert [r0][0 := r1] == [r1];
    assert Apply(Retiring(r0, ReapedEnv), CloseSettles(0, Yes)) == Retiring(r1, ReapedEnv);
  }

  const Releasing := At(ClosedRecord, Closing.(pc := Release, clientRetired := Yes))

  lemma ReleasingReachable()
    ensures Reachable(Retiring(Releasing, ReapedEnv))
  {
    ClosedReachable();
    RetireReachable(At(ClosedRecord, Closing), ReapedEnv, Releasing, ReapedEnv);
  }

  const Leaving := At(ClosedRecord.(client := None), Closing.(pc := Return, clientRetired := Yes))

  lemma LeavingReachable()
    ensures Reachable(Retiring(Leaving, ReapedEnv))
  {
    ReleasingReachable();
    RetireReachable(Releasing, ReapedEnv, Leaving, ReapedEnv);
  }

  lemma DoneReachable()
    ensures Reachable(Retiring(DoneRecord, ReapedEnv))
  {
    LeavingReachable();
    RetireReachable(Leaving, ReapedEnv, DoneRecord, ReapedEnv);
  }

  // ----- the stop attempt finds everything gone; only then does the start claim its pair -----

  const RemovedRecord := DoneRecord.(listed := No)

  const LateRecord := NewRecord(Some(0), Some(0), None, No)

  function Checked(recs: seq<Record>, start: Start, stale: Flag): State {
    State(DetachedWrapper.(recs := recs), ReapedEnv, start, Attempt(ObserveOps(Yes)), {}, multiset{7}, stale)
  }

  lemma JoiningReachable()
    ensures Reachable(Retiring(DoneRecord, ReapedEnv).(stop := Attempt(Join({0}))))
  {
    DoneReachable();
    var s := Retiring(DoneRecord, ReapedEnv);
    StepReachable(s, StopReap);
    assert RerunAll(s.w) == s.w by { assert RerunAll(s.w).recs == [DoneRecord]; }
    assert s.w.recs[0].listed == Yes;
    assert Apply(s, StopReap) == s.(stop := Attempt(Join({0}))) by {
      assert (set i | 0 <= i < |s.w.recs| && s.w.recs[i].listed == Yes) == {0};
    }
  }

  lemma CheckedReachable()
    ensures Reachable(Checked([RemovedRecord], CancelledStart, No))
  {
    JoiningReachable();
    var s := Retiring(DoneRecord, ReapedEnv).(stop := Attempt(Join({0})));
    StepReachable(s, StopJoin({0}));
    assert RemoveAll(s.w, {0}).recs == [RemovedRecord];
    assert NoneListed([RemovedRecord]);
    assert Apply(s, StopJoin({0})) == Checked([RemovedRecord], CancelledStart, No);
  }

  lemma LateClaimReachable()
    ensures Reachable(Checked([RemovedRecord, LateRecord], CancelledStart.(claimed := Yes), Yes))
  {
    CheckedReachable();
    var s := Checked([RemovedRecord], CancelledStart, No);
    StepReachable(s, TailClaim);
    assert FindMatch(s.w.recs, Some(0), Some(0), None, 0).None?;
    assert [RemovedRecord] + [LateRecord] == [RemovedRecord, LateRecord];
    assert Apply(s, TailClaim) == Checked([RemovedRecord, LateRecord], CancelledStart.(claimed := Yes), Yes);
  }

  lemma EndedReachable()
    ensures Reachable(Checked([RemovedRecord, LateRecord], NoStart, Yes).(doneOps := {7}))
  {
    LateClaimReachable();
    var recs := [RemovedRecord, LateRecord];
    var s := Checked(recs, CancelledStart.(claimed := Yes), Yes);
    StepReachable(s, StartEnd);
    var s1 := Checked(recs, NoStart, Yes);
    assert Apply(s, StartEnd) == s1;
    StepReachable(s1, OpDone(7));
    assert Apply(s1, OpDone(7)) == s1.(doneOps := {7});
  }

  /** stop() has returned success, and a retirement record is listed for a process long reaped. */
  lemma StopCanSucceedWithARecordLeft()
    ensures exists s :: Reachable(s) && s.stop == Settled(Yes) && !NoneListed(s.w.recs) && s.env.reaped == s.env.exited == {0}
  {
    EndedReachable();
    var s2 := Checked([RemovedRecord, LateRecord], NoStart, Yes).(doneOps := {7});
    StepReachable(s2, StopOps);
    var s3 := Apply(s2, StopOps);
    assert s3.w.retiring == {} && s3.stop == Attempt(Finishing(Yes));
    StepReachable(s3, StopFinish);
    assert Apply(s3, StopFinish).w.recs[1].listed == Yes;
  }
}
