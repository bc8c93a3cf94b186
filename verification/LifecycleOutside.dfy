/** The outside world keeps the invariant: tasks settle, processes exit, operations end. */
module LifecycleOutside {
  import opened RetirementRecord
  import opened RetirementInvariant
  import opened WrapperState
  import opened Lifecycle
  import opened LifecycleInvariant

  lemma RecordsSurvive(recs: seq<Record>, e: Env, e': Env)
    requires RecordsInv(recs, e) && EnvInv(e) && EnvGrows(e, e') && EnvInv(e')
    ensures RecordsInv(recs, e')
  {
    forall i | 0 <= i < |recs| ensures RecordInv(recs[i], e') {
      EnvGrowthKeepsRecord(recs[i], e, e');
    }
  }

  /** No child comes to life. */
  ghost predicate LiveShrinks(e: Env, e': Env) {
    forall t :: Live(e', t) ==> Live(e, t)
  }

  /** Nothing was cancelled or created, at most observed. */
  ghost predicate Observes(e: Env, e': Env) {
    && EnvGrows(e, e') && LiveShrinks(e, e')
    && e'.cancels == e.cancels && e'.spawnTasks == e.spawnTasks && e'.nextTask == e.nextTask
  }

  lemma MarksSurvive(w: Wrapper, e: Env, e': Env)
    requires CancelInv(w, e) && Observes(e, e')
    ensures CancelInv(w, e')
  {
    forall i | 0 <= i < |w.recs| ensures MarkInv(w.recs[i], e') {
      assert MarkInv(w.recs[i], e);
    }
  }

  lemma OwnersSurvive(s: State, e': Env)
    requires OwnInv(s) && Observes(s.env, e')
    ensures OwnInv(s.(env := e'))
  {
    forall t | Live(e', t) ensures Owned(s.(env := e'), t) {
      assert Live(s.env, t) && Owned(s, t);
    }
  }

  lemma ObservationKeeps(s: State, e': Env)
    requires Inv(s) && EnvInv(e') && Observes(s.env, e')
    ensures Inv(s.(env := e'))
  {
    RecordsSurvive(s.w.recs, s.env, e');
    MarksSurvive(s.w, s.env, e');
    OwnersSurvive(s, e');
    assert AtMostOneChild(e') by {
      forall t, u | Live(e', t) && Live(e', u) ensures t == u {
        assert Live(s.env, t) && Live(s.env, u);
      }
    }
    assert NoChild(s.env) ==> NoChild(e');
  }

  lemma SpawnDoneKeeps(s: State, t: TaskId, created: bool, pipes: bool)
    requires Inv(s) && t in s.env.spawnTasks && t !in s.env.done
    ensures Inv(DoSpawnDone(s, t, created, pipes))
  {
    var e' := DoSpawnDone(s, t, created, pipes).env;
    assert EnvInv(e') && Observes(s.env, e') by {
      forall u | Live(e', u) ensures Live(s.env, u) {}
    }
    ObservationKeeps(s, e');
  }

  lemma StartupDoneKeeps(s: State, t: TaskId)
    requires Inv(s) && t < s.env.nextTask && t !in s.env.spawnTasks
    ensures Inv(s.(env := s.env.(done := s.env.done + {t})))
  {
    ObservationKeeps(s, s.env.(done := s.env.done + {t}));
  }

  lemma ProcessExitsKeeps(s: State, p: ProcId)
    requires Inv(s) && p < s.env.nextProc
    ensures Inv(s.(env := s.env.(exited := s.env.exited + {p})))
  {
    ObservationKeeps(s, s.env.(exited := s.env.exited + {p}));
  }

  lemma ReturncodeKeeps(s: State, p: ProcId)
    requires Inv(s) && p in s.env.exited
    ensures Inv(s.(env := s.env.(returncodes := s.env.returncodes + {p})))
  {
    ObservationKeeps(s, s.env.(returncodes := s.env.returncodes + {p}));
  }

  lemma ClientFailsKeeps(s: State, c: ClientId)
    requires Inv(s) && c < s.env.nextClient
    ensures Inv(s.(env := s.env.(closed := s.env.closed + {c})))
  {
    ObservationKeeps(s, s.env.(closed := s.env.closed + {c}));
  }

  lemma OpDoneKeeps(s: State, op: OpId)
    requires Inv(s) && !(s.start.Start? && s.start.op == op)
    ensures Inv(s.(doneOps := s.doneOps + {op}))
  {
  }
}
