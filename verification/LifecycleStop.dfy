/** Stop attempts and wrapper operations keep the invariant. */
module LifecycleStop {
  import opened Options
  import opened RetirementRecord
  import opened RetirementInvariant
  import opened WrapperState
  import opened Lifecycle
  import opened LifecycleInvariant
  import opened LifecycleClaims
  import opened LifecycleStart

  lemma UncertaintyIsCurrent(s: State)
    requires StartInv(s)
    ensures ClearUncertainty(s.w) == s.w
  {
  }

  lemma StopCallKeeps(s: State)
    requires Inv(s)
    ensures Inv(s.(stop := Attempt(Detaching)))
  {
    forall t: TaskId | Live(s.env, t) ensures Owned(s.(stop := Attempt(Detaching)), t) { assert Owned(s, t); }
  }

  /** Moving the stop attempt on, with everything else as it is. */
  lemma StopMoves(s: State, stop: StopTask, stale: Flag)
    requires Inv(s) && StopInv(s.(stop := stop, stale := stale))
    ensures Inv(s.(stop := stop, stale := stale))
  {
    forall t: TaskId | Live(s.env, t) ensures Owned(s.(stop := stop, stale := stale), t) { assert Owned(s, t); }
  }

  /** The wrapper a stop attempt claims from, and what it offers. */
  function DetachedWrapper(w: Wrapper, caller: Option<OpId>, doneOps: set<OpId>): Wrapper {
    var ops := Transferred(w, caller, doneOps);
    var w1 := Unpublish(ClearUncertainty(w.(stopping := Yes)))
              .(active := w.active - ops, retiring := w.retiring + ops, opCancel := w.opCancel + ops);
    if w.startingGen.Some? && w.spawnSlot.Some? then TakeSpawnSlot(w1) else w1
  }

  function DetachOffer(w: Wrapper): Offer {
    if w.startingGen.None? then Offer(w.pubClient, w.pubProcess, No, None, w.spawnSlotCancel)
    else Offer(w.pubClient, w.pubProcess, Yes, w.spawnSlot, w.spawnSlotCancel)
  }

  lemma DetachIsClaim(w: Wrapper, caller: Option<OpId>, doneOps: set<OpId>)
    ensures WrapperState.StopDetach(w, caller, doneOps) == Claim(DetachedWrapper(w, caller, doneOps), DetachOffer(w))
  {
  }

  lemma DetachClaims(s: State, caller: Option<OpId>)
    requires Inv(s)
    ensures var w' := WrapperState.StopDetach(s.w, caller, s.doneOps); var ops := Transferred(s.w, caller, s.doneOps);
      && RecordsInv(w'.recs, s.env) && CancelInv(w', s.env)
      && Unpublished(w') && w'.spawnSlot.None? && w'.stopping == Yes
      && w'.starting == s.w.starting && w'.startingGen == s.w.startingGen && w'.startSettled == s.w.startSettled
      && w'.uncertainGen == s.w.uncertainGen
      && w'.active == s.w.active - ops && w'.retiring == s.w.retiring + ops
    ensures var recs' := WrapperState.StopDetach(s.w, caller, s.doneOps).recs;
      && (forall t :: HoldsSpawn(s.w.recs, t) ==> HoldsSpawn(recs', t))
      && (forall p :: HoldsProcess(s.w.recs, p) ==> HoldsProcess(recs', p))
      && (s.w.spawnSlot.Some? ==> HoldsSpawn(recs', s.w.spawnSlot.value))
      && (s.w.pubProcess.Some? ==> HoldsProcess(recs', s.w.pubProcess.value))
  {
    var w1 := DetachedWrapper(s.w, caller, s.doneOps);
    var o := DetachOffer(s.w);
    UncertaintyIsCurrent(s);
    assert ClearUncertainty(s.w.(stopping := Yes)) == s.w.(stopping := Yes);
    assert CancelInv(w1, s.env);
    DetachIsClaim(s.w, caller, s.doneOps);
    ClaimKeepsRecords(w1, s.env, o);
    ClaimKeepsCancel(w1, s.env, o);
    ClaimHolds(w1, s.env, o);
    if !Empty(w1, o) { ClaimShape(w1, o); }
  }

  lemma StopDetachKeeps(s: State, caller: Option<OpId>)
    requires Inv(s) && s.stop == Attempt(Detaching) && !(s.start.Start? && caller == Some(s.start.op))
    ensures Inv(DoStopDetach(s, caller))
  {
    DetachClaims(s, caller);
    var s' := DoStopDetach(s, caller);
    forall t: TaskId | Live(s.env, t) ensures Owned(s', t) {
      assert Owned(s, t);
    }
    assert StartInv(s');
    assert OpsInv(s') by {
      var ops := Transferred(s.w, caller, s.doneOps);
      forall o | o in s'.opCancels
        ensures s'.opCancels[o] == 1 && o !in s'.w.active && (o in s'.w.retiring || o in s'.doneOps)
      {
        if o in ops { assert o !in s.opCancels; } else { assert o in s.opCancels; }
      }
    }
  }

  lemma StopWaitedKeeps(s: State, observed: bool)
    requires Inv(s) && s.stop.Attempt? && (s.stop.pc.AwaitStart? || s.stop.pc.AwaitAgain?)
    ensures Inv(DoStopWaited(s, observed))
  {
    UncertaintyIsCurrent(s);
    StopMoves(s, DoStopWaited(s, observed).stop, s.stale);
  }

  lemma StopMarkKeeps(s: State)
    requires Inv(s) && s.stop.Attempt? && s.stop.pc.MarkUncertain?
    ensures Inv(DoStopMark(s, s.stop.pc.gen))
  {
    UncertaintyIsCurrent(s);
    var s' := DoStopMark(s, s.stop.pc.gen);
    if StartIsSettled(s.w, s.stop.pc.gen) {
      StopMoves(s, s'.stop, s.stale);
    } else {
      forall t: TaskId | Live(s.env, t) ensures Owned(s', t) { assert Owned(s, t); }
    }
  }

  /** A batch change of records that leaves every child with its holder. */
  ghost predicate SameHoldings(recs: seq<Record>, recs': seq<Record>, e: Env) {
    && |recs'| == |recs|
    && RecordsInv(recs', e)
    && (forall i :: 0 <= i < |recs| ==>
          && recs'[i].spawnTask == recs[i].spawnTask && recs'[i].process == recs[i].process
          && recs'[i].startupTasks == recs[i].startupTasks
          && recs'[i].spawnCancelRequested == recs[i].spawnCancelRequested
          && recs'[i].startupCancelRequested == recs[i].startupCancelRequested
          && (recs'[i].listed == Yes ==> recs[i].listed == Yes))
    && (forall i :: 0 <= i < |recs| && recs[i].listed == Yes && recs'[i].listed == No ==>
          recs[i].spawnTask.None? && (recs[i].process.Some? ==> recs[i].process.value in e.reaped))
  }

  lemma BatchKeepsOwners(s: State, recs': seq<Record>)
    requires EnvInv(s.env) && OwnInv(s) && SameHoldings(s.w.recs, recs', s.env)
    ensures OwnInv(s.(w := s.w.(recs := recs')))
  {
    var s' := s.(w := s.w.(recs := recs'));
    forall t: TaskId | Live(s.env, t) ensures Owned(s', t) {
      assert Owned(s, t);
      if HoldsSpawn(s.w.recs, t) {
        var j :| 0 <= j < |s.w.recs| && s.w.recs[j].listed == Yes && s.w.recs[j].spawnTask == Some(t);
        assert recs'[j].listed == Yes && recs'[j].spawnTask == Some(t);
      } else if t in s.env.results && HoldsProcess(s.w.recs, s.env.results[t]) {
        var p := s.env.results[t];
        var j :| 0 <= j < |s.w.recs| && s.w.recs[j].listed == Yes && s.w.recs[j].process == Some(p);
        assert p !in s.env.reaped;
        assert recs'[j].listed == Yes && recs'[j].process == Some(p);
      }
    }
  }

  lemma BatchKeeps(s: State, recs': seq<Record>)
    requires Inv(s) && SameHoldings(s.w.recs, recs', s.env)
    ensures Inv(s.(w := s.w.(recs := recs')))
  {
    BatchKeepsOwners(s, recs');
    var w' := s.w.(recs := recs');
    assert CancelInv(w', s.env) by {
      forall i | 0 <= i < |recs'| ensures MarkInv(recs'[i], s.env) { assert MarkInv(s.w.recs[i], s.env); }
    }
    assert NoneListed(s.w.recs) ==> NoneListed(recs');
  }

  lemma RerunHoldings(s: State)
    requires Inv(s)
    ensures SameHoldings(s.w.recs, RerunAll(s.w).recs, s.env)
  {
    var recs := RerunAll(s.w).recs;
    forall i | 0 <= i < |s.w.recs| ensures RecordInv(recs[i], s.env) { assert RecordInv(s.w.recs[i], s.env); }
  }

  predicate AllCompleted(recs: seq<Record>, complete: set<nat>) {
    forall i :: i in complete ==> i < |recs| && recs[i].completed == Yes
  }

  lemma RemovalKeepsRecords(recs: seq<Record>, recs': seq<Record>, e: Env, complete: set<nat>)
    requires RecordsInv(recs, e) && AllCompleted(recs, complete) && |recs'| == |recs|
    requires forall i :: 0 <= i < |recs| ==>
      recs'[i] == if i in complete && recs[i].listed == Yes then RemoveIfComplete(recs[i]) else recs[i]
    ensures RecordsInv(recs', e)
  {
    forall i | 0 <= i < |recs| ensures RecordInv(recs'[i], e) { assert RecordInv(recs[i], e); }
  }

  /** A record that may be removed holds no spawn, and its process is reaped. */
  lemma CompleteIsSettled(r: Record, e: Env)
    requires RecordInv(r, e) && r.completed == Yes
    ensures r.spawnTask.None? && (r.process.Some? ==> r.process.value in e.reaped)
  {
  }

  lemma RemovalHoldings(s: State, complete: set<nat>)
    requires Inv(s) && AllCompleted(s.w.recs, complete)
    ensures SameHoldings(s.w.recs, RemoveAll(s.w, complete).recs, s.env)
  {
    var recs := RemoveAll(s.w, complete).recs;
    RemovalKeepsRecords(s.w.recs, recs, s.env, complete);
    forall i | 0 <= i < |s.w.recs| && s.w.recs[i].listed == Yes && recs[i].listed == No
      ensures s.w.recs[i].spawnTask.None? && (s.w.recs[i].process.Some? ==> s.w.recs[i].process.value in s.env.reaped)
    {
      CompleteIsSettled(s.w.recs[i], s.env);
    }
  }

  lemma StopReapKeeps(s: State)
    requires Inv(s) && s.stop == Attempt(ReapBegin)
    ensures Inv(DoStopReap(s))
  {
    UncertaintyIsCurrent(s);
    var w := RerunAll(s.w);
    RerunHoldings(s);
    BatchKeeps(s, w.recs);
    var s1 := s.(w := w);
    if NoneListed(w.recs) { NoOwnerNoChild(s1); }
    StopMoves(s1, DoStopReap(s).stop, DoStopReap(s).stale);
  }

  lemma StopJoinKeeps(s: State, complete: set<nat>)
    requires Inv(s) && s.stop.Attempt? && s.stop.pc.Join?
    requires AllCompleted(s.w.recs, complete)
    ensures Inv(DoStopJoin(s, complete))
  {
    var w := RemoveAll(s.w, complete);
    UncertaintyIsCurrent(s);
    assert w == s.w.(recs := w.recs);
    RemovalHoldings(s, complete);
    BatchKeeps(s, w.recs);
    var s1 := s.(w := w);
    if NoneListed(w.recs) { NoOwnerNoChild(s1); }
    StopMoves(s1, DoStopJoin(s, complete).stop, No);
  }

  /** Changing only the operation sets. */
  lemma OpsMove(s: State, w': Wrapper, stop: StopTask)
    requires Inv(s) && w' == s.w.(active := w'.active, retiring := w'.retiring, opCancel := w'.opCancel)
    requires OpsInv(s.(w := w', stop := stop)) && StopInv(s.(w := w', stop := stop))
    ensures Inv(s.(w := w', stop := stop))
  {
    var s' := s.(w := w', stop := stop);
    forall t: TaskId | Live(s.env, t) ensures Owned(s', t) { assert Owned(s, t); }
  }

  lemma PruneKeepsOps(s: State)
    requires Inv(s)
    ensures OpsInv(s.(w := Prune(s.w, s.doneOps)))
  {
  }

  lemma StopOpsKeeps(s: State)
    requires Inv(s) && s.stop.Attempt? && (s.stop.pc.ObserveOps? || s.stop.pc.ObserveOpsAgain?)
    ensures Inv(DoStopOps(s))
  {
    PruneKeepsOps(s);
    OpsMove(s, Prune(s.w, s.doneOps), DoStopOps(s).stop);
  }

  lemma StopFinishKeeps(s: State)
    requires Inv(s) && s.stop.Attempt? && s.stop.pc.Finishing?
    ensures Inv(s.(w := s.w.(stopping := No), stop := Settled(s.stop.pc.result)))
  {
    var s' := s.(w := s.w.(stopping := No), stop := Settled(s.stop.pc.result));
    forall t: TaskId | Live(s.env, t) ensures Owned(s', t) { assert Owned(s, t); }
  }

  // ----- wrapper operations -----

  lemma RegisterKeeps(s: State, op: OpId)
    requires Inv(s) && op !in s.doneOps && !(s.start.Start? && s.start.op == op) && MayRegister(Prune(s.w, s.doneOps))
    ensures Inv(s.(w := Prune(s.w, s.doneOps).(active := Prune(s.w, s.doneOps).active + {op})))
  {
    var w' := Prune(s.w, s.doneOps).(active := Prune(s.w, s.doneOps).active + {op});
    assert op !in s.opCancels by {
      assert forall o :: o in s.w.retiring ==> o in s.doneOps || o in Prune(s.w, s.doneOps).retiring;
    }
    PruneKeepsOps(s);
    OpsMove(s, w', s.stop);
  }

  lemma UnregisterKeeps(s: State, op: OpId)
    requires Inv(s) && !(s.start.Start? && s.start.op == op)
    ensures Inv(s.(w := WrapperState.Unregister(s.w, op)))
  {
    OpsMove(s, WrapperState.Unregister(s.w, op), s.stop);
  }

  lemma ReleaseOpKeeps(s: State, op: OpId)
    requires Inv(s) && op in s.doneOps
    ensures Inv(s.(w := s.w.(retiring := s.w.retiring - {op}, opCancel := s.w.opCancel - {op})))
  {
    OpsMove(s, s.w.(retiring := s.w.retiring - {op}, opCancel := s.w.opCancel - {op}), s.stop);
  }
}
