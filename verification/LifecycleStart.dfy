/** Every section of the start coroutine keeps the invariant. */
module LifecycleStart {
  import opened Options
  import opened RetirementRecord
  import opened RetirementInvariant
  import opened WrapperState
  import opened Lifecycle
  import opened LifecycleInvariant
  import opened LifecycleOutside
  import opened LifecycleRecords
  import opened LifecycleClaims

  /** Claiming, publishing and cancelling leave the rest of the wrapper alone. */
  predicate SameSlots(w: Wrapper, w': Wrapper) {
    && w'.starting == w.starting && w'.startingGen == w.startingGen && w'.uncertainGen == w.uncertainGen
    && w'.startSettled == w.startSettled && w'.stopping == w.stopping
    && w'.active == w.active && w'.retiring == w.retiring && w'.opCancel == w.opCancel
  }

  /** If nobody owns a child any more, there is none. */
  lemma NoOwnerNoChild(s: State)
    requires OwnInv(s) && Unpublished(s.w) && s.w.spawnSlot.None? && NoneListed(s.w.recs)
    requires !AtStart(s, Claiming)
    ensures NoChild(s.env)
  {
    forall t: TaskId ensures !Owned(s, t) {}
  }

  lemma AdmitKeeps(s: State, op: OpId)
    requires Inv(s) && s.start.NoStart? && op in s.w.active && op !in s.doneOps && MayAdmit(ClearUncertainty(s.w))
    ensures NoChild(s.env)
    ensures Inv(DoAdmit(s, op))
  {
    NoOwnerNoChild(s);
    var s' := DoAdmit(s, op);
    var t := s.env.nextTask;
    assert ClearUncertainty(s.w) == s.w;
    RecordsSurvive(s.w.recs, s.env, s'.env);
    forall u: TaskId | Live(s'.env, u) ensures u == t {
      assert !Live(s.env, u);
    }
    assert Owned(s', t);
    assert CancelInv(s'.w, s'.env) by {
      forall i | 0 <= i < |s.w.recs| ensures MarkInv(s.w.recs[i], s'.env) && s.w.recs[i].spawnTask != Some(t) {
        assert MarkInv(s.w.recs[i], s.env) && RecordInv(s.w.recs[i], s.env);
      }
    }
  }

  /** Moving the start coroutine on, with the wrapper and the world as they are. */
  lemma StartMoves(s: State, st: Start)
    requires Inv(s) && s.start.Start? && st.Start? && InFlight(s.start) && InFlight(st)
    requires st.op == s.start.op && st.gen == s.start.gen && (s.start.cancelled == Yes ==> st.cancelled == Yes)
    requires forall p :: StartHolds(s.start, p) ==> StartHolds(st, p) || HoldsProcess(s.w.recs, p)
    requires StartInv(s.(start := st))
    ensures Inv(s.(start := st))
  {
    var s' := s.(start := st);
    forall t: TaskId | Live(s.env, t) ensures Owned(s', t) {
      assert Owned(s, t);
    }
  }

  lemma CancelStartKeeps(s: State)
    requires Inv(s) && s.start.Start?
    ensures Inv(s.(start := s.start.(cancelled := Yes)))
  {
    var s' := s.(start := s.start.(cancelled := Yes));
    forall t: TaskId | Live(s.env, t) ensures Owned(s', t) {
      assert Owned(s, t);
    }
  }

  // ----- the spawn phase -----

  lemma SlotCancelKeeps(s: State, t: TaskId)
    requires Inv(s) && s.w.spawnSlot == Some(t) && s.w.spawnSlotCancel == No && t !in s.env.done
    ensures Inv(s.(w := s.w.(spawnSlotCancel := Yes), env := s.env.(cancels := s.env.cancels + multiset{t})))
  {
    var w' := s.w.(spawnSlotCancel := Yes);
    var e' := s.env.(cancels := s.env.cancels + multiset{t});
    var s' := s.(w := w', env := e');
    RecordsSurvive(s.w.recs, s.env, e');
    assert CancelInv(w', e') by {
      forall i | 0 <= i < |s.w.recs| ensures MarkInv(s.w.recs[i], e') {
        assert MarkInv(s.w.recs[i], s.env) && RecordInv(s.w.recs[i], s.env);
      }
    }
    forall u: TaskId | Live(e', u) ensures Owned(s', u) {
      assert Live(s.env, u) && Owned(s, u);
    }
    assert forall u :: Live(e', u) ==> Live(s.env, u);
    assert NoChild(s.env) ==> NoChild(e');
  }

  lemma RecordCancelsSpawn(s: State, i: nat, t: TaskId)
    requires Inv(s) && RecordAt(s, i) && s.w.recs[i].spawnTask == Some(t)
    ensures var (r, e) := CancelSpawnOnce(s.w.recs[i], s.env, t); Inv(SetRecord(s.(env := e), i, r))
  {
    var r := s.w.recs[i];
    assert RecordInv(r, s.env) && MarkInv(r, s.env);
    var (r', e') := CancelSpawnOnce(r, s.env, t);
    CancelSpawnOnceOwn(r, s.env);
    if t in s.env.done || r.spawnCancelRequested == Yes {} else {}
    assert RecordStep(r, s.env, r', e');
    RecordStepKeeps(s, i, r', e');
  }

  lemma RecordCancelsStartup(s: State, i: nat, t: TaskId)
    requires Inv(s) && RecordAt(s, i) && t in s.w.recs[i].startupTasks
    ensures var (r, e) := CancelStartupOnce(s.w.recs[i], s.env, {t}); Inv(SetRecord(s.(env := e), i, r))
  {
    var r := s.w.recs[i];
    assert RecordInv(r, s.env) && MarkInv(r, s.env);
    var (r', e') := CancelStartupOnce(r, s.env, {t});
    CancelStartupOnceOwn(r, s.env, {t});
    MarkedRecordKeeps(r, s.env, r', e');
    RecordStepKeeps(s, i, r', e');
  }

  /** Adding cancellations and their marks is a record step. */
  lemma MarkedRecordKeeps(r: Record, e: Env, r': Record, e': Env)
    requires RecordInv(r, e) && EnvInv(e) && CancelsOwn(r, e, e') && MarkInv(r', e')
    requires e' == e.(cancels := e'.cancels)
    requires r' == r.(startupCancelRequested := r'.startupCancelRequested)
    ensures RecordStep(r, e, r', e')
  {
    EnvGrowthKeepsRecord(r, e, e');
  }

  /** A cancellation moves nothing. */
  lemma CancelSpawnFrame(s: State, t: TaskId)
    requires Inv(s)
    ensures var s' := CancelSpawn(s, t);
      && SameSlots(s.w, s'.w) && s'.start == s.start && s'.w.spawnSlot == s.w.spawnSlot
      && s'.w.pubClient == s.w.pubClient && s'.w.pubProcess == s.w.pubProcess
      && EnvGrows(s.env, s'.env) && s'.env.nextProc == s.env.nextProc
  {
    if t in s.env.done {
    } else if s.w.spawnSlot == Some(t) {
      if s.w.spawnSlotCancel == No {} else {}
    } else {
      match FindMatch(s.w.recs, None, None, Some(t), 0)
      case None =>
      case Some(i) => if s.w.recs[i].spawnCancelRequested == Yes {} else {}
    }
  }

  lemma CancelSpawnKeeps(s: State, t: TaskId)
    requires Inv(s) && t in s.env.spawnTasks
    ensures Inv(CancelSpawn(s, t))
  {
    if t in s.env.done {
    } else if s.w.spawnSlot == Some(t) {
      if s.w.spawnSlotCancel == No { SlotCancelKeeps(s, t); }
    } else {
      match FindMatch(s.w.recs, None, None, Some(t), 0)
      case None =>
      case Some(i) =>
        RecordCancelsSpawn(s, i, t);
    }
  }

  /** Publishing the pair hands the spawned process from the slot to the public fields. */
  lemma PublishPairOwns(s: State, t: TaskId)
    requires Inv(s) && AtStart(s, Spawning) && s.start.spawn == Some(t) && s.w.spawnSlot == Some(t)
    requires t in s.env.results && s.env.results[t] in s.env.pipes && t in s.env.done
    ensures OwnInv(Publish(s, t)) && AtMostOneChild(Publish(s, t).env)
  {
    var s' := Publish(s, t);
    assert forall u :: Live(s'.env, u) ==> Live(s.env, u);
    forall u: TaskId | Live(s'.env, u) ensures Owned(s', u) {
      assert Live(s.env, u) && Owned(s, u);
    }
  }

  lemma PublishPair(s: State, t: TaskId)
    requires Inv(s) && AtStart(s, Spawning) && s.start.spawn == Some(t) && s.start.cancelled == No && t in s.env.done
    requires t in s.env.results && s.env.results[t] in s.env.pipes
    ensures Inv(Publish(s, t))
  {
    var s' := Publish(s, t);
    assert s.w.spawnSlot == Some(t);
    RecordsSurvive(s.w.recs, s.env, s'.env);
    MarksSurvive(TakeSpawnSlot(s.w), s.env, s'.env) by { assert LiveShrinks(s.env, s'.env); }
    PublishPairOwns(s, t);
  }

  lemma PublishKeeps(s: State, t: TaskId)
    requires Inv(s) && AtStart(s, Spawning) && s.start.spawn == Some(t) && s.start.cancelled == No && t in s.env.done
    ensures Inv(Publish(s, t))
  {
    var s' := Publish(s, t);
    assert s.w.spawnSlot == Some(t);
    if t !in s.env.results {
      StartMoves(s, s.start.(pc := Claiming));
    } else if s.env.results[t] in s.env.pipes {
      PublishPair(s, t);
    } else {
      forall u: TaskId | Live(s'.env, u) ensures Owned(s', u) {
        assert Live(s.env, u) && Owned(s, u);
      }
    }
  }

  lemma SpawnResumeKeeps(s: State)
    requires Inv(s) && AtStart(s, Spawning)
    ensures Inv(DoSpawnResume(s))
  {
    var t := s.start.spawn.value;
    if s.start.cancelled == Yes || t !in s.env.done {
      CancelSpawnKeeps(s, t);
      CancelSpawnFrame(s, t);
      var s1 := CancelSpawn(s, t);
      StartMoves(s1, s1.start.(pc := Claiming));
    } else {
      PublishKeeps(s, t);
    }
  }

  // ----- the startup phases -----

  lemma BeginPhaseKeeps(s: State)
    requires Inv(s) && AtStart(s, Phases)
    ensures Inv(DoBeginPhase(s))
  {
    var s' := DoBeginPhase(s);
    var t := s.env.nextTask;
    RecordsSurvive(s.w.recs, s.env, s'.env);
    assert CancelInv(s'.w, s'.env) by {
      forall i | 0 <= i < |s.w.recs| ensures MarkInv(s.w.recs[i], s'.env) && t !in s.w.recs[i].startupTasks {
        assert MarkInv(s.w.recs[i], s.env) && RecordInv(s.w.recs[i], s.env);
      }
    }
    assert forall u :: Live(s'.env, u) ==> Live(s.env, u);
    forall u: TaskId | Live(s'.env, u) ensures Owned(s', u) {
      assert Live(s.env, u) && Owned(s, u);
    }
  }

  /** Marking and cancelling a live startup task: no record holds it. */
  lemma LiveCancelMarks(w: Wrapper, e: Env, t: TaskId)
    requires RecordsInv(w.recs, e) && CancelInv(w, e) && t in w.live && t !in w.liveCancel && t !in e.done
    ensures CancelInv(w.(liveCancel := w.liveCancel + {t}), e.(cancels := e.cancels + multiset{t}))
  {
    var e' := e.(cancels := e.cancels + multiset{t});
    forall i | 0 <= i < |w.recs| ensures MarkInv(w.recs[i], e') {
      assert MarkInv(w.recs[i], e) && RecordInv(w.recs[i], e);
    }
  }

  lemma LiveCancelKeeps(s: State, t: TaskId)
    requires Inv(s) && t in s.w.live && t !in s.w.liveCancel && t !in s.env.done
    ensures Inv(s.(w := s.w.(liveCancel := s.w.liveCancel + {t}), env := s.env.(cancels := s.env.cancels + multiset{t})))
  {
    var w' := s.w.(liveCancel := s.w.liveCancel + {t});
    var e' := s.env.(cancels := s.env.cancels + multiset{t});
    var s' := s.(w := w', env := e');
    RecordsSurvive(s.w.recs, s.env, e');
    LiveCancelMarks(s.w, s.env, t);
    forall u: TaskId | Live(e', u) ensures Owned(s', u) {
      assert Live(s.env, u) && Owned(s, u);
    }
    assert forall u :: Live(e', u) ==> Live(s.env, u);
    assert NoChild(s.env) ==> NoChild(e');
  }

  lemma CancelPhaseKeeps(s: State, t: TaskId)
    requires Inv(s)
    ensures Inv(CancelPhase(s, t))
    ensures var s' := CancelPhase(s, t);
      && SameSlots(s.w, s'.w) && s'.start == s.start && s'.w.spawnSlot == s.w.spawnSlot
      && s'.w.pubClient == s.w.pubClient && s'.w.pubProcess == s.w.pubProcess
      && EnvGrows(s.env, s'.env) && s'.env.nextProc == s.env.nextProc
  {
    if t in s.env.done {
    } else if t in s.w.live {
      if t !in s.w.liveCancel { LiveCancelKeeps(s, t); }
    } else {
      match FindStartup(s.w.recs, t, 0)
      case None =>
      case Some(i) =>
        RecordCancelsStartup(s, i, t);
    }
  }

  lemma PhaseResumeKeeps(s: State, ok: Flag)
    requires Inv(s) && AtStart(s, Phases) && s.start.phase.Some?
    ensures Inv(DoPhaseResume(s, ok))
  {
    var t := s.start.phase.value;
    if s.start.cancelled == No && t in s.env.done && ok == Yes {
      StartMoves(s, s.start.(phase := None));
    } else {
      CancelPhaseKeeps(s, t);
      var s1 := CancelPhase(s, t);
      StartMoves(s1, s1.start.(pc := Claiming));
    }
  }

  lemma LiveSettlesKeeps(s: State, t: TaskId)
    requires Inv(s)
    ensures Inv(s.(w := s.w.(live := s.w.live - {t}, liveCancel := s.w.liveCancel - {t})))
  {
    var s' := s.(w := s.w.(live := s.w.live - {t}, liveCancel := s.w.liveCancel - {t}));
    forall u: TaskId | Live(s.env, u) ensures Owned(s', u) {
      assert Owned(s, u);
    }
  }

  // ----- the retirement claim of a failed start -----

  /** What a start coroutine may hand to _retire_startup_child. */
  ghost predicate Claimable(s: State, c: Option<ClientId>, p: Option<ProcId>, t: Option<TaskId>) {
    && PairOf(s.env, c, p)
    && (p.Some? ==> p.value < s.env.nextProc)
    && (t.Some? ==> c.None? && p.None? && t.value in s.env.spawnTasks)
    && (Unpublished(s.w) || (c.Some? && s.w.pubClient == c && s.w.pubProcess == p))
    && (s.w.spawnSlot.None? || s.w.spawnSlot == t)
  }

  lemma RetireStartupChildKeeps(s: State, c: Option<ClientId>, p: Option<ProcId>, t: Option<TaskId>)
    requires Inv(s) && Claimable(s, c, p, t)
    ensures var w' := RetireStartupChild(s.w, c, p, t);
      && RecordsInv(w'.recs, s.env) && CancelInv(w', s.env) && SameSlots(s.w, w')
      && Unpublished(w') && w'.spawnSlot.None?
      && (forall u :: HoldsSpawn(s.w.recs, u) ==> HoldsSpawn(w'.recs, u))
      && (forall q :: HoldsProcess(s.w.recs, q) ==> HoldsProcess(w'.recs, q))
      && (t.Some? ==> HoldsSpawn(w'.recs, t.value))
      && (p.Some? ==> HoldsProcess(w'.recs, p.value))
      && (NoneListed(s.w.recs) && c.Some? ==> |w'.recs| > |s.w.recs|)
  {
    var w1 := if IsPublished(s.w, c, p) then Unpublish(s.w) else s.w;
    var w2 := if w1.spawnSlot == t then TakeSpawnSlot(w1) else w1;
    var o := Offer(c, p, Yes, t, if w1.spawnSlot == t then w1.spawnSlotCancel else No);
    assert RetireStartupChild(s.w, c, p, t) == Claim(w2, o);
    assert CancelInv(w2, s.env);
    assert OfferOk(w2, s.env, o) by {
      if t.Some? && t.value !in s.env.done && s.w.spawnSlot != t {
        assert Live(s.env, t.value) && Owned(s, t.value);
      }
    }
    ClaimKeepsRecords(w2, s.env, o);
    ClaimKeepsCancel(w2, s.env, o);
    ClaimHolds(w2, s.env, o);
    if !Empty(w2, o) { ClaimShape(w2, o); }
  }

  lemma StartClaimKeeps(s: State)
    requires Inv(s) && AtStart(s, Claiming)
    ensures Inv(s.(w := RetireStartupChild(s.w, s.start.client, s.start.process, s.start.spawn),
                   start := s.start.(pc := Claimed, claimed := Yes)))
  {
    RetireStartupChildKeeps(s, s.start.client, s.start.process, s.start.spawn);
    var s' := s.(w := RetireStartupChild(s.w, s.start.client, s.start.process, s.start.spawn),
                 start := s.start.(pc := Claimed, claimed := Yes));
    forall t: TaskId | Live(s.env, t) ensures Owned(s', t) {
      assert Owned(s, t);
    }
  }

  lemma FinalizeKeeps(s: State)
    requires Inv(s) && AtStart(s, Finalizing)
    ensures Inv(s.(w := FinalizeStart(s.w, s.start.gen), start := s.start.(pc := Tail)))
  {
    var s' := s.(w := FinalizeStart(s.w, s.start.gen), start := s.start.(pc := Tail));
    forall t: TaskId | Live(s.env, t) ensures Owned(s', t) {
      assert Owned(s, t);
    }
  }

  lemma TailClaimKeeps(s: State)
    requires Inv(s) && AtStart(s, Tail) && s.start.claimed == No && s.start.cancelled == Yes
    ensures Inv(DoTailClaim(s))
  {
    RetireStartupChildKeeps(s, s.start.client, s.start.process, None);
    var s' := DoTailClaim(s);
    forall t: TaskId | Live(s.env, t) ensures Owned(s', t) {
      assert Owned(s, t);
    }
  }

  lemma StartEndKeeps(s: State)
    requires Inv(s) && AtStart(s, Tail) && (s.start.claimed == Yes || s.start.cancelled == No)
    ensures Inv(DoStartEnd(s))
  {
    var s' := DoStartEnd(s);
    forall t: TaskId | Live(s.env, t) ensures Owned(s', t) {
      assert Owned(s, t);
    }
  }

  lemma RetireTerminalKeeps(s: State)
    requires Inv(s) && s.start.NoStart? && Terminal(s)
    ensures Inv(s.(w := RetireTerminalChild(s.w)))
  {
    var w1 := Unpublish(s.w);
    var o := Offer(s.w.pubClient, s.w.pubProcess, No, None, No);
    ClaimKeepsRecords(w1, s.env, o);
    ClaimKeepsCancel(w1, s.env, o);
    ClaimHolds(w1, s.env, o);
    ClaimShape(w1, o);
    var s' := s.(w := RetireTerminalChild(s.w));
    forall t: TaskId | Live(s.env, t) ensures Owned(s', t) {
      assert Owned(s, t);
    }
  }
}
