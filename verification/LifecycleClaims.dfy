/** Handing children to a retirement record loses nothing and cancels nothing twice. */
module LifecycleClaims {
  import opened Options
  import opened RetirementRecord
  import opened RetirementInvariant
  import opened WrapperState
  import opened LifecycleInvariant

  /** What every caller of _claim_retirement_locked hands over. */
  ghost predicate OfferOk(w: Wrapper, e: Env, o: Offer) {
    && PairOf(e, o.client, o.process)
    && (o.process.Some? ==> o.process.value < e.nextProc)
    && (o.spawn.Some? ==> o.client.None? && o.process.None? && o.spawn.value in e.spawnTasks && w.spawnSlot != o.spawn)
    && (o.spawn.Some? && o.spawn.value !in e.done ==>
          HoldsSpawn(w.recs, o.spawn.value) || (o.spawn.value in e.cancels ==> o.spawnCancel == Yes))
  }

  lemma UnlistedHoldsNothing(recs: seq<Record>, e: Env, i: nat)
    requires RecordsInv(recs, e) && i < |recs| && recs[i].listed == No
    ensures recs[i].spawnTask.None? && recs[i].startupTasks == {}
    ensures recs[i].process.Some? ==> recs[i].process.value in e.reaped
  {
    assert RecordInv(recs[i], e);
  }

  /** A matched record already holds what identifies the child: its spawn task or its process. */
  lemma MatchIsHolder(w: Wrapper, e: Env, o: Offer)
    requires RecordsInv(w.recs, e) && OfferOk(w, e, o) && ClaimIndex(w, o) < |w.recs|
    ensures var r := w.recs[ClaimIndex(w, o)];
      && r.listed == Yes
      && (o.process.Some? ==> r.process == o.process)
      && (o.spawn.Some? ==> r.spawnTask == o.spawn)
  {
    assert RecordInv(w.recs[ClaimIndex(w, o)], e);
  }

  /** A fresh record: nothing that is listed holds the spawn task already. */
  lemma NewRecordKeeps(w: Wrapper, e: Env, o: Offer)
    requires RecordsInv(w.recs, e) && LiveMarks(w, e) && OfferOk(w, e, o) && ClaimIndex(w, o) == |w.recs|
    ensures RecordInv(ClaimedRecord(w, o), e) && MarkInv(ClaimedRecord(w, o), e)
  {
    if Offered(w, o) == {} {} else {}
    if o.spawn.Some? && o.spawn.value !in e.done && HoldsSpawn(w.recs, o.spawn.value) {
      var j :| 0 <= j < |w.recs| && w.recs[j].listed == Yes && w.recs[j].spawnTask == o.spawn;
      assert Listed(w.recs, j) && Matches(w.recs[j], o.client, o.process, o.spawn);
      assert false;
    }
  }

  lemma MatchedRecordKeeps(w: Wrapper, e: Env, o: Offer)
    requires RecordsInv(w.recs, e) && LiveMarks(w, e) && RecordMarks(w.recs, e) && OfferOk(w, e, o)
    requires ClaimIndex(w, o) < |w.recs|
    ensures RecordInv(ClaimedRecord(w, o), e) && MarkInv(ClaimedRecord(w, o), e)
  {
    var i := ClaimIndex(w, o);
    MatchIsHolder(w, e, o);
    assert RecordInv(w.recs[i], e) && MarkInv(w.recs[i], e);
    if Offered(w, o) == {} {} else {}
  }

  lemma ClaimedRecordKeeps(w: Wrapper, e: Env, o: Offer)
    requires RecordsInv(w.recs, e) && LiveMarks(w, e) && RecordMarks(w.recs, e) && OfferOk(w, e, o)
    ensures RecordInv(ClaimedRecord(w, o), e) && MarkInv(ClaimedRecord(w, o), e)
    ensures ClaimedRecord(w, o).listed == Yes
    ensures o.spawn.Some? ==> ClaimedRecord(w, o).spawnTask == o.spawn
    ensures o.process.Some? ==> ClaimedRecord(w, o).process == o.process
    ensures ClaimIndex(w, o) < |w.recs| ==>
      var r := w.recs[ClaimIndex(w, o)];
      ClaimedRecord(w, o).spawnTask == r.spawnTask && ClaimedRecord(w, o).process == r.process
      && ClaimedRecord(w, o).startupTasks == r.startupTasks + Offered(w, o)
    ensures ClaimIndex(w, o) == |w.recs| ==>
      ClaimedRecord(w, o).spawnTask == o.spawn && ClaimedRecord(w, o).startupTasks == Offered(w, o)
  {
    if ClaimIndex(w, o) < |w.recs| {
      MatchIsHolder(w, e, o);
      MatchedRecordKeeps(w, e, o);
    } else {
      NewRecordKeeps(w, e, o);
    }
  }

  lemma ClaimShape(w: Wrapper, o: Offer)
    requires !Empty(w, o)
    ensures var i := ClaimIndex(w, o); var w' := Claim(w, o);
      && w'.recs == (if i < |w.recs| then w.recs[i := ClaimedRecord(w, o)] else w.recs + [ClaimedRecord(w, o)])
      && w'.live == w.live - Offered(w, o)
      && (Offered(w, o) == {} ==> w'.liveCancel == w.liveCancel)
      && w' == w.(recs := w'.recs, live := w'.live, liveCancel := w'.liveCancel)
  {
    if ClaimIndex(w, o) < |w.recs| {} else {}
    if Offered(w, o) == {} {} else {}
  }

  lemma ClaimKeepsRecords(w: Wrapper, e: Env, o: Offer)
    requires RecordsInv(w.recs, e) && CancelInv(w, e) && OfferOk(w, e, o)
    ensures RecordsInv(Claim(w, o).recs, e)
  {
    if !Empty(w, o) {
      ClaimShape(w, o);
      ClaimedRecordKeeps(w, e, o);
    }
  }

  lemma ClaimKeepsSpawnExclusive(w: Wrapper, e: Env, o: Offer)
    requires RecordsInv(w.recs, e) && CancelInv(w, e) && OfferOk(w, e, o) && !Empty(w, o)
    ensures SpawnExclusive(Claim(w, o), e)
  {
    var i := ClaimIndex(w, o);
    var w' := Claim(w, o);
    ClaimShape(w, o);
    ClaimedRecordKeeps(w, e, o);
    assert forall j :: 0 <= j < |w.recs| && j != i ==> w'.recs[j] == w.recs[j];
    if i == |w.recs| && o.spawn.Some? {
      forall j | 0 <= j < |w.recs| ensures w.recs[j].spawnTask != o.spawn {
        if w.recs[j].listed == No { UnlistedHoldsNothing(w.recs, e, j); }
        else { assert !(Listed(w.recs, j) && Matches(w.recs[j], o.client, o.process, o.spawn)); }
      }
    }
  }

  lemma ClaimKeepsStartupExclusive(w: Wrapper, e: Env, o: Offer)
    requires RecordsInv(w.recs, e) && CancelInv(w, e) && OfferOk(w, e, o) && !Empty(w, o)
    ensures StartupExclusive(Claim(w, o))
  {
    var i := ClaimIndex(w, o);
    var w' := Claim(w, o);
    ClaimShape(w, o);
    ClaimedRecordKeeps(w, e, o);
    assert forall j :: 0 <= j < |w.recs| && j != i ==> w'.recs[j] == w.recs[j];
  }

  lemma ClaimKeepsCancel(w: Wrapper, e: Env, o: Offer)
    requires RecordsInv(w.recs, e) && CancelInv(w, e) && OfferOk(w, e, o)
    ensures CancelInv(Claim(w, o), e)
  {
    if !Empty(w, o) {
      var i := ClaimIndex(w, o);
      var w' := Claim(w, o);
      ClaimShape(w, o);
      ClaimedRecordKeeps(w, e, o);
      ClaimKeepsSpawnExclusive(w, e, o);
      ClaimKeepsStartupExclusive(w, e, o);
      forall j | 0 <= j < |w'.recs| ensures MarkInv(w'.recs[j], e) {
        if j != i { assert w'.recs[j] == w.recs[j] && MarkInv(w.recs[j], e); }
      }
    }
  }

  /** A claim keeps every holder and makes the record a holder of what was offered. */
  lemma ClaimHolds(w: Wrapper, e: Env, o: Offer)
    requires RecordsInv(w.recs, e) && CancelInv(w, e) && OfferOk(w, e, o)
    ensures var recs' := Claim(w, o).recs;
      && (forall t :: HoldsSpawn(w.recs, t) ==> HoldsSpawn(recs', t))
      && (forall p :: HoldsProcess(w.recs, p) ==> HoldsProcess(recs', p))
      && (o.spawn.Some? ==> HoldsSpawn(recs', o.spawn.value))
      && (o.process.Some? ==> HoldsProcess(recs', o.process.value))
  {
    if !Empty(w, o) {
      var i := ClaimIndex(w, o);
      var recs' := Claim(w, o).recs;
      ClaimShape(w, o);
      ClaimedRecordKeeps(w, e, o);
      assert i < |recs'| && recs'[i] == ClaimedRecord(w, o);
      assert forall j :: 0 <= j < |w.recs| && j != i ==> recs'[j] == w.recs[j];
      forall t: TaskId | HoldsSpawn(w.recs, t) ensures HoldsSpawn(recs', t) {
        var j :| 0 <= j < |w.recs| && w.recs[j].listed == Yes && w.recs[j].spawnTask == Some(t);
        assert recs'[j].listed == Yes && recs'[j].spawnTask == Some(t);
      }
      forall p: ProcId | HoldsProcess(w.recs, p) ensures HoldsProcess(recs', p) {
        var j :| 0 <= j < |w.recs| && w.recs[j].listed == Yes && w.recs[j].process == Some(p);
        assert recs'[j].listed == Yes && recs'[j].process == Some(p);
      }
    }
  }
}
