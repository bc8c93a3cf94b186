/**
  The in-memory state of SubprocessIsolatedFeatureClient and the updates it makes
  while holding `_state_lock` (or without any suspension point).
 */
module WrapperState {
  import opened Options
  import opened RetirementRecord

  datatype Wrapper = Wrapper(
    pubClient: Option<ClientId>,
    pubProcess: Option<ProcId>,
    generation: nat,
    starting: Flag,
    startingGen: Option<nat>,
    uncertainGen: Option<nat>,
    startSettled: Flag,
    stopping: Flag,
    spawnSlot: Option<TaskId>,
    spawnSlotCancel: Flag,
    live: set<TaskId>,               // _startup_tasks
    liveCancel: set<TaskId>,         // _startup_cancel_requested
    active: set<OpId>,
    retiring: set<OpId>,
    opCancel: set<OpId>,
    recs: seq<Record>                // every record ever created; _retirements are the listed ones
  )

  predicate Listed(recs: seq<Record>, i: nat) {
    i < |recs| && recs[i].listed == Yes
  }

  predicate NoneListed(recs: seq<Record>) {
    forall i :: 0 <= i < |recs| ==> recs[i].listed == No
  }

  /** The identity test of _claim_retirement_locked. */
  predicate Matches(r: Record, c: Option<ClientId>, p: Option<ProcId>, t: Option<TaskId>) {
    || (c.Some? && r.client == c)
    || (p.Some? && r.process == p)
    || (t.Some? && r.spawnTask == t)
  }

  /** The first listed record that matches, searching from `from`. */
  function FindMatch(recs: seq<Record>, c: Option<ClientId>, p: Option<ProcId>, t: Option<TaskId>, from: nat): (found: Option<nat>)
    requires from <= |recs|
    ensures found.Some? ==> from <= found.value < |recs| && Listed(recs, found.value) && Matches(recs[found.value], c, p, t)
    ensures forall i :: from <= i < (if found.Some? then found.value else |recs|) ==>
                          !(Listed(recs, i) && Matches(recs[i], c, p, t))
    decreases |recs| - from
  {
    if from == |recs| then None
    else if Listed(recs, from) && Matches(recs[from], c, p, t) then Some(from)
    else FindMatch(recs, c, p, t, from + 1)
  }

  /** _adopt_retired_startup_tasks_locked together with the transfer of the cancel marks. */
  function AdoptStartup(r: Record, ts: set<TaskId>, cancelled: set<TaskId>): Record {
    if ts == {} then r
    else r.(startupTasks := r.startupTasks + ts, attached := r.attached + ts,
            startupCancelRequested := r.startupCancelRequested + cancelled)
  }

  function AdoptSpawnTask(r: Record, t: Option<TaskId>, cancelled: Flag): Record {
    if t.None? then r
    else if r.spawnTask.None? then r.(spawnTask := t, spawnHeld := r.spawnHeld + {t.value}, spawnCancelRequested := cancelled)
    else if cancelled == Yes then r.(spawnCancelRequested := Yes)
    else r
  }

  /** What a claim offers: the live startup set is passed by reference, or not at all. */
  datatype Offer = Offer(client: Option<ClientId>, process: Option<ProcId>, withStartup: Flag,
                         spawn: Option<TaskId>, spawnCancel: Flag)

  predicate Empty(w: Wrapper, o: Offer) {
    o.client.None? && o.process.None? && o.spawn.None? && (o.withStartup == No || w.live == {})
  }

  function Offered(w: Wrapper, o: Offer): set<TaskId> {
    if o.withStartup == Yes then w.live else {}
  }

  /** The record a claim ends in: an existing match, or the next free position. */
  function ClaimIndex(w: Wrapper, o: Offer): (i: nat)
    ensures i <= |w.recs|
  {
    match FindMatch(w.recs, o.client, o.process, o.spawn, 0)
    case Some(i) => i
    case None => |w.recs|
  }

  function ClaimedRecord(w: Wrapper, o: Offer): Record {
    var i := ClaimIndex(w, o);
    if i < |w.recs| then
      AdoptSpawnTask(AdoptStartup(w.recs[i], Offered(w, o), w.liveCancel), o.spawn, o.spawnCancel)
    else
      AdoptStartup(NewRecord(o.client, o.process, o.spawn, o.spawnCancel), Offered(w, o), w.liveCancel)
  }

  /** _claim_retirement_locked. */
  function Claim(w: Wrapper, o: Offer): Wrapper {
    if Empty(w, o) then w
    else
      var i := ClaimIndex(w, o);
      var r := ClaimedRecord(w, o);
      var recs := if i < |w.recs| then w.recs[i := r] else w.recs + [r];
      if Offered(w, o) == {} then w.(recs := recs)
      else w.(recs := recs, live := {}, liveCancel := {})
  }

  predicate StartIsSettled(w: Wrapper, gen: nat) {
    w.startingGen != Some(gen) && w.startSettled == Yes
  }

  /** _clear_settled_start_uncertainty_locked. */
  function ClearUncertainty(w: Wrapper): Wrapper {
    if w.uncertainGen.Some? && StartIsSettled(w, w.uncertainGen.value) then w.(uncertainGen := None) else w
  }

  /** The admission test of _start, for an unpublished wrapper with no stop task running. */
  predicate MayAdmit(w: Wrapper) {
    && w.pubProcess.None? && w.pubClient.None?
    && w.stopping == No && w.starting == No && w.uncertainGen.None?
    && NoneListed(w.recs) && w.retiring == {}
  }

  /** Admit one start and put its spawn task in the live slot. */
  function Admit(w: Wrapper, t: TaskId): Wrapper {
    w.(starting := Yes, startingGen := Some(w.generation), startSettled := No,
       spawnSlot := Some(t), spawnSlotCancel := No)
  }

  /** _finalize_start. */
  function FinalizeStart(w: Wrapper, gen: nat): Wrapper {
    if w.startingGen != Some(gen) then w
    else w.(starting := No, startingGen := None, startSettled := Yes,
            uncertainGen := if w.uncertainGen == Some(gen) then None else w.uncertainGen)
  }

  predicate IsPublished(w: Wrapper, c: Option<ClientId>, p: Option<ProcId>) {
    (c.Some? || p.Some?) && w.pubClient == c && w.pubProcess == p
  }

  function Unpublish(w: Wrapper): Wrapper {
    w.(pubClient := None, pubProcess := None, generation := w.generation + 1)
  }

  function TakeSpawnSlot(w: Wrapper): Wrapper {
    w.(spawnSlot := None, spawnSlotCancel := No)
  }

  /** The locked section of _retire_startup_child. */
  function RetireStartupChild(w: Wrapper, c: Option<ClientId>, p: Option<ProcId>, t: Option<TaskId>): Wrapper {
    var w1 := if IsPublished(w, c, p) then Unpublish(w) else w;
    if w1.spawnSlot == t then Claim(TakeSpawnSlot(w1), Offer(c, p, Yes, t, w1.spawnSlotCancel))
    else Claim(w1, Offer(c, p, Yes, t, No))
  }

  /** The detaching section of _retire_terminal_published_child. */
  function RetireTerminalChild(w: Wrapper): Wrapper {
    Claim(Unpublish(w), Offer(w.pubClient, w.pubProcess, No, None, No))
  }

  /** The operations a stop attempt transfers. */
  function Transferred(w: Wrapper, caller: Option<OpId>, doneOps: set<OpId>): set<OpId> {
    set o | o in w.active && o !in doneOps && caller != Some(o)
  }

  /** The detaching section of _run_stop_attempt. */
  function StopDetach(w: Wrapper, caller: Option<OpId>, doneOps: set<OpId>): Wrapper {
    var ops := Transferred(w, caller, doneOps);
    var w1 := Unpublish(ClearUncertainty(w.(stopping := Yes)))
              .(active := w.active - ops, retiring := w.retiring + ops, opCancel := w.opCancel + ops);
    if w.startingGen.None? then
      Claim(w1, Offer(w.pubClient, w.pubProcess, No, None, w.spawnSlotCancel))
    else if w.spawnSlot.None? then
      Claim(w1, Offer(w.pubClient, w.pubProcess, Yes, None, w.spawnSlotCancel))
    else
      Claim(TakeSpawnSlot(w1), Offer(w.pubClient, w.pubProcess, Yes, w.spawnSlot, w.spawnSlotCancel))
  }

  /** A finished retire task that a later stop must run again. */
  predicate NeedsRerun(r: Record) {
    r.listed == Yes && r.task.Finished? && (r.task.result == No || r.startupTasks != {} || r.spawnTask.Some?)
  }

  function Rerun(r: Record): Record {
    if NeedsRerun(r) then r.(task := FreshRun) else r
  }

  /** The first locked section of _reap_owned_children. */
  function RerunAll(w: Wrapper): Wrapper {
    var w1 := ClearUncertainty(w);
    w1.(recs := seq(|w.recs|, i requires 0 <= i < |w.recs| => Rerun(w.recs[i])))
  }

  /** _remove_retirement_if_complete_locked. */
  function RemoveIfComplete(r: Record): Record {
    if r.startupTasks == {} && r.spawnTask.None? then r.(listed := No) else r
  }

  function RemoveAll(w: Wrapper, complete: set<nat>): Wrapper {
    var w1 := w.(recs := seq(|w.recs|, i requires 0 <= i < |w.recs| =>
                   if i in complete && w.recs[i].listed == Yes then RemoveIfComplete(w.recs[i]) else w.recs[i]));
    ClearUncertainty(w1)
  }

  /** _prune_completed_operations_locked. */
  function Prune(w: Wrapper, doneOps: set<OpId>): Wrapper {
    var completed := (w.active + w.retiring) * doneOps;
    w.(active := w.active - completed, retiring := w.retiring - completed, opCancel := w.opCancel - completed)
  }

  /** The admission test of _register_operation, after pruning. */
  predicate MayRegister(w: Wrapper) {
    w.stopping == No && w.retiring == {} && NoneListed(w.recs) && w.uncertainGen.None?
  }

  /** _unregister_operation. */
  function Unregister(w: Wrapper, o: OpId): Wrapper {
    if o in w.retiring then w.(active := w.active - {o})
    else w.(active := w.active - {o}, opCancel := w.opCancel - {o})
  }
}
