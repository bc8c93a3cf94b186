/**
  SubprocessIsolatedFeatureClient as an object: its fields, and the sections it runs while
  holding `_state_lock`.  Each method changes the fields one by one, in the order of the client
  class, and is proved to make exactly the update the transition system uses.
 */
module SubprocessClient {
  import opened Options
  import opened RetirementRecord
  import WrapperState
  import Lifecycle
  import LifecycleStop

  class SubprocessIsolatedFeatureClient {
    var client: Option<ClientId>
    var process: Option<ProcId>
    var generation: nat
    var starting: Flag
    var startingGeneration: Option<nat>
    var startUncertainGeneration: Option<nat>
    var startSettled: Flag
    var stopping: Flag
    var spawnTask: Option<TaskId>
    var spawnCancelRequested: Flag
    var startupTasks: set<TaskId>
    var startupCancelRequested: set<TaskId>
    var activeOperations: set<OpId>
    var retiringOperations: set<OpId>
    var operationCancelRequested: set<OpId>
    var retirements: seq<Record>

    /** The fields as one value. */
    ghost function View(): WrapperState.Wrapper
      reads this
    {
      WrapperState.Wrapper(client, process, generation, starting, startingGeneration, startUncertainGeneration,
                           startSettled, stopping, spawnTask, spawnCancelRequested, startupTasks,
                           startupCancelRequested, activeOperations, retiringOperations,
                           operationCancelRequested, retirements)
    }

    constructor ()
      ensures View() == Lifecycle.Initial.w
    {
      client, process, generation := None, None, 0;
      starting, startingGeneration, startUncertainGeneration, startSettled := No, None, None, Yes;
      stopping, spawnTask, spawnCancelRequested := No, None, No;
      startupTasks, startupCancelRequested := {}, {};
      activeOperations, retiringOperations, operationCancelRequested := {}, {}, {};
      retirements := [];
    }

    /** Search the listed records, then adopt into the match or append a new record. */
    method ClaimRetirementLocked(o: WrapperState.Offer)
      modifies this
      ensures View() == WrapperState.Claim(old(View()), o)
    {
      var tasks := if o.withStartup == Yes then startupTasks else {};
      if o.client.None? && o.process.None? && tasks == {} && o.spawn.None? {
        return;
      }
      var i := 0;
      while i < |retirements|
        invariant i <= |retirements| && View() == old(View())
        invariant WrapperState.FindMatch(retirements, o.client, o.process, o.spawn, 0)
               == WrapperState.FindMatch(retirements, o.client, o.process, o.spawn, i)
      {
        if retirements[i].listed == Yes && WrapperState.Matches(retirements[i], o.client, o.process, o.spawn) {
          break;
        }
        i := i + 1;
      }
      if i < |retirements| {
        var r := WrapperState.AdoptStartup(retirements[i], tasks, startupCancelRequested);
        r := WrapperState.AdoptSpawnTask(r, o.spawn, o.spawnCancel);
        retirements := retirements[i := r];
      } else {
        var r := NewRecord(o.client, o.process, o.spawn, o.spawnCancel);
        r := WrapperState.AdoptStartup(r, tasks, startupCancelRequested);
        retirements := retirements + [r];
      }
      if tasks != {} {
        startupTasks, startupCancelRequested := {}, {};
      }
    }

    method ClearSettledStartUncertaintyLocked()
      modifies this`startUncertainGeneration
      ensures View() == WrapperState.ClearUncertainty(old(View()))
    {
      if startUncertainGeneration.Some? && startingGeneration != startUncertainGeneration && startSettled == Yes {
        startUncertainGeneration := None;
      }
    }

    /** Whether any record is still listed. */
    method AnyRetirement() returns (any: bool)
      ensures any <==> !WrapperState.NoneListed(retirements)
    {
      any := false;
      var i := 0;
      while i < |retirements|
        invariant i <= |retirements|
        invariant any <==> exists j :: 0 <= j < i && retirements[j].listed == Yes
      {
        if retirements[i].listed == Yes { any := true; }
        i := i + 1;
      }
    }

    /** The admission section of _start; a refusal changes nothing but settled uncertainty. */
    method AdmitStart(stopRunning: bool, spawn: TaskId) returns (admitted: bool)
      modifies this
      ensures admitted <==> !stopRunning && WrapperState.MayAdmit(WrapperState.ClearUncertainty(old(View())))
      ensures admitted ==> View() == WrapperState.Admit(WrapperState.ClearUncertainty(old(View())), spawn)
      ensures !admitted ==> View() == WrapperState.ClearUncertainty(old(View()))
    {
      ClearSettledStartUncertaintyLocked();
      admitted := false;
      if process.Some? || client.Some? {
        return;
      }
      var fenced := AnyRetirement();
      if stopping == Yes || starting == Yes || startUncertainGeneration.Some? || fenced
         || retiringOperations != {} || stopRunning {
        return;
      }
      BeginStart(spawn);
      admitted := true;
    }

    method BeginStart(spawn: TaskId)
      modifies this`starting, this`startingGeneration, this`startSettled, this`spawnTask, this`spawnCancelRequested
      ensures View() == WrapperState.Admit(old(View()), spawn)
    {
      starting := Yes;
      startingGeneration := Some(generation);
      startSettled := No;
      spawnTask, spawnCancelRequested := Some(spawn), No;
    }

    method FinalizeStart(gen: nat)
      modifies this
      ensures View() == WrapperState.FinalizeStart(old(View()), gen)
    {
      if startingGeneration == Some(gen) {
        starting := No;
        startingGeneration := None;
        if startUncertainGeneration == Some(gen) {
          startUncertainGeneration := None;
        }
        startSettled := Yes;
      }
    }

    /** Withdraw exactly this pair from publication. */
    method UnpublishPair(c: Option<ClientId>, p: Option<ProcId>)
      modifies this`client, this`process, this`generation
      ensures View() == if WrapperState.IsPublished(old(View()), c, p) then WrapperState.Unpublish(old(View())) else old(View())
    {
      if (c.Some? || p.Some?) && client == c && process == p {
        client, process := None, None;
        generation := generation + 1;
      }
    }

    /** Empty the live spawn slot if it holds this task, taking its cancel mark along. */
    method TakeSpawn(t: Option<TaskId>) returns (cancelled: Flag)
      modifies this`spawnTask, this`spawnCancelRequested
      ensures View() == if old(spawnTask) == t then WrapperState.TakeSpawnSlot(old(View())) else old(View())
      ensures cancelled == if old(spawnTask) == t then old(spawnCancelRequested) else No
    {
      cancelled := No;
      if spawnTask == t {
        spawnTask := None;
        cancelled := spawnCancelRequested;
        spawnCancelRequested := No;
      }
    }

    method RetireStartupChild(c: Option<ClientId>, p: Option<ProcId>, t: Option<TaskId>)
      modifies this
      ensures View() == WrapperState.RetireStartupChild(old(View()), c, p, t)
    {
      UnpublishPair(c, p);
      var cancelled := TakeSpawn(t);
      ClaimRetirementLocked(WrapperState.Offer(c, p, Yes, t, cancelled));
    }

    method DetachTerminalChild()
      modifies this
      ensures View() == WrapperState.RetireTerminalChild(old(View()))
    {
      var o := WrapperState.Offer(client, process, No, None, No);
      client, process := None, None;
      generation := generation + 1;
      ClaimRetirementLocked(o);
    }

    /** Move every live operation but the caller's to the retiring set, and mark it cancelled. */
    method TransferOperations(caller: Option<OpId>, doneOps: set<OpId>) returns (operations: set<OpId>)
      modifies this
      ensures operations == WrapperState.Transferred(old(View()), caller, doneOps)
      ensures View() == old(View()).(active := old(activeOperations) - operations,
                                     retiring := old(retiringOperations) + operations,
                                     opCancel := old(operationCancelRequested) + operations)
    {
      operations := set o | o in activeOperations && o !in doneOps && caller != Some(o);
      var todo := operations;
      while todo != {}
        invariant todo <= operations
        invariant activeOperations == old(activeOperations) - (operations - todo)
        invariant retiringOperations == old(retiringOperations) + (operations - todo)
        invariant operationCancelRequested == old(operationCancelRequested) + (operations - todo)
        modifies this`activeOperations, this`retiringOperations, this`operationCancelRequested
      {
        var o :| o in todo;
        todo := todo - {o};
        activeOperations := activeOperations - {o};
        retiringOperations := retiringOperations + {o};
        operationCancelRequested := operationCancelRequested + {o};
      }
    }

    method MarkStopping()
      modifies this`stopping, this`startUncertainGeneration
      ensures View() == WrapperState.ClearUncertainty(old(View()).(stopping := Yes))
    {
      stopping := Yes;
      ClearSettledStartUncertaintyLocked();
    }

    /** Take the published pair, and an unsettled start's spawn, out of the live fields. */
    method DetachLive() returns (o: WrapperState.Offer)
      modifies this`client, this`process, this`generation, this`spawnTask, this`spawnCancelRequested
      ensures o == LifecycleStop.DetachOffer(old(View()))
      ensures var w := WrapperState.Unpublish(old(View()));
              View() == if w.startingGen.Some? && w.spawnSlot.Some? then WrapperState.TakeSpawnSlot(w) else w
    {
      o := WrapperState.Offer(client, process, if startingGeneration.None? then No else Yes,
                              if startingGeneration.None? then None else spawnTask, spawnCancelRequested);
      client, process := None, None;
      generation := generation + 1;
      if startingGeneration.Some? && spawnTask.Some? {
        spawnTask, spawnCancelRequested := None, No;
      }
    }

    /** Take everything live out of the live fields; what is to be claimed, and the operations to cancel. */
    method ReleaseForStop(caller: Option<OpId>, doneOps: set<OpId>) returns (o: WrapperState.Offer, operations: set<OpId>)
      modifies this
      ensures View() == LifecycleStop.DetachedWrapper(old(View()), caller, doneOps) && o == LifecycleStop.DetachOffer(old(View()))
      ensures operations == WrapperState.Transferred(old(View()), caller, doneOps)
    {
      MarkStopping();
      operations := TransferOperations(caller, doneOps);
      o := DetachLive();
    }

    /** The detaching section of _run_stop_attempt; returns the operations to cancel. */
    method DetachForStop(caller: Option<OpId>, doneOps: set<OpId>) returns (operations: set<OpId>)
      modifies this
      ensures View() == WrapperState.StopDetach(old(View()), caller, doneOps)
      ensures operations == WrapperState.Transferred(old(View()), caller, doneOps)
    {
      LifecycleStop.DetachIsClaim(View(), caller, doneOps);
      var o, transferred := ReleaseForStop(caller, doneOps);
      ClaimRetirementLocked(o);
      operations := transferred;
    }

    /** The first section of _reap_owned_children: run unfinished retirements again. */
    method RerunRetirements()
      modifies this
      ensures View() == WrapperState.RerunAll(old(View()))
    {
      ClearSettledStartUncertaintyLocked();
      var before := retirements;
      var i := 0;
      while i < |before|
        invariant i <= |before| == |retirements|
        invariant forall j :: 0 <= j < |before| ==>
                    retirements[j] == if j < i then WrapperState.Rerun(before[j]) else before[j]
        modifies this`retirements
      {
        if WrapperState.NeedsRerun(retirements[i]) {
          retirements := retirements[i := retirements[i].(task := FreshRun)];
        }
        i := i + 1;
      }
    }

    /** The last section of _reap_owned_children: drop what is completely retired. */
    method RemoveRetired(complete: set<nat>)
      modifies this
      ensures View() == WrapperState.RemoveAll(old(View()), complete)
    {
      var before := retirements;
      var i := 0;
      while i < |before|
        invariant i <= |before| == |retirements|
        invariant forall j :: 0 <= j < |before| ==>
                    retirements[j] == if j < i then Removed(before, complete, j) else before[j]
        modifies this`retirements
      {
        if i in complete && retirements[i].listed == Yes && retirements[i].startupTasks == {}
           && retirements[i].spawnTask.None? {
          retirements := retirements[i := retirements[i].(listed := No)];
        }
        i := i + 1;
      }
      ClearSettledStartUncertaintyLocked();
    }

    static function Removed(recs: seq<Record>, complete: set<nat>, j: nat): Record
      requires j < |recs|
    {
      if j in complete && recs[j].listed == Yes then WrapperState.RemoveIfComplete(recs[j]) else recs[j]
    }

    method PruneCompletedOperationsLocked(doneOps: set<OpId>)
      modifies this
      ensures View() == WrapperState.Prune(old(View()), doneOps)
    {
      var completed := set o | o in activeOperations + retiringOperations && o in doneOps;
      assert completed == (activeOperations + retiringOperations) * doneOps;
      activeOperations := activeOperations - completed;
      retiringOperations := retiringOperations - completed;
      operationCancelRequested := operationCancelRequested - completed;
    }

    /** _register_operation: prune, then refuse while anything is being retired. */
    method RegisterOperation(op: OpId, doneOps: set<OpId>) returns (registered: bool)
      modifies this
      ensures var w := WrapperState.Prune(old(View()), doneOps);
        && (registered <==> WrapperState.MayRegister(w))
        && View() == if registered then w.(active := w.active + {op}) else w
    {
      PruneCompletedOperationsLocked(doneOps);
      var fenced := AnyRetirement();
      registered := !(stopping == Yes || retiringOperations != {} || fenced || startUncertainGeneration.Some?);
      if registered {
        activeOperations := activeOperations + {op};
      }
    }

    method UnregisterOperation(op: OpId)
      modifies this
      ensures View() == WrapperState.Unregister(old(View()), op)
    {
      activeOperations := activeOperations - {op};
      if op !in retiringOperations {
        operationCancelRequested := operationCancelRequested - {op};
      }
    }
  }
}
