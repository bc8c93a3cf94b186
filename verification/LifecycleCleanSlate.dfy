/** When nothing is left to retire, and the one step that can list a record again. */
module LifecycleCleanSlate {
  import opened Options
  import opened RetirementRecord
  import opened RetirementInvariant
  import opened WrapperState
  import opened Lifecycle
  import opened LifecycleInvariant
  import opened LifecycleRecords
  import opened LifecycleStart
  import opened LifecycleSafety

  /** Nothing to retire: no child, no pair, no spawn slot, no start in flight, no record listed. */
  ghost predicate CleanSlate(s: State) {
    ChildrenGone(s) && NoneListed(s.w.recs)
  }

  /** The stop attempt found its children gone and has not settled yet. */
  predicate PastCheck(stop: StopTask) {
    || stop == Attempt(CheckUncertain)
    || stop == Attempt(ObserveOps(Yes))
    || stop == Attempt(ObserveOpsAgain(Yes))
    || stop == Attempt(Finishing(Yes))
  }

  /** The guard of the last claim in the start coroutine: nothing was claimed yet. */
  predicate MayClaim(st: Start) {
    st.Start? && st.claimed == No
  }

  lemma FreshCheckIsClean(s: State)
    requires Inv(s) && PastCheck(s.stop) && s.stale == No
    ensures CleanSlate(s)
  {
  }

  lemma CheckRefreshes(s: State, ev: Event)
    requires Enabled(s, ev) && (ev.StopReap? || ev.StopJoin?) && PastCheck(Apply(s, ev).stop)
    ensures Apply(s, ev).stale == No
  {
  }

  /** The sections that enter `PastCheck` leave a clean slate. */
  lemma CheckFindsNothing(s: State, ev: Event)
    requires Inv(s) && Enabled(s, ev) && (ev.StopReap? || ev.StopJoin?) && PastCheck(Apply(s, ev).stop)
    ensures CleanSlate(Apply(s, ev))
  {
    StepKeeps(s, ev);
    CheckRefreshes(s, ev);
    FreshCheckIsClean(Apply(s, ev));
  }

  // ----- one step -----

  /** No record is added, and none is listed again. */
  predicate NoNewlyListed(recs: seq<Record>, recs': seq<Record>) {
    |recs'| == |recs| && forall i :: 0 <= i < |recs| && recs[i].listed == No ==> recs'[i].listed == No
  }

  lemma RetireListsNothing(s: State, i: nat)
    requires Inv(s) && RecordAt(s, i) && s.w.recs[i].task.Running?
    ensures NoNewlyListed(s.w.recs, DoRetire(s, i).w.recs)
  {
    RetireFramed(s.w.recs[i], s.env) by { assert RecordInv(s.w.recs[i], s.env); }
  }

  lemma RetireEventsListNothing(s: State, ev: Event)
    requires Inv(s) && Enabled(s, ev) && IsRetireEvent(ev)
    ensures NoNewlyListed(s.w.recs, Apply(s, ev).w.recs)
  {
    match ev
    case Retire(i) => RetireListsNothing(s, i);
    case _ =>
  }

  lemma SettlingListsNothing(s: State, ev: Event)
    requires Enabled(s, ev) && IsSettling(ev)
    ensures NoNewlyListed(s.w.recs, Apply(s, ev).w.recs)
  {
  }

  lemma DetachListsNothing(s: State, caller: Option<OpId>)
    requires Inv(s) && ChildrenGone(s)
    ensures DoStopDetach(s, caller).w.recs == s.w.recs
  {
  }

  lemma BatchesListNothing(w: Wrapper, complete: set<nat>)
    ensures NoNewlyListed(w.recs, RerunAll(w).recs) && NoNewlyListed(w.recs, RemoveAll(w, complete).recs)
  {
  }

  lemma StopEventsListNothing(s: State, ev: Event)
    requires Inv(s) && ChildrenGone(s) && Enabled(s, ev) && IsStopEvent(ev)
    ensures NoNewlyListed(s.w.recs, Apply(s, ev).w.recs)
  {
    match ev
    case StopDetach(caller) => DetachListsNothing(s, caller);
    case StopReap => BatchesListNothing(s.w, {});
    case StopJoin(complete) => BatchesListNothing(s.w, complete);
    case _ =>
  }

  lemma OthersListNothing(s: State, ev: Event)
    requires Inv(s) && ChildrenGone(s) && Enabled(s, ev) && !IsRecordEvent(ev) && !IsStopEvent(ev)
    requires !ev.Admit? && !ev.TailClaim?
    ensures NoNewlyListed(s.w.recs, Apply(s, ev).w.recs)
  {
  }

  /** With all children gone, no step but an admission and the tail claim lists anything. */
  lemma GoneListsNothing(s: State, ev: Event)
    requires Inv(s) && ChildrenGone(s) && Enabled(s, ev) && !ev.Admit? && !ev.TailClaim?
    ensures NoNewlyListed(s.w.recs, Apply(s, ev).w.recs)
  {
    if IsRetireEvent(ev) { RetireEventsListNothing(s, ev); }
    else if IsSettling(ev) { SettlingListsNothing(s, ev); }
    else if IsStopEvent(ev) { StopEventsListNothing(s, ev); }
    else { OthersListNothing(s, ev); }
  }

  /** Nothing is published, spawned or starting. */
  predicate SlotsEmpty(s: State) {
    Unpublished(s.w) && s.w.spawnSlot.None? && !InFlight(s.start)
  }

  lemma RetireEventsKeepSlots(s: State, ev: Event)
    requires SlotsEmpty(s) && Enabled(s, ev) && IsRetireEvent(ev)
    ensures SlotsEmpty(Apply(s, ev))
  {
  }

  lemma SettlingKeepsSlots(s: State, ev: Event)
    requires SlotsEmpty(s) && Enabled(s, ev) && IsSettling(ev)
    ensures SlotsEmpty(Apply(s, ev))
  {
  }

  lemma StopEventsKeepSlots(s: State, ev: Event)
    requires Inv(s) && SlotsEmpty(s) && Enabled(s, ev) && IsStopEvent(ev)
    ensures SlotsEmpty(Apply(s, ev))
  {
  }

  lemma OthersKeepSlots(s: State, ev: Event)
    requires SlotsEmpty(s) && Enabled(s, ev) && !IsRecordEvent(ev) && !IsStopEvent(ev) && !ev.Admit? && !ev.TailClaim?
    ensures SlotsEmpty(Apply(s, ev))
  {
  }

  lemma ChildrenStayGone(s: State, ev: Event)
    requires Inv(s) && CleanSlate(s) && Enabled(s, ev) && !ev.Admit? && !ev.TailClaim?
    requires Inv(Apply(s, ev)) && NoneListed(Apply(s, ev).w.recs)
    ensures ChildrenGone(Apply(s, ev))
  {
    if IsRetireEvent(ev) { RetireEventsKeepSlots(s, ev); }
    else if IsSettling(ev) { SettlingKeepsSlots(s, ev); }
    else if IsStopEvent(ev) { StopEventsKeepSlots(s, ev); }
    else { OthersKeepSlots(s, ev); }
    NoOwnerNoChild(Apply(s, ev));
  }

  /** The process of a start that claims at its end was spawned, so the claim offers it to a record. */
  lemma TailClaimLists(s: State)
    requires Inv(s) && Enabled(s, TailClaim)
    ensures !NoneListed(Apply(s, TailClaim).w.recs)
  {
    RetireStartupChildKeeps(s, s.start.client, s.start.process, None);
    var recs' := Apply(s, TailClaim).w.recs;
    assert HoldsProcess(recs', s.start.process.value);
  }

  /** On a clean slate nothing matches, so the claim appends its record. */
  lemma TailClaimAppends(s: State)
    requires CleanSlate(s) && Enabled(s, TailClaim)
    ensures var recs' := Apply(s, TailClaim).w.recs; |recs'| <= |s.w.recs| + 1 && s.w.recs == recs'[..|s.w.recs|]
  {
  }

  /** From a clean slate exactly the tail claim lists a record; every other step keeps the slate clean. */
  lemma OnlyTheTailClaimLists(s: State, ev: Event)
    requires Inv(s) && CleanSlate(s) && Enabled(s, ev) && !ev.Admit?
    ensures if ev.TailClaim? then !NoneListed(Apply(s, ev).w.recs) else CleanSlate(Apply(s, ev))
  {
    if ev.TailClaim? {
      TailClaimLists(s);
    } else {
      GoneListsNothing(s, ev);
      StepKeeps(s, ev);
      ChildrenStayGone(s, ev);
    }
  }

  lemma StopEventsClaimNothing(s: State, ev: Event)
    requires Enabled(s, ev) && IsStopEvent(ev) && !MayClaim(s.start)
    ensures !MayClaim(Apply(s, ev).start)
  {
  }

  /** No step but an admission brings a start that may still claim. */
  lemma NoNewClaims(s: State, ev: Event)
    requires Enabled(s, ev) && !ev.Admit? && !MayClaim(s.start)
    ensures !ev.TailClaim? && !MayClaim(Apply(s, ev).start)
  {
    if IsStopEvent(ev) { StopEventsClaimNothing(s, ev); }
  }

  // ----- the stop attempt -----

  /** Only stop events and admissions touch the stop attempt. */
  lemma OthersLeaveStop(s: State, ev: Event)
    requires Enabled(s, ev) && !IsStopEvent(ev) && !ev.Admit?
    ensures Apply(s, ev).stop == s.stop
  {
  }

  predicate Concluding(stop: StopTask) {
    PastCheck(stop) || stop == Settled(Yes)
  }

  lemma ConcludingStopStep(s: State, ev: Event)
    requires Enabled(s, ev) && IsStopEvent(ev) && Concluding(Apply(s, ev).stop)
    ensures if ev.StopReap? || ev.StopJoin? then PastCheck(Apply(s, ev).stop)
            else (ev.StopCheck? || ev.StopOps? || ev.StopFinish?) && Concluding(s.stop)
  {
  }

  /** A stop attempt concludes because its child check found nothing, or goes on concluding. */
  lemma ConcludingStep(s: State, ev: Event)
    requires Enabled(s, ev) && Concluding(Apply(s, ev).stop)
    ensures !ev.Admit? && !ev.StopCall?
    ensures if ev.StopReap? || ev.StopJoin? then PastCheck(Apply(s, ev).stop) else Concluding(s.stop)
  {
    if IsStopEvent(ev) { ConcludingStopStep(s, ev); } else if !ev.Admit? { OthersLeaveStop(s, ev); }
  }
}
