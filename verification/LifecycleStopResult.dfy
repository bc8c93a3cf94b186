/** What a stop() that returned normally guarantees, and for how long. */
module LifecycleStopResult {
  import opened Options
  import opened RetirementRecord
  import opened WrapperState
  import opened Lifecycle
  import opened LifecycleInvariant
  import opened LifecycleClaims
  import opened LifecycleSafety
  import opened LifecycleCleanSlate

  /**
    A cancelled start that had already been finalised claims its pair while that pair is
    still public or still listed.  The FIFO ready queue of asyncio orders it so; the
    adversarial scheduler of this model need not.
   */
  predicate Timely(s: State, ev: Event) {
    ev.TailClaim? && s.start.Start? ==>
      || IsPublished(s.w, s.start.client, s.start.process)
      || FindMatch(s.w.recs, s.start.client, s.start.process, None, 0).Some?
  }

  ghost predicate TimelyRun(events: seq<Event>)
    decreases |events|
  {
    if events == [] then true
    else
      var last := |events| - 1;
      && TimelyRun(events[..last])
      && (Run(events[..last]).Some? ==> Timely(Run(events[..last]).value, events[last]))
  }

  /** A tail claim of a pair that is still listed ends in the record that lists it. */
  lemma ListedClaimAddsNothing(s: State)
    requires Inv(s) && AtStart(s, Tail)
    requires !IsPublished(s.w, s.start.client, s.start.process)
    requires FindMatch(s.w.recs, s.start.client, s.start.process, None, 0).Some?
    ensures |RetireStartupChild(s.w, s.start.client, s.start.process, None).recs| == |s.w.recs|
  {
    var o := Offer(s.start.client, s.start.process, Yes, None, s.w.spawnSlotCancel);
    assert RetireStartupChild(s.w, s.start.client, s.start.process, None) == Claim(TakeSpawnSlot(s.w), o);
    if !Empty(TakeSpawnSlot(s.w), o) { ClaimShape(TakeSpawnSlot(s.w), o); }
  }

  lemma TimelyStepNotStale(s: State, ev: Event)
    requires Inv(s) && Enabled(s, ev) && Timely(s, ev) && s.stale == No
    ensures Apply(s, ev).stale == No
  {
    if ev.TailClaim? && !IsPublished(s.w, s.start.client, s.start.process) {
      ListedClaimAddsNothing(s);
    }
  }

  lemma {:induction false} TimelyRunNotStale(events: seq<Event>)
    requires Run(events).Some? && TimelyRun(events)
    ensures Run(events).value.stale == No
    decreases |events|
  {
    if events != [] {
      var last := |events| - 1;
      TimelyRunNotStale(events[..last]);
      RunKeeps(events[..last]);
      TimelyStepNotStale(Run(events[..last]).value, events[last]);
    }
  }

  lemma RunLast(events: seq<Event>)
    requires Run(events).Some? && events != []
    ensures var last := |events| - 1; var s := Run(events[..last]);
            s.Some? && Enabled(s.value, events[last]) && Run(events) == Some(Apply(s.value, events[last]))
  {
  }

  // ----- late claims -----

  /** Neither a start nor another stop attempt begins. */
  predicate WithinAttempt(after: seq<Event>) {
    forall i :: 0 <= i < |after| ==> !after[i].Admit? && !after[i].StopCall?
  }

  /** A tail claim at position `k` that came after the child check of the attempt still running at the end. */
  ghost predicate LateClaimAt(events: seq<Event>, k: nat) {
    && k < |events| && events[k].TailClaim? && WithinAttempt(events[k..])
    && Run(events[..k]).Some? && PastCheck(Run(events[..k]).value.stop) && CleanSlate(Run(events[..k]).value)
  }

  /** Where the late claim at `k` put its record. */
  function LateRecord(events: seq<Event>, k: nat): nat
    requires k <= |events| && Run(events[..k]).Some?
  {
    |Run(events[..k]).value.w.recs|
  }

  predicate NoneListedBut(recs: seq<Record>, n: nat) {
    forall i :: 0 <= i < |recs| && i != n ==> recs[i].listed == No
  }

  /** The run had a late claim at `k`, and no record but the one it made can still be listed. */
  ghost predicate LateOnly(events: seq<Event>, k: nat) {
    && LateClaimAt(events, k) && Run(events).Some?
    && !MayClaim(Run(events).value.start) && NoneListedBut(Run(events).value.w.recs, LateRecord(events, k))
  }

  lemma LateClaimRemains(events: seq<Event>, k: nat)
    requires events != [] && LateClaimAt(events[..|events| - 1], k)
    requires !events[|events| - 1].Admit? && !events[|events| - 1].StopCall?
    ensures LateClaimAt(events, k) && LateRecord(events, k) == LateRecord(events[..|events| - 1], k)
  {
    var before := events[..|events| - 1];
    assert before[..k] == events[..k];
    assert events[k..] == before[k..] + [events[|events| - 1]];
  }

  lemma ConcludingIsGone(s: State)
    requires Inv(s) && Concluding(s.stop)
    ensures ChildrenGone(s)
  {
  }

  lemma StillTheOnlyOne(s: State, ev: Event, n: nat)
    requires Inv(s) && Enabled(s, ev) && Concluding(s.stop) && !ev.Admit?
    requires !MayClaim(s.start) && NoneListedBut(s.w.recs, n)
    ensures !MayClaim(Apply(s, ev).start) && NoneListedBut(Apply(s, ev).w.recs, n)
  {
    NoNewClaims(s, ev);
    ConcludingIsGone(s);
    GoneListsNothing(s, ev);
  }

  lemma LateStep(events: seq<Event>, k: nat)
    requires Run(events).Some? && events != [] && LateOnly(events[..|events| - 1], k)
    requires var s := Run(events[..|events| - 1]).value; Inv(s) && Concluding(s.stop)
    requires Concluding(Run(events).value.stop)
    ensures LateOnly(events, k)
  {
    RunLast(events);
    var last := |events| - 1;
    var s, ev := Run(events[..last]).value, events[last];
    ConcludingStep(s, ev);
    StillTheOnlyOne(s, ev, LateRecord(events[..last], k));
    LateClaimRemains(events, k);
  }

  /** A tail claim made on a clean slate by the last step of the run. */
  lemma FirstLate(events: seq<Event>)
    requires Run(events).Some? && events != [] && events[|events| - 1].TailClaim?
    requires var s := Run(events[..|events| - 1]).value; CleanSlate(s) && PastCheck(s.stop)
    ensures LateOnly(events, |events| - 1)
  {
    RunLast(events);
    var last := |events| - 1;
    assert events[last..] == [TailClaim];
    ClaimLeavesOnlyItsRecord(Run(events[..last]).value);
  }

  lemma ClaimLeavesOnlyItsRecord(s: State)
    requires CleanSlate(s) && Enabled(s, TailClaim)
    ensures var s' := Apply(s, TailClaim); !MayClaim(s'.start) && NoneListedBut(s'.w.recs, |s.w.recs|)
  {
    TailClaimAppends(s);
    var recs' := Apply(s, TailClaim).w.recs;
    forall i | 0 <= i < |recs'| && i != |s.w.recs| ensures recs'[i].listed == No {
      assert recs'[i] == recs'[..|s.w.recs|][i];
    }
  }

  /** In every run a stop attempt past its check has a clean slate, or a tail claim came after the check. */
  lemma {:induction false} CleanOrLate(events: seq<Event>)
    requires Run(events).Some? && Concluding(Run(events).value.stop)
    ensures CleanSlate(Run(events).value) || exists k :: LateOnly(events, k)
    decreases |events|
  {
    RunKeeps(events);
    if events != [] {
      RunLast(events);
      var last := |events| - 1;
      var s, ev := Run(events[..last]).value, events[last];
      RunKeeps(events[..last]);
      ConcludingStep(s, ev);
      if ev.StopReap? || ev.StopJoin? {
        CheckFindsNothing(s, ev);
      } else {
        CleanOrLate(events[..last]);
        if CleanSlate(s) {
          OnlyTheTailClaimLists(s, ev);
          if ev.TailClaim? { FirstLate(events); }
        } else {
          var k :| LateOnly(events[..last], k);
          LateStep(events, k);
        }
      }
    }
  }

  // ----- what a successful stop() means -----

  /**
    After stop() returned normally nothing is published, no start is unsettled, no child is
    alive or can still appear, and every operation a stop cancelled has ended.  A retirement
    record is listed exactly if a tail claim came after the child check of that very attempt
    and the record it made has not been retired since; on a timely run none is.
   */
  lemma StopReturnsClean(events: seq<Event>)
    requires Run(events).Some? && Run(events).value.stop == Settled(Yes)
    ensures var s := Run(events).value;
      && Unpublished(s.w) && NoChild(s.env) && s.w.spawnSlot.None?
      && s.start.NoStart? && s.w.starting == No && s.w.startSettled == Yes && s.w.uncertainGen.None?
      && s.w.retiring == {} && (forall o :: o in s.opCancels ==> o in s.doneOps)
      && (!NoneListed(s.w.recs) <==> exists k :: LateClaimAt(events, k) && Listed(s.w.recs, LateRecord(events, k)))
      && (TimelyRun(events) ==> NoneListed(s.w.recs))
  {
    RunKeeps(events);
    CleanOrLate(events);
    if TimelyRun(events) { TimelyRunNotStale(events); }
  }

  /** No event but an admission can disturb a stopped wrapper, and an admission forgets the cached result. */
  lemma CachedStopStaysTrue(s: State, ev: Event)
    requires Inv(s) && Enabled(s, ev) && s.stop == Settled(Yes) && NoneListed(s.w.recs)
    ensures var s' := Apply(s, ev);
      if ev.Admit? then s'.stop == NoTask
      else s'.stop == Settled(Yes) && NoneListed(s'.w.recs) && Unpublished(s'.w) && NoChild(s'.env) && s'.w.retiring == {}
  {
    StepKeeps(s, ev);
    if !ev.Admit? {
      SettledStays(s, ev);
      OnlyTheTailClaimLists(s, ev);
    }
  }

  lemma SettledStays(s: State, ev: Event)
    requires Enabled(s, ev) && s.stop == Settled(Yes) && !ev.Admit?
    ensures Apply(s, ev).stop == Settled(Yes)
  {
    if !IsStopEvent(ev) { OthersLeaveStop(s, ev); }
  }

  lemma PrefixOfSum(events: seq<Event>, after: seq<Event>)
    requires after != []
    ensures var es := events + after; var last := |after| - 1;
            es[..|es| - 1] == events + after[..last] && es[|es| - 1] == after[last]
  {
  }

  /** Reusing the cached result is sound: until the next admission every later state is as clean. */
  lemma {:induction false} CachedResultIsSound(events: seq<Event>, after: seq<Event>)
    requires Run(events).Some? && Run(events + after).Some? && forall ev :: ev in after ==> !ev.Admit?
    requires Run(events).value.stop == Settled(Yes) && NoneListed(Run(events).value.w.recs)
    ensures var s := Run(events + after).value;
      s.stop == Settled(Yes) && NoneListed(s.w.recs) && Unpublished(s.w) && NoChild(s.env) && s.w.retiring == {}
    decreases |after|
  {
    if after == [] {
      assert events + after == events;
      RunKeeps(events);
    } else {
      var last := |after| - 1;
      RunLast(events + after);
      PrefixOfSum(events, after);
      CachedResultIsSound(events, after[..last]);
      RunKeeps(events + after[..last]);
      CachedStopStaysTrue(Run(events + after[..last]).value, after[last]);
    }
  }
}
