/** Exactly when a stop attempt that found its children gone can still return with a record listed. */
module LifecycleStopExact {
  import opened Options
  import opened RetirementRecord
  import opened WrapperState
  import opened Lifecycle
  import opened LifecycleInvariant
  import opened LifecycleStart
  import opened LifecycleSafety
  import opened LifecycleCleanSlate
  import opened LifecycleStopResult

  // ----- continuations -----

  /** The state after more events, or nothing if some event was not enabled. */
  function Continue(s: State, after: seq<Event>): Option<State>
    decreases |after|
  {
    if after == [] then Some(s)
    else if Enabled(s, after[0]) then Continue(Apply(s, after[0]), after[1..])
    else None
  }

  predicate NoAdmission(after: seq<Event>) {
    forall i :: 0 <= i < |after| ==> !after[i].Admit?
  }

  predicate HasTailClaim(after: seq<Event>) {
    exists i :: 0 <= i < |after| && after[i].TailClaim?
  }

  lemma RunOneMore(events: seq<Event>, ev: Event)
    requires Run(events).Some? && Enabled(Run(events).value, ev)
    ensures Run(events + [ev]) == Some(Apply(Run(events).value, ev))
  {
    assert (events + [ev])[..|events|] == events;
  }

  lemma {:induction false} RunHasPrefixes(events: seq<Event>, k: nat)
    requires Run(events).Some? && k <= |events|
    ensures Run(events[..k]).Some?
    decreases |events|
  {
    if k < |events| {
      var before := events[..|events| - 1];
      RunHasPrefixes(before, k);
      assert before[..k] == events[..k];
    } else {
      assert events[..k] == events;
    }
  }

  /** Going on from the state a run reaches is going on with the run. */
  lemma {:induction false} RunContinues(events: seq<Event>, s: State, after: seq<Event>)
    requires Run(events) == Some(s)
    ensures Run(events + after) == Continue(s, after)
    decreases |after|
  {
    if after == [] {
      assert events + after == events;
    } else {
      var events' := events + [after[0]];
      assert events' + after[1..] == events + after;
      assert events'[..|events|] == events && (events + after)[..|events'|] == events';
      if Enabled(s, after[0]) {
        RunOneMore(events, after[0]);
        RunContinues(events', Apply(s, after[0]), after[1..]);
      } else if Run(events + after).Some? {
        RunHasPrefixes(events + after, |events'|);
      }
    }
  }

  // ----- whether a record is ever listed again -----

  /** At some moment along the continuation a record is listed. */
  ghost predicate ListsAlong(s: State, after: seq<Event>)
    decreases |after|
  {
    || !NoneListed(s.w.recs)
    || (after != [] && Enabled(s, after[0]) && ListsAlong(Apply(s, after[0]), after[1..]))
  }

  /** Along every continuation without an admission, a record is listed again exactly if the start claims at its end. */
  lemma {:induction false} ListedExactlyByATailClaim(s: State, after: seq<Event>)
    requires Inv(s) && CleanSlate(s) && Continue(s, after).Some? && NoAdmission(after)
    ensures ListsAlong(s, after) <==> HasTailClaim(after)
    decreases |after|
  {
    if after != [] {
      var ev, rest := after[0], after[1..];
      OnlyTheTailClaimLists(s, ev);
      StepKeeps(s, ev);
      if ev.TailClaim? {
        assert ListsAlong(Apply(s, ev), rest);
      } else {
        ListedExactlyByATailClaim(Apply(s, ev), rest);
        assert HasTailClaim(after) <==> HasTailClaim(rest) by {
          assert forall i :: 0 < i < |after| ==> after[i] == rest[i - 1];
          assert forall i :: 0 <= i < |rest| ==> rest[i] == after[i + 1];
        }
      }
    }
  }

  /** A start that has claimed, or none at all, never claims at its end. */
  lemma {:induction false} ClaimedStartsStayQuiet(s: State, after: seq<Event>)
    requires !MayClaim(s.start) && Continue(s, after).Some? && NoAdmission(after)
    ensures !HasTailClaim(after)
    decreases |after|
  {
    if after != [] {
      NoNewClaims(s, after[0]);
      ClaimedStartsStayQuiet(Apply(s, after[0]), after[1..]);
      assert forall i :: 0 < i < |after| ==> after[i] == after[1..][i - 1];
    }
  }

  lemma {:induction false} LastIsListedAlong(s: State, after: seq<Event>)
    requires Continue(s, after).Some? && !NoneListed(Continue(s, after).value.w.recs)
    ensures ListsAlong(s, after)
    decreases |after|
  {
    if after != [] { LastIsListedAlong(Apply(s, after[0]), after[1..]); }
  }

  // ----- the continuation that leaves one -----

  /** The attempt settles as successful although a record is listed. */
  ghost predicate LeavesRecord(s: State, after: seq<Event>) {
    && WithinAttempt(after) && Continue(s, after).Some?
    && Continue(s, after).value.stop == Settled(Yes) && !NoneListed(Continue(s, after).value.w.recs)
  }

  lemma Prepend(s: State, ev: Event, after: seq<Event>)
    requires Enabled(s, ev) && !ev.Admit? && !ev.StopCall? && LeavesRecord(Apply(s, ev), after)
    ensures LeavesRecord(s, [ev] + after)
  {
    assert ([ev] + after)[1..] == after;
  }

  lemma FinishLeaves(s: State)
    requires s.stop == Attempt(Finishing(Yes)) && !NoneListed(s.w.recs)
    ensures LeavesRecord(s, [StopFinish])
  {
    assert Continue(Apply(s, StopFinish), []) == Some(Apply(s, StopFinish));
    assert LeavesRecord(Apply(s, StopFinish), []);
    assert [StopFinish][1..] == [];
  }

  /** Once every retiring operation has ended the attempt succeeds. */
  lemma OpsLeave(s: State)
    requires s.stop == Attempt(ObserveOps(Yes)) || s.stop == Attempt(ObserveOpsAgain(Yes))
    requires s.w.retiring <= s.doneOps && !NoneListed(s.w.recs)
    ensures LeavesRecord(s, [StopOps, StopFinish])
  {
    var s' := Apply(s, StopOps);
    assert s'.w.retiring == {};
    FinishLeaves(s');
    Prepend(s, StopOps, [StopFinish]);
    assert [StopOps] + [StopFinish] == [StopOps, StopFinish];
  }

  lemma CheckedLeaves(s: State) returns (after: seq<Event>)
    requires PastCheck(s.stop) && !s.stop.pc.Finishing? && s.w.uncertainGen.None?
    requires s.w.retiring <= s.doneOps && !NoneListed(s.w.recs)
    ensures LeavesRecord(s, after)
  {
    if s.stop.pc.CheckUncertain? {
      OpsLeave(Apply(s, StopCheck));
      after := [StopCheck] + [StopOps, StopFinish];
      Prepend(s, StopCheck, [StopOps, StopFinish]);
    } else {
      OpsLeave(s);
      after := [StopOps, StopFinish];
    }
  }

  /** The retiring operations end one by one. */
  lemma {:induction false} EndedLeaves(s: State, ops: set<OpId>) returns (after: seq<Event>)
    requires PastCheck(s.stop) && !s.stop.pc.Finishing? && s.w.uncertainGen.None? && s.start.NoStart?
    requires s.w.retiring <= s.doneOps + ops && !NoneListed(s.w.recs)
    ensures LeavesRecord(s, after)
    decreases ops
  {
    if ops == {} {
      after := CheckedLeaves(s);
    } else {
      var op :| op in ops;
      var rest := EndedLeaves(Apply(s, OpDone(op)), ops - {op});
      Prepend(s, OpDone(op), rest);
      after := [OpDone(op)] + rest;
    }
  }

  lemma ClaimOnly(s: State)
    requires Inv(s) && PastCheck(s.stop) && CleanSlate(s) && MayClaim(s.start)
    ensures Enabled(s, TailClaim) && s.w.uncertainGen.None? && !s.stop.pc.Finishing?
    ensures var s' := Apply(s, TailClaim);
      s'.stop == s.stop && s'.start == s.start.(claimed := Yes) && s'.w.uncertainGen.None? && !NoneListed(s'.w.recs)
  {
    OnlyTheTailClaimLists(s, TailClaim);
    RetireStartupChildKeeps(s, s.start.client, s.start.process, None);
  }

  /** The start claims and ends, and the stop attempt is where it was. */
  lemma ClaimAndEnd(s: State)
    requires Inv(s) && PastCheck(s.stop) && CleanSlate(s) && MayClaim(s.start)
    ensures Enabled(s, TailClaim) && Enabled(Apply(s, TailClaim), StartEnd)
    ensures var s' := Apply(Apply(s, TailClaim), StartEnd);
      && s'.stop == s.stop && !s.stop.pc.Finishing? && s'.start.NoStart?
      && s'.w.uncertainGen.None? && !NoneListed(s'.w.recs)
  {
    ClaimOnly(s);
  }

  lemma ClaimLeaves(s: State) returns (after: seq<Event>)
    requires Inv(s) && PastCheck(s.stop) && CleanSlate(s) && MayClaim(s.start)
    ensures LeavesRecord(s, after)
  {
    ClaimAndEnd(s);
    var s1 := Apply(s, TailClaim);
    var s2 := Apply(s1, StartEnd);
    var rest := EndedLeaves(s2, s2.w.retiring);
    Prepend(s1, StartEnd, rest);
    Prepend(s, TailClaim, [StartEnd] + rest);
    after := [TailClaim] + ([StartEnd] + rest);
  }

  /** The run goes on, within its stop attempt, to a success that leaves a record listed. */
  ghost predicate RunLeavesRecord(events: seq<Event>, after: seq<Event>) {
    && WithinAttempt(after) && Run(events + after).Some?
    && Run(events + after).value.stop == Settled(Yes) && !NoneListed(Run(events + after).value.w.recs)
  }

  /**
    Past its child check, with no record listed, a stop attempt can still succeed with a record
    left exactly when a start is running that has not claimed its pair.
   */
  lemma StopCanLeaveARecordExactly(events: seq<Event>)
    requires Run(events).Some? && PastCheck(Run(events).value.stop) && NoneListed(Run(events).value.w.recs)
    ensures (exists after :: RunLeavesRecord(events, after)) <==> MayClaim(Run(events).value.start)
  {
    RunKeeps(events);
    var s := Run(events).value;
    if MayClaim(s.start) {
      var after := ClaimLeaves(s);
      RunContinues(events, s, after);
      assert RunLeavesRecord(events, after);
    } else {
      forall after ensures !RunLeavesRecord(events, after) {
        RunContinues(events, s, after);
        if RunLeavesRecord(events, after) {
          ClaimedStartsStayQuiet(s, after);
          LastIsListedAlong(s, after);
          ListedExactlyByATailClaim(s, after);
        }
      }
    }
  }
}
