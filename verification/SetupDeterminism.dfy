/** The setup order depends on the registrations only. */
module SetupDeterminism {
  import opened SetupOrder

  /** The greedy order depends only on which steps are registered, not on how they were listed. */
  lemma GreedyOrderIsUnique(steps: seq<Step>, steps': seq<Step>, ordered: seq<Step>, ordered': seq<Step>)
    requires multiset(steps) == multiset(steps')
    requires IsGreedyOrder(steps, ordered) && IsGreedyOrder(steps', ordered')
    ensures ordered == ordered'
  {
    SameMembers(steps, steps');
    assert |multiset(ordered)| == |ordered| && |multiset(ordered')| == |ordered'|;
    SamePrefix(steps, steps', ordered, ordered', |ordered|);
    assert ordered[..|ordered|] == ordered && ordered'[..|ordered|] == ordered';
  }

  lemma {:induction false} SamePrefix(steps: seq<Step>, steps': seq<Step>, ordered: seq<Step>, ordered': seq<Step>, k: nat)
    requires forall s :: s in steps <==> s in steps'
    requires GreedyPrefix(steps, ordered) && GreedyPrefix(steps', ordered')
    requires k <= |ordered| && k <= |ordered'|
    ensures ordered[..k] == ordered'[..k]
    decreases k
  {
    if k > 0 {
      SamePrefix(steps, steps', ordered, ordered', k - 1);
      var placed := NamesOf(ordered[..k - 1]);
      assert forall s :: Eligible(steps, placed, s) <==> Eligible(steps', placed, s) by { SameGraph(steps, steps'); }
      assert GreedyAt(steps, ordered, k - 1) && GreedyAt(steps', ordered', k - 1);
      KeyLessTotal(Key(ordered[k - 1]), Key(ordered'[k - 1]));
    }
  }

  lemma SameGraph(steps: seq<Step>, steps': seq<Step>)
    requires forall s :: s in steps <==> s in steps'
    ensures Names(steps) == Names(steps')
    ensures forall a, b :: Edge(steps, a, b) <==> Edge(steps', a, b)
  {
  }
}
