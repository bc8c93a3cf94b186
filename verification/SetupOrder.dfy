/**
  What it means to order setup steps: the constraint graph, its cycles, and the greedy
  order in which each position holds the least `(order, name)` among the eligible steps.
 */
module SetupOrder {

  datatype Step = Step(owner: string, name: string, order: int, before: seq<string>, after: seq<string>)

  type Edges = set<(string, string)>

  // ----- the tie-break -----

  /** Strings compare by code point, a proper prefix first. */
  predicate StringLess(a: string, b: string) {
    b != "" && (a == "" || a[0] < b[0] || (a[0] == b[0] && StringLess(a[1..], b[1..])))
  }

  predicate KeyLess(x: (int, string), y: (int, string)) {
    x.0 < y.0 || (x.0 == y.0 && StringLess(x.1, y.1))
  }

  function Key(s: Step): (int, string) {
    (s.order, s.name)
  }

  lemma {:induction false} StringLessTotal(a: string, b: string)
    ensures a == b || StringLess(a, b) || StringLess(b, a)
    ensures !(StringLess(a, b) && StringLess(b, a))
    ensures StringLess(a, b) ==> a != b
    decreases |a|
  {
    if a != "" && b != "" {
      StringLessTotal(a[1..], b[1..]);
      if a[0] == b[0] && a[1..] == b[1..] {
        assert a == [a[0]] + a[1..] && b == [b[0]] + b[1..];
      }
    }
  }

  lemma {:induction false} StringLessTransitive(a: string, b: string, c: string)
    requires StringLess(a, b) && StringLess(b, c)
    ensures StringLess(a, c)
    decreases |a|
  {
    if a != "" && a[0] == b[0] == c[0] {
      StringLessTransitive(a[1..], b[1..], c[1..]);
    }
  }

  lemma KeyLessTotal(x: (int, string), y: (int, string))
    ensures x == y || KeyLess(x, y) || KeyLess(y, x)
    ensures !(KeyLess(x, y) && KeyLess(y, x))
  {
    StringLessTotal(x.1, y.1);
  }

  lemma KeyLessTransitive(x: (int, string), y: (int, string), z: (int, string))
    requires KeyLess(x, y) && KeyLess(y, z)
    ensures KeyLess(x, z)
  {
    if x.0 == y.0 == z.0 { StringLessTransitive(x.1, y.1, z.1); }
  }

  // ----- the constraint graph -----

  function Names(steps: seq<Step>): set<string> {
    set s | s in steps :: s.name
  }

  ghost predicate UniqueNames(steps: seq<Step>) {
    forall i, j :: 0 <= i < j < |steps| ==> steps[i].name != steps[j].name
  }

  ghost predicate KnownReferences(steps: seq<Step>) {
    forall s, r :: s in steps && (r in s.before || r in s.after) ==> r in Names(steps)
  }

  /** A step precedes what it names in `before` and follows what it names in `after`. */
  predicate StepEdge(s: Step, a: string, b: string) {
    (s.name == a && b in s.before) || (s.name == b && a in s.after)
  }

  ghost predicate Edge(steps: seq<Step>, a: string, b: string) {
    exists s :: s in steps && StepEdge(s, a, b)
  }

  /** The constraint graph over the registered names. */
  ghost function Graph(steps: seq<Step>): Edges {
    set a, b | a in Names(steps) && b in Names(steps) && Edge(steps, a, b) :: (a, b)
  }

  function Preds(es: Edges, n: string): set<string> {
    set e | e in es && e.1 == n :: e.0
  }

  function Succs(es: Edges, n: string): set<string> {
    set e | e in es && e.0 == n :: e.1
  }

  predicate Hop(es: Edges, path: seq<string>, k: nat)
    requires k + 1 < |path|
  {
    (path[k], path[k + 1]) in es
  }

  ghost predicate Path(es: Edges, path: seq<string>) {
    forall k: nat :: k + 1 < |path| ==> Hop(es, path, k)
  }

  ghost predicate IsCycle(es: Edges, path: seq<string>) {
    |path| >= 2 && path[0] == path[|path| - 1] && Path(es, path)
  }

  ghost predicate Cyclic(es: Edges) {
    exists path :: IsCycle(es, path)
  }

  // ----- orders -----

  function NamesOf(ordered: seq<Step>): set<string> {
    set s | s in ordered :: s.name
  }

  /** All predecessors of a step are among `placed`, and it is not. */
  ghost predicate Eligible(steps: seq<Step>, placed: set<string>, s: Step) {
    s in steps && s.name !in placed && forall a :: a in Names(steps) && Edge(steps, a, s.name) ==> a in placed
  }

  /** The step at position k is the least eligible one once the earlier ones are placed. */
  ghost predicate GreedyAt(steps: seq<Step>, ordered: seq<Step>, k: nat)
    requires k < |ordered|
  {
    var placed := NamesOf(ordered[..k]);
    && Eligible(steps, placed, ordered[k])
    && forall s :: Eligible(steps, placed, s) && s != ordered[k] ==> KeyLess(Key(ordered[k]), Key(s))
  }

  ghost predicate GreedyPrefix(steps: seq<Step>, ordered: seq<Step>) {
    forall k :: 0 <= k < |ordered| ==> GreedyAt(steps, ordered, k)
  }

  ghost predicate IsGreedyOrder(steps: seq<Step>, ordered: seq<Step>) {
    multiset(ordered) == multiset(steps) && GreedyPrefix(steps, ordered)
  }

  /** Every constraint holds: a predecessor comes first. */
  ghost predicate RespectsConstraints(steps: seq<Step>, ordered: seq<Step>) {
    forall i, j :: 0 <= i < |ordered| && 0 <= j < |ordered| && Edge(steps, ordered[i].name, ordered[j].name) ==> i < j
  }

  lemma SameMembers(xs: seq<Step>, ys: seq<Step>)
    requires multiset(xs) == multiset(ys)
    ensures forall s :: s in xs <==> s in ys
  {
    assert forall s :: s in xs <==> s in multiset(xs);
    assert forall s :: s in ys <==> s in multiset(ys);
  }

  lemma GreedyNamesDiffer(steps: seq<Step>, ordered: seq<Step>, i: nat, j: nat)
    requires GreedyPrefix(steps, ordered) && i < j < |ordered|
    ensures ordered[i].name != ordered[j].name
  {
    assert GreedyAt(steps, ordered, j);
    assert ordered[..j][i] == ordered[i];
  }

  /** A greedy order respects every constraint. */
  lemma GreedyRespectsConstraints(steps: seq<Step>, ordered: seq<Step>)
    requires IsGreedyOrder(steps, ordered)
    ensures RespectsConstraints(steps, ordered)
  {
    SameMembers(steps, ordered);
    forall i, j | 0 <= i < |ordered| && 0 <= j < |ordered| && Edge(steps, ordered[i].name, ordered[j].name)
      ensures i < j
    {
      assert GreedyAt(steps, ordered, j);
      assert ordered[i] in steps && ordered[i].name in Names(steps);
      var s :| s in ordered[..j] && s.name == ordered[i].name;
      var m :| 0 <= m < j && ordered[m] == s;
      if m < i {
        GreedyNamesDiffer(steps, ordered, m, i);
      }
    }
  }

  /** Along a path of an order that respects the constraints the positions increase. */
  lemma {:induction false} PositionsIncrease(steps: seq<Step>, ordered: seq<Step>, path: seq<string>, last: nat, i: nat, j: nat)
    requires RespectsConstraints(steps, ordered) && Path(Graph(steps), path) && 0 < last < |path|
    requires Names(steps) == NamesOf(ordered)
    requires i < |ordered| && j < |ordered| && ordered[i].name == path[0] && ordered[j].name == path[last]
    ensures i < j
    decreases last
  {
    assert Hop(Graph(steps), path, last - 1);
    if last > 1 {
      assert path[last - 1] in NamesOf(ordered);
      var s :| s in ordered && s.name == path[last - 1];
      var m :| 0 <= m < |ordered| && ordered[m] == s;
      PositionsIncrease(steps, ordered, path, last - 1, i, m);
    }
  }

  /** Steps that can be ordered contain no cycle. */
  lemma OrderableIsAcyclic(steps: seq<Step>, ordered: seq<Step>)
    requires IsGreedyOrder(steps, ordered)
    ensures !Cyclic(Graph(steps))
  {
    GreedyRespectsConstraints(steps, ordered);
    SameMembers(steps, ordered);
    assert Names(steps) == NamesOf(ordered);
    forall path | IsCycle(Graph(steps), path) ensures false {
      assert Hop(Graph(steps), path, 0);
      assert path[0] in NamesOf(ordered);
      var s :| s in ordered && s.name == path[0];
      var i :| 0 <= i < |ordered| && ordered[i] == s;
      PositionsIncrease(steps, ordered, path, |path| - 1, i, i);
    }
  }

  // ----- a stalled queue means a cycle -----

  /** More entries than members force a repetition. */
  lemma {:induction false} Repetition(xs: seq<string>, members: set<string>) returns (i: nat, j: nat)
    requires |xs| > |members| && forall x :: x in xs ==> x in members
    ensures i < j < |xs| && xs[i] == xs[j]
    decreases |xs|
  {
    var last := |xs| - 1;
    if xs[last] in xs[..last] {
      i :| 0 <= i < last && xs[..last][i] == xs[last];
      j := last;
    } else {
      assert xs[last] in members;
      i, j := Repetition(xs[..last], members - {xs[last]});
    }
  }

  predicate HasPredecessorIn(es: Edges, among: set<string>, n: string) {
    exists a :: a in among && (a, n) in es
  }

  /** Walk backwards from a member, for as long as wanted. */
  lemma {:induction false} WalkBack(es: Edges, stuck: set<string>, start: string, length: nat) returns (path: seq<string>)
    requires start in stuck
    requires forall n :: n in stuck ==> HasPredecessorIn(es, stuck, n)
    ensures |path| == length + 1 && Path(es, path) && forall n :: n in path ==> n in stuck
    decreases length
  {
    if length == 0 {
      path := [start];
    } else {
      var shorter := WalkBack(es, stuck, start, length - 1);
      assert shorter[0] in stuck && HasPredecessorIn(es, stuck, shorter[0]);
      var a :| a in stuck && (a, shorter[0]) in es;
      path := [a] + shorter;
      forall k: nat | k + 1 < |path| ensures Hop(es, path, k) {
        if k > 0 { assert Hop(es, shorter, k - 1); }
      }
    }
  }

  lemma RepetitionIsCycle(es: Edges, path: seq<string>, i: nat, j: nat)
    requires Path(es, path) && i < j < |path| && path[i] == path[j]
    ensures Cyclic(es)
  {
    var cycle := path[i..j + 1];
    forall k: nat | k + 1 < |cycle| ensures Hop(es, cycle, k) {
      assert Hop(es, path, i + k);
    }
    assert IsCycle(es, cycle);
  }

  /** A non-empty set in which everybody has a predecessor contains a cycle. */
  lemma StuckMeansCyclic(es: Edges, stuck: set<string>)
    requires stuck != {}
    requires forall n :: n in stuck ==> HasPredecessorIn(es, stuck, n)
    ensures Cyclic(es)
  {
    var start :| start in stuck;
    var path := WalkBack(es, stuck, start, |stuck|);
    var i, j := Repetition(path, stuck);
    RepetitionIsCycle(es, path, i, j);
  }
}
