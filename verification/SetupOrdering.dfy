/** order_setup_step_registrations: Kahn's algorithm with a heap, over mutable tables. */
module SetupOrdering {
  import opened Options
  import opened SetupOrder

  datatype OrderError = DuplicateName(name: string) | UnknownStep(source: string, reference: string) | CycleFound

  type Heap = multiset<(int, string)>

  // ----- indexing by name -----

  ghost predicate Indexed(steps: seq<Step>, byName: map<string, Step>) {
    && byName.Keys == Names(steps)
    && forall s :: s in steps ==> byName[s.name] == s
  }

  /** Index the steps, refusing the first repeated name. */
  method IndexByName(steps: seq<Step>) returns (r: Result<map<string, Step>, OrderError>)
    ensures r.Ok? <==> UniqueNames(steps)
    ensures r.Ok? ==> Indexed(steps, r.value)
    ensures r.Err? ==> exists i, j :: 0 <= i < j < |steps| && steps[i].name == steps[j].name && r.error == DuplicateName(steps[j].name)
  {
    var byName: map<string, Step> := map[];
    var i := 0;
    while i < |steps|
      invariant i <= |steps| && UniqueNames(steps[..i])
      invariant forall n :: n in byName <==> exists j :: 0 <= j < i && steps[j].name == n
      invariant forall j :: 0 <= j < i ==> steps[j].name in byName && byName[steps[j].name] == steps[j]
    {
      var s := steps[i];
      if s.name in byName {
        return Err(DuplicateName(s.name));
      }
      byName := byName[s.name := s];
      i := i + 1;
    }
    assert steps[..i] == steps;
    r := Ok(byName);
  }

  // ----- the edges, one reference at a time -----

  function WithBefore(es: Edges, s: Step, k: nat): Edges
    requires k <= |s.before|
  {
    if k == 0 then es else WithBefore(es, s, k - 1) + {(s.name, s.before[k - 1])}
  }

  function WithAfter(es: Edges, s: Step, k: nat): Edges
    requires k <= |s.after|
  {
    if k == 0 then es else WithAfter(es, s, k - 1) + {(s.after[k - 1], s.name)}
  }

  function WithStep(es: Edges, s: Step): Edges {
    WithAfter(WithBefore(es, s, |s.before|), s, |s.after|)
  }

  function EdgesOf(steps: seq<Step>, k: nat): Edges
    requires k <= |steps|
  {
    if k == 0 then {} else WithStep(EdgesOf(steps, k - 1), steps[k - 1])
  }

  lemma {:induction false} BeforeEdgesAre(es: Edges, s: Step, k: nat, e: (string, string))
    requires k <= |s.before|
    ensures e in WithBefore(es, s, k) <==> e in es || (e.0 == s.name && e.1 in s.before[..k])
  {
    if k > 0 {
      BeforeEdgesAre(es, s, k - 1, e);
      assert s.before[..k] == s.before[..k - 1] + [s.before[k - 1]];
    }
  }

  lemma {:induction false} AfterEdgesAre(es: Edges, s: Step, k: nat, e: (string, string))
    requires k <= |s.after|
    ensures e in WithAfter(es, s, k) <==> e in es || (e.1 == s.name && e.0 in s.after[..k])
  {
    if k > 0 {
      AfterEdgesAre(es, s, k - 1, e);
      assert s.after[..k] == s.after[..k - 1] + [s.after[k - 1]];
    }
  }

  lemma {:induction false} EdgesOfAre(steps: seq<Step>, k: nat, e: (string, string))
    requires k <= |steps|
    ensures e in EdgesOf(steps, k) <==> exists i :: 0 <= i < k && StepEdge(steps[i], e.0, e.1)
  {
    if k > 0 {
      var s := steps[k - 1];
      EdgesOfAre(steps, k - 1, e);
      var es := EdgesOf(steps, k - 1);
      BeforeEdgesAre(es, s, |s.before|, e);
      AfterEdgesAre(WithBefore(es, s, |s.before|), s, |s.after|, e);
      assert s.before[..|s.before|] == s.before && s.after[..|s.after|] == s.after;
    }
  }

  lemma EdgesOfIsGraph(steps: seq<Step>)
    requires KnownReferences(steps)
    ensures EdgesOf(steps, |steps|) == Graph(steps)
  {
    forall e ensures e in EdgesOf(steps, |steps|) <==> e in Graph(steps) {
      EdgesOfAre(steps, |steps|, e);
      if i :| 0 <= i < |steps| && StepEdge(steps[i], e.0, e.1) {
        assert steps[i] in steps && e.0 in Names(steps) && e.1 in Names(steps);
      }
    }
  }

  // ----- the tables -----

  /** The successor table and the predecessor counts. */
  datatype Tables = Tables(outgoing: map<string, set<string>>, indegree: map<string, int>)

  ghost predicate Describes(t: Tables, es: Edges, n: string) {
    && n in t.outgoing && t.outgoing[n] == Succs(es, n)
    && n in t.indegree && t.indegree[n] == |Preds(es, n)|
  }

  ghost predicate DescribesAll(names: set<string>, t: Tables, es: Edges) {
    && t.outgoing.Keys == names && t.indegree.Keys == names
    && (forall n {:trigger Describes(t, es, n)} :: n in names ==> Describes(t, es, n))
    && (forall e :: e in es ==> e.0 in names && e.1 in names)
  }

  lemma EdgeAdded(es: Edges, a: string, b: string, n: string)
    requires (a, b) !in es
    ensures Preds(es + {(a, b)}, n) == if n == b then Preds(es, n) + {a} else Preds(es, n)
    ensures Succs(es + {(a, b)}, n) == if n == a then Succs(es, n) + {b} else Succs(es, n)
    ensures a !in Preds(es, b)
  {
    var es' := es + {(a, b)};
    forall x ensures x in Preds(es', n) <==> (x in Preds(es, n) || (n == b && x == a)) {
      assert (x, n) in es' <==> (x, n) in es || (x, n) == (a, b);
    }
    forall x ensures x in Succs(es', n) <==> (x in Succs(es, n) || (n == a && x == b)) {
      assert (n, x) in es' <==> (n, x) in es || (n, x) == (a, b);
    }
  }

  function WithEdge(t: Tables, a: string, b: string): Tables
    requires a in t.outgoing && b in t.indegree
  {
    Tables(t.outgoing[a := t.outgoing[a] + {b}], t.indegree[b := t.indegree[b] + 1])
  }

  lemma DescribesWithEdge(t: Tables, a: string, b: string, es: Edges, n: string)
    requires Describes(t, es, a) && Describes(t, es, b) && Describes(t, es, n) && (a, b) !in es
    ensures Describes(WithEdge(t, a, b), es + {(a, b)}, n)
  {
    EdgeAdded(es, a, b, n);
  }

  /** Record one constraint; a repeated one changes nothing. */
  method AddEdge(names: set<string>, t: Tables, a: string, b: string, ghost es: Edges) returns (t': Tables)
    requires a in names && b in names && DescribesAll(names, t, es)
    ensures DescribesAll(names, t', es + {(a, b)})
  {
    assert Describes(t, es, a) && Describes(t, es, b);
    t' := t;
    if b !in t.outgoing[a] {
      assert (a, b) !in es;
      t' := Tables(t.outgoing[a := t.outgoing[a] + {b}], t.indegree[b := t.indegree[b] + 1]);
      forall n | n in names ensures Describes(t', es + {(a, b)}, n) {
        assert Describes(t, es, n);
        DescribesWithEdge(t, a, b, es, n);
      }
    } else {
      assert es + {(a, b)} == es;
    }
  }

  ghost predicate IsUnknownStep(names: set<string>, references: seq<string>, source: string, e: OrderError) {
    e.UnknownStep? && e.source == source && e.reference in references && e.reference !in names
  }

  method AddBefore(names: set<string>, s: Step, t: Tables, ghost es: Edges) returns (r: Result<Tables, OrderError>)
    requires s.name in names && DescribesAll(names, t, es)
    ensures r.Ok? ==> DescribesAll(names, r.value, WithBefore(es, s, |s.before|))
    ensures r.Err? ==> IsUnknownStep(names, s.before, s.name, r.error)
  {
    var t' := t;
    var i := 0;
    while i < |s.before|
      invariant i <= |s.before| && DescribesAll(names, t', WithBefore(es, s, i))
    {
      if s.before[i] !in names {
        return Err(UnknownStep(s.name, s.before[i]));
      }
      t' := AddEdge(names, t', s.name, s.before[i], WithBefore(es, s, i));
      i := i + 1;
    }
    r := Ok(t');
  }

  method AddAfter(names: set<string>, s: Step, t: Tables, ghost es: Edges) returns (r: Result<Tables, OrderError>)
    requires s.name in names && DescribesAll(names, t, es)
    ensures r.Ok? ==> DescribesAll(names, r.value, WithAfter(es, s, |s.after|))
    ensures r.Err? ==> IsUnknownStep(names, s.after, s.name, r.error)
  {
    var t' := t;
    var i := 0;
    while i < |s.after|
      invariant i <= |s.after| && DescribesAll(names, t', WithAfter(es, s, i))
    {
      if s.after[i] !in names {
        return Err(UnknownStep(s.name, s.after[i]));
      }
      t' := AddEdge(names, t', s.after[i], s.name, WithAfter(es, s, i));
      i := i + 1;
    }
    r := Ok(t');
  }

  function NoEdges(names: set<string>): (t: Tables)
    ensures DescribesAll(names, t, {})
  {
    var t := Tables(map n | n in names :: {}, map n | n in names :: 0);
    assert forall n :: n in names ==> Describes(t, {}, n) by {
      forall n | n in names ensures Describes(t, {}, n) { assert Preds({}, n) == {} == Succs({}, n); }
    }
    t
  }

  method AddStep(names: set<string>, steps: seq<Step>, i: nat, t: Tables) returns (r: Result<Tables, OrderError>)
    requires i < |steps| && steps[i].name in names && DescribesAll(names, t, EdgesOf(steps, i))
    ensures r.Ok? ==> DescribesAll(names, r.value, EdgesOf(steps, i + 1))
    ensures r.Err? ==> IsUnknownStep(names, steps[i].before + steps[i].after, steps[i].name, r.error)
  {
    ghost var es := EdgesOf(steps, i);
    r := AddBefore(names, steps[i], t, es);
    if r.Ok? {
      r := AddAfter(names, steps[i], r.value, WithBefore(es, steps[i], |steps[i].before|));
    }
  }

  /** All references of one step are resolved before the next step is looked at. */
  method BuildTables(steps: seq<Step>, names: set<string>) returns (r: Result<Tables, OrderError>)
    requires forall k :: 0 <= k < |steps| ==> steps[k].name in names
    ensures r.Ok? ==> DescribesAll(names, r.value, EdgesOf(steps, |steps|))
    ensures r.Err? ==> exists k :: 0 <= k < |steps| && IsUnknownStep(names, steps[k].before + steps[k].after, steps[k].name, r.error)
  {
    r := Ok(NoEdges(names));
    var i := 0;
    while i < |steps|
      invariant i <= |steps| && r.Ok? && DescribesAll(names, r.value, EdgesOf(steps, i))
    {
      r := AddStep(names, steps, i, r.value);
      if r.Err? {
        return;
      }
      i := i + 1;
    }
  }

  lemma DescribedMeansKnown(steps: seq<Step>, t: Tables)
    requires DescribesAll(Names(steps), t, EdgesOf(steps, |steps|))
    ensures KnownReferences(steps)
  {
    forall s, r | s in steps && (r in s.before || r in s.after) ensures r in Names(steps) {
      var e := if r in s.before then (s.name, r) else (r, s.name);
      var i :| 0 <= i < |steps| && steps[i] == s;
      assert StepEdge(steps[i], e.0, e.1);
      EdgesOfAre(steps, |steps|, e);
    }
  }

  lemma UnknownMeansNotKnown(steps: seq<Step>, e: OrderError)
    requires exists k :: 0 <= k < |steps| && IsUnknownStep(Names(steps), steps[k].before + steps[k].after, steps[k].name, e)
    ensures !KnownReferences(steps)
  {
    var k :| 0 <= k < |steps| && IsUnknownStep(Names(steps), steps[k].before + steps[k].after, steps[k].name, e);
    assert steps[k] in steps;
  }

  // ----- the heap -----

  ghost predicate Least(ready: Heap, k: (int, string)) {
    k in ready && forall x :: x in ready ==> x == k || KeyLess(k, x)
  }

  lemma {:induction false} LeastExists(ready: Heap) returns (k: (int, string))
    requires ready != multiset{}
    ensures Least(ready, k)
    decreases |ready|
  {
    var x :| x in ready;
    k := x;
    if ready - multiset{x} != multiset{} {
      var y := LeastExists(ready - multiset{x});
      KeyLessTotal(x, y);
      k := if KeyLess(y, x) then y else x;
      forall z | z in ready ensures z == k || KeyLess(k, z) {
        if z != x {
          assert z in ready - multiset{x};
          if z != y && k == x && x != y { KeyLessTransitive(x, y, z); }
        }
      }
    } else {
      forall z | z in ready ensures z == k {
        assert z == x || z in ready - multiset{x};
      }
    }
  }

  /** heapq.heappop: take out a least entry. */
  method HeapPop(ready: Heap) returns (k: (int, string), rest: Heap)
    requires ready != multiset{}
    ensures Least(ready, k) && rest == ready - multiset{k}
  {
    ghost var witnessed := LeastExists(ready);
    k :| k in ready && forall x :: x in ready ==> x == k || KeyLess(k, x);
    rest := ready - multiset{k};
  }

  // ----- what the heap holds -----

  /** The key of an unplaced step, outside `todo`, whose predecessors are all placed. */
  ghost predicate Ready(byName: map<string, Step>, es: Edges, placed: set<string>, todo: set<string>, k: (int, string)) {
    && k.1 in byName && k == Key(byName[k.1])
    && k.1 !in placed && k.1 !in todo && Preds(es, k.1) <= placed
  }

  ghost predicate HeapHolds(ready: Heap, byName: map<string, Step>, es: Edges, placed: set<string>, todo: set<string>) {
    forall k :: ready[k] == if Ready(byName, es, placed, todo, k) then 1 else 0
  }

  /** Outside `todo` a count is the number of predecessors not in `placed`, inside it lags by one. */
  ghost predicate CountAt(indegree: map<string, int>, es: Edges, placed: set<string>, todo: set<string>, n: string) {
    n in indegree && indegree[n] == |Preds(es, n) - placed| + if n in todo then 1 else 0
  }

  ghost predicate CountsAll(names: set<string>, indegree: map<string, int>, es: Edges, placed: set<string>, todo: set<string>) {
    forall n {:trigger CountAt(indegree, es, placed, todo, n)} :: n in names ==> CountAt(indegree, es, placed, todo, n)
  }

  /** Whatever is placed has its predecessors placed. */
  ghost predicate Closed(es: Edges, placed: set<string>) {
    forall n :: n in placed ==> Preds(es, n) <= placed
  }

  lemma ReadyIsEligible(steps: seq<Step>, byName: map<string, Step>, placed: set<string>, s: Step)
    requires Indexed(steps, byName) && KnownReferences(steps)
    ensures Eligible(steps, placed, s) <==> s in steps && Ready(byName, Graph(steps), placed, {}, Key(s))
  {
    if s in steps {
      assert s.name in Names(steps);
      assert forall a :: a in Preds(Graph(steps), s.name) <==> a in Names(steps) && Edge(steps, a, s.name) by {
        forall a ensures a in Preds(Graph(steps), s.name) <==> a in Names(steps) && Edge(steps, a, s.name) {
          assert a in Preds(Graph(steps), s.name) <==> (a, s.name) in Graph(steps);
        }
      }
    }
  }

  /** The heap's least entry is the next step of the greedy order. */
  lemma LeastIsGreedy(steps: seq<Step>, byName: map<string, Step>, ordered: seq<Step>, ready: Heap, k: (int, string))
    requires Indexed(steps, byName) && KnownReferences(steps) && GreedyPrefix(steps, ordered)
    requires HeapHolds(ready, byName, Graph(steps), NamesOf(ordered), {}) && Least(ready, k)
    ensures k.1 in byName && byName[k.1] in steps && GreedyPrefix(steps, ordered + [byName[k.1]])
  {
    var placed := NamesOf(ordered);
    assert Ready(byName, Graph(steps), placed, {}, k);
    var next := byName[k.1];
    assert k.1 in Names(steps);
    ReadyIsEligible(steps, byName, placed, next);
    var longer := ordered + [next];
    forall i | 0 <= i < |longer| ensures GreedyAt(steps, longer, i) {
      assert longer[..i] == ordered[..i];
      if i < |ordered| {
        assert GreedyAt(steps, ordered, i);
      } else {
        assert longer[..i] == ordered;
        forall s | Eligible(steps, placed, s) && s != next ensures KeyLess(k, Key(s)) {
          ReadyIsEligible(steps, byName, placed, s);
          assert Key(s) in ready;
        }
      }
    }
  }

  lemma SuccessorsSucceed(es: Edges, placed: set<string>, k: string)
    requires Closed(es, placed)
    ensures forall n :: n in Succs(es, k) <==> k in Preds(es, n)
  {
    forall n ensures n in Succs(es, k) <==> k in Preds(es, n) {
      assert n in Succs(es, k) <==> (k, n) in es;
      assert k in Preds(es, n) <==> (k, n) in es;
    }
  }

  /** Placing k moves its successors into `todo`: the heap loses k only. */
  lemma PlacingKeepsHeap(byName: map<string, Step>, es: Edges, placed: set<string>, ready: Heap, k: (int, string))
    requires HeapHolds(ready, byName, es, placed, {}) && k in ready && Closed(es, placed)
    ensures HeapHolds(ready - multiset{k}, byName, es, placed + {k.1}, Succs(es, k.1))
    ensures Closed(es, placed + {k.1}) && Succs(es, k.1) !! placed + {k.1}
  {
    var todo := Succs(es, k.1);
    assert Ready(byName, es, placed, {}, k);
    SuccessorsSucceed(es, placed, k.1);
    forall x ensures (ready - multiset{k})[x] == if Ready(byName, es, placed + {k.1}, todo, x) then 1 else 0 {
      if x == k {
      } else if x.1 == k.1 {
      } else if x.1 !in todo {
        assert k.1 !in Preds(es, x.1);
      }
    }
  }

  /** The counts of the successors are still to be lowered, all others stand. */
  lemma PlacingKeepsCounts(names: set<string>, es: Edges, placed: set<string>, indegree: map<string, int>, k: string)
    requires CountsAll(names, indegree, es, placed, {}) && Closed(es, placed) && k !in placed
    ensures CountsAll(names, indegree, es, placed + {k}, Succs(es, k))
  {
    SuccessorsSucceed(es, placed, k);
    forall n | n in names ensures CountAt(indegree, es, placed + {k}, Succs(es, k), n) {
      assert CountAt(indegree, es, placed, {}, n);
      if n in Succs(es, k) {
        assert Preds(es, n) - placed == Preds(es, n) - (placed + {k}) + {k};
      } else {
        assert Preds(es, n) - placed == Preds(es, n) - (placed + {k});
      }
    }
  }

  /** Both at once, for the step the heap yields. */
  lemma PlacingStartsUpdate(names: set<string>, byName: map<string, Step>, es: Edges, placed: set<string>, ready: Heap,
                            indegree: map<string, int>, k: (int, string))
    requires HeapHolds(ready, byName, es, placed, {}) && k in ready && Closed(es, placed)
    requires CountsAll(names, indegree, es, placed, {})
    ensures HeapHolds(ready - multiset{k}, byName, es, placed + {k.1}, Succs(es, k.1))
    ensures CountsAll(names, indegree, es, placed + {k.1}, Succs(es, k.1))
    ensures Closed(es, placed + {k.1}) && Succs(es, k.1) !! placed + {k.1}
  {
    assert Ready(byName, es, placed, {}, k);
    PlacingKeepsHeap(byName, es, placed, ready, k);
    PlacingKeepsCounts(names, es, placed, indegree, k.1);
  }

  /** Discounting one successor, and pushing it when its count reaches zero. */
  lemma SuccessorDone(names: set<string>, byName: map<string, Step>, es: Edges, placed: set<string>, todo: set<string>,
                      ready: Heap, indegree: map<string, int>, n: string)
    requires HeapHolds(ready, byName, es, placed, todo) && CountsAll(names, indegree, es, placed, todo)
    requires n in todo && n in names && n in byName && todo !! placed && byName[n].name == n
    ensures n in indegree
    ensures CountsAll(names, indegree[n := indegree[n] - 1], es, placed, todo - {n})
    ensures HeapHolds(if indegree[n] - 1 == 0 then ready + multiset{Key(byName[n])} else ready, byName, es, placed, todo - {n})
  {
    assert CountAt(indegree, es, placed, todo, n);
    forall m | m in names ensures CountAt(indegree[n := indegree[n] - 1], es, placed, todo - {n}, m) {
      assert CountAt(indegree, es, placed, todo, m);
    }
    assert indegree[n] - 1 == 0 <==> Preds(es, n) - placed == {};
    assert Preds(es, n) - placed == {} <==> Preds(es, n) <= placed by {
      if Preds(es, n) - placed == {} {
        forall x | x in Preds(es, n) ensures x in placed { assert x !in Preds(es, n) - placed; }
      }
    }
    var ready' := if indegree[n] - 1 == 0 then ready + multiset{Key(byName[n])} else ready;
    forall x ensures ready'[x] == if Ready(byName, es, placed, todo - {n}, x) then 1 else 0 {
      if x.1 == n {
        assert !Ready(byName, es, placed, todo, x);
        if x == Key(byName[n]) {}
      }
    }
  }

  /** Lower the count of every successor of the step just placed. */
  method ReleaseSuccessors(names: set<string>, byName: map<string, Step>, successors: set<string>, ready: Heap,
                           indegree: map<string, int>, ghost es: Edges, ghost placed: set<string>)
    returns (ready': Heap, indegree': map<string, int>)
    requires byName.Keys == names && successors <= names && successors !! placed
    requires forall n :: n in names ==> byName[n].name == n
    requires HeapHolds(ready, byName, es, placed, successors) && CountsAll(names, indegree, es, placed, successors)
    ensures HeapHolds(ready', byName, es, placed, {}) && CountsAll(names, indegree', es, placed, {})
  {
    ready', indegree' := ready, indegree;
    var todo := successors;
    while todo != {}
      invariant todo <= successors
      invariant HeapHolds(ready', byName, es, placed, todo) && CountsAll(names, indegree', es, placed, todo)
      decreases |todo|
    {
      var n :| n in todo;
      SuccessorDone(names, byName, es, placed, todo, ready', indegree', n);
      indegree' := indegree'[n := indegree'[n] - 1];
      if indegree'[n] == 0 {
        ready' := ready' + multiset{Key(byName[n])};
      }
      todo := todo - {n};
    }
  }

  // ----- the end of the run -----

  /** Steps left when the queue is empty all wait for each other. */
  lemma StalledMeansCyclic(names: set<string>, byName: map<string, Step>, es: Edges, placed: set<string>)
    requires byName.Keys == names && (forall n :: n in names ==> byName[n].name == n)
    requires forall e :: e in es ==> e.0 in names
    requires HeapHolds(multiset{}, byName, es, placed, {}) && names - placed != {}
    ensures Cyclic(es)
  {
    var stuck := names - placed;
    forall n | n in stuck ensures HasPredecessorIn(es, stuck, n) {
      assert !Ready(byName, es, placed, {}, Key(byName[n])) by { assert multiset{}[Key(byName[n])] == 0; }
      var a :| a in Preds(es, n) && a !in placed;
      assert a in stuck && (a, n) in es;
    }
    StuckMeansCyclic(es, stuck);
  }

  lemma {:induction false} DistinctOccurOnce(xs: seq<Step>, s: Step)
    requires UniqueNames(xs)
    ensures multiset(xs)[s] == if s in xs then 1 else 0
    decreases |xs|
  {
    if xs != [] {
      var last := |xs| - 1;
      DistinctOccurOnce(xs[..last], s);
      assert xs == xs[..last] + [xs[last]];
    }
  }

  /** All names, each once: every step occurs exactly once. */
  lemma FullOrderIsPermutation(steps: seq<Step>, ordered: seq<Step>)
    requires (forall s :: s in ordered ==> s in steps) && Names(steps) == NamesOf(ordered)
    requires UniqueNames(steps) && UniqueNames(ordered)
    ensures multiset(ordered) == multiset(steps)
  {
    forall s ensures multiset(ordered)[s] == multiset(steps)[s] {
      DistinctOccurOnce(steps, s);
      DistinctOccurOnce(ordered, s);
      if s in steps {
        assert s.name in NamesOf(ordered);
        var o :| o in ordered && o.name == s.name;
        assert o in steps;
      }
    }
  }

  lemma {:induction false} GreedyNamesCount(steps: seq<Step>, ordered: seq<Step>, k: nat)
    requires GreedyPrefix(steps, ordered) && k <= |ordered|
    ensures |NamesOf(ordered[..k])| == k
  {
    if k > 0 {
      GreedyNamesCount(steps, ordered, k - 1);
      assert GreedyAt(steps, ordered, k - 1);
      assert NamesOf(ordered[..k]) == NamesOf(ordered[..k - 1]) + {ordered[k - 1].name} by { NamesOfLast(ordered, k); }
    }
  }

  lemma NamesOfLast(ordered: seq<Step>, k: nat)
    requires 0 < k <= |ordered|
    ensures NamesOf(ordered[..k]) == NamesOf(ordered[..k - 1]) + {ordered[k - 1].name}
  {
    assert ordered[..k] == ordered[..k - 1] + [ordered[k - 1]];
  }

  lemma {:induction false} NamesCount(steps: seq<Step>)
    requires UniqueNames(steps)
    ensures |Names(steps)| == |steps|
    decreases |steps|
  {
    if steps != [] {
      var last := |steps| - 1;
      NamesCount(steps[..last]);
      assert steps == steps[..last] + [steps[last]];
      assert Names(steps) == Names(steps[..last]) + {steps[last].name};
    }
  }

  lemma GreedyInSteps(steps: seq<Step>, ordered: seq<Step>)
    requires GreedyPrefix(steps, ordered)
    ensures (forall s :: s in ordered ==> s in steps) && UniqueNames(ordered) && NamesOf(ordered) <= Names(steps)
    ensures |NamesOf(ordered)| == |ordered|
  {
    forall s | s in ordered ensures s in steps {
      var i :| 0 <= i < |ordered| && ordered[i] == s;
      assert GreedyAt(steps, ordered, i);
    }
    forall i, j | 0 <= i < j < |ordered| ensures ordered[i].name != ordered[j].name {
      GreedyNamesDiffer(steps, ordered, i, j);
    }
    GreedyNamesCount(steps, ordered, |ordered|);
    assert ordered[..|ordered|] == ordered;
  }

  /** What is known when the queue has run empty. */
  lemma QueueEmpty(steps: seq<Step>, byName: map<string, Step>, ordered: seq<Step>)
    requires UniqueNames(steps) && KnownReferences(steps) && Indexed(steps, byName)
    requires GreedyPrefix(steps, ordered) && HeapHolds(multiset{}, byName, Graph(steps), NamesOf(ordered), {})
    ensures |ordered| == |steps| ==> IsGreedyOrder(steps, ordered)
    ensures |ordered| != |steps| ==> Cyclic(Graph(steps))
  {
    GreedyInSteps(steps, ordered);
    NamesCount(steps);
    assert Names(steps) == NamesOf(ordered) + (Names(steps) - NamesOf(ordered));
    if |ordered| == |steps| {
      FullOrderIsPermutation(steps, ordered);
    } else {
      StalledMeansCyclic(Names(steps), byName, Graph(steps), NamesOf(ordered));
    }
  }

  /** The keys of the steps without predecessors. */
  method InitialHeap(steps: seq<Step>, indegree: map<string, int>, ghost byName: map<string, Step>, ghost es: Edges) returns (ready: Heap)
    requires UniqueNames(steps) && Indexed(steps, byName)
    requires CountsAll(Names(steps), indegree, es, {}, {})
    ensures HeapHolds(ready, byName, es, {}, {})
  {
    ready := multiset{};
    var i := 0;
    while i < |steps|
      invariant i <= |steps|
      invariant forall k :: ready[k] == if k.1 in NamesOf(steps[..i]) && Ready(byName, es, {}, {}, k) then 1 else 0
    {
      var s := steps[i];
      assert s in steps && s.name in Names(steps);
      assert CountAt(indegree, es, {}, {}, s.name);
      assert Preds(es, s.name) - {} == Preds(es, s.name);
      assert s.name !in NamesOf(steps[..i]);
      NamesOfLast(steps, i + 1);
      if indegree[s.name] == 0 {
        ready := ready + multiset{Key(s)};
      }
      i := i + 1;
    }
    assert steps[..i] == steps;
    assert NamesOf(steps) == byName.Keys;
  }

  lemma FreshCounts(names: set<string>, t: Tables, es: Edges)
    requires DescribesAll(names, t, es)
    ensures CountsAll(names, t.indegree, es, {}, {})
  {
    forall n | n in names ensures CountAt(t.indegree, es, {}, {}, n) {
      assert Describes(t, es, n);
      assert Preds(es, n) - {} == Preds(es, n);
    }
  }

  lemma SuccessorTable(names: set<string>, t: Tables, es: Edges)
    requires DescribesAll(names, t, es)
    ensures t.outgoing.Keys == names && forall n :: n in t.outgoing ==> t.outgoing[n] == Succs(es, n)
  {
    forall n | n in names || n in t.outgoing ensures n in t.outgoing && t.outgoing[n] == Succs(es, n) {
      assert Describes(t, es, n);
    }
  }

  /** Pop, output and release until no step is ready. */
  method Drain(steps: seq<Step>, byName: map<string, Step>, outgoing: map<string, set<string>>,
               heap: Heap, counts: map<string, int>, ghost es: Edges) returns (ordered: seq<Step>)
    requires Indexed(steps, byName) && KnownReferences(steps) && es == Graph(steps)
    requires outgoing.Keys == byName.Keys && forall n :: n in outgoing ==> outgoing[n] == Succs(es, n)
    requires HeapHolds(heap, byName, es, {}, {}) && CountsAll(byName.Keys, counts, es, {}, {})
    ensures GreedyPrefix(steps, ordered) && HeapHolds(multiset{}, byName, es, NamesOf(ordered), {})
  {
    var ready, indegree := heap, counts;
    ordered := [];
    while ready != multiset{}
      invariant GreedyPrefix(steps, ordered) && Closed(es, NamesOf(ordered))
      invariant HeapHolds(ready, byName, es, NamesOf(ordered), {})
      invariant CountsAll(byName.Keys, indegree, es, NamesOf(ordered), {})
      decreases |byName.Keys - NamesOf(ordered)|
    {
      var k, rest := HeapPop(ready);
      LeastIsGreedy(steps, byName, ordered, ready, k);
      PlacingStartsUpdate(byName.Keys, byName, es, NamesOf(ordered), ready, indegree, k);
      OnePlaced(steps, byName, es, ordered, ready, k);
      ordered := ordered + [byName[k.1]];
      ready, indegree := ReleaseSuccessors(byName.Keys, byName, outgoing[k.1], rest, indegree, es, NamesOf(ordered));
    }
  }

  lemma OnePlaced(steps: seq<Step>, byName: map<string, Step>, es: Edges, ordered: seq<Step>, ready: Heap, k: (int, string))
    requires Indexed(steps, byName) && es == Graph(steps)
    requires HeapHolds(ready, byName, es, NamesOf(ordered), {}) && k in ready
    ensures k.1 in byName && NamesOf(ordered + [byName[k.1]]) == NamesOf(ordered) + {k.1}
    ensures |byName.Keys - NamesOf(ordered + [byName[k.1]])| < |byName.Keys - NamesOf(ordered)|
    ensures Succs(es, k.1) <= byName.Keys && forall n :: n in byName ==> byName[n].name == n
  {
    assert Ready(byName, es, NamesOf(ordered), {}, k);
    var longer := ordered + [byName[k.1]];
    NamesOfLast(longer, |longer|);
    assert longer[..|longer|] == longer && longer[..|ordered|] == ordered;
    assert byName.Keys - NamesOf(ordered) == byName.Keys - NamesOf(longer) + {k.1};
    forall n | n in Succs(es, k.1) ensures n in byName { assert (k.1, n) in es; }
  }

  /**
    Kahn's algorithm. It succeeds exactly when names are unique, references known and the
    constraint graph has no cycle, and then yields the greedy order.
   */
  method OrderSetupStepRegistrations(steps: seq<Step>) returns (r: Result<seq<Step>, OrderError>)
    ensures r.Ok? <==> UniqueNames(steps) && KnownReferences(steps) && !Cyclic(Graph(steps))
    ensures r.Ok? ==> IsGreedyOrder(steps, r.value)
    ensures r.Err? && r.error.DuplicateName? <==> !UniqueNames(steps)
    ensures r.Err? && r.error.UnknownStep? <==> UniqueNames(steps) && !KnownReferences(steps)
  {
    var indexed := IndexByName(steps);
    if indexed.Err? {
      return Err(indexed.error);
    }
    var byName := indexed.value;
    var tables := BuildTables(steps, byName.Keys);
    if tables.Err? {
      UnknownMeansNotKnown(steps, tables.error);
      return Err(tables.error);
    }
    var t := tables.value;
    DescribedMeansKnown(steps, t);
    EdgesOfIsGraph(steps);
    FreshCounts(byName.Keys, t, Graph(steps));
    var ready := InitialHeap(steps, t.indegree, byName, Graph(steps));
    SuccessorTable(byName.Keys, t, Graph(steps));
    var ordered := Drain(steps, byName, t.outgoing, ready, t.indegree, Graph(steps));
    QueueEmpty(steps, byName, ordered);
    if |ordered| != |steps| {
      return Err(CycleFound);
    }
    OrderableIsAcyclic(steps, ordered);
    r := Ok(ordered);
  }
}
