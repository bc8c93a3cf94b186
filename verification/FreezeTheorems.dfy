/** The main results about freeze_json, thaw_json and canonical_json_bytes. */
module FreezeTheorems {
  import opened Options
  import opened JsonValues
  import opened FreezeSpec
  import opened FreezeMeaning

  /** A freeze succeeds exactly on the values with a finite unfolding within all limits. */
  lemma FreezeAcceptsExactly(h: Heap, c: Setting, v: Val)
    requires WellKeyed(h)
    ensures FreezeJson(h, c, v).Ok? <==> exists t :: Denotes(h, c.policy, v, t) && Fits(c, 0, Fresh(c), t)
  {
    FreezeIsSound(h, c, {}, v, 0, Fresh(c));
    if t :| Denotes(h, c.policy, v, t) && Fits(c, 0, Fresh(c), t) {
      FreezeIsComplete(h, c, {}, v, 0, Fresh(c), t);
    }
  }

  /** The size measured during the walk is the length of the canonical encoding, and within budget. */
  lemma MeasuredSizeIsExact(h: Heap, c: Setting, v: Val)
    requires WellKeyed(h) && FreezeJson(h, c, v).Ok?
    ensures var (t, size) := FreezeJson(h, c, v).value;
            && Denotes(h, c.policy, v, t)
            && (c.limits.bytes.None? ==> size == None)
            && (c.limits.bytes.Some? ==> CanonicalJsonBytes(c.digits, t).Some?
                                         && size == Some(|CanonicalJsonBytes(c.digits, t).value|)
                                         && size.value <= c.limits.bytes.value)
  {
    FreezeIsSound(h, c, {}, v, 0, Fresh(c));
  }

  // ----- cycles -----

  ghost predicate HasChild(h: Heap, a: nat, b: nat) {
    var n := Deref(h, a);
    || (n.Mapping? && exists i :: 0 <= i < |n.entries| && n.entries[i].value == Ref(b))
    || ((n.List? || n.Tuple?) && Ref(b) in n.items)
  }

  ghost predicate Chain(h: Heap, p: seq<nat>) {
    forall i, j :: 0 <= i && j == i + 1 && j < |p| ==> HasChild(h, p[i], p[j])
  }

  /** A chain of containers whose last one has occurred before. */
  ghost predicate Lasso(h: Heap, p: seq<nat>) {
    Chain(h, p) && exists k :: 0 <= k < |p| - 1 && p[k] == p[|p| - 1]
  }

  lemma ChainExtends(h: Heap, trail: seq<nat>, id: nat)
    requires Chain(h, trail) && (trail != [] ==> HasChild(h, trail[|trail| - 1], id))
    ensures Chain(h, trail + [id])
  {
  }

  lemma RevisitIsLasso(h: Heap, trail: seq<nat>, id: nat)
    requires Chain(h, trail + [id]) && id in trail
    ensures Lasso(h, trail + [id])
  {
    var k :| 0 <= k < |trail| && trail[k] == id;
    assert (trail + [id])[k] == (trail + [id])[|trail|];
  }

  lemma {:induction false} CycleBelow(h: Heap, c: Setting, path: set<nat>, v: Val, depth: nat, m: Meter, trail: seq<nat>) returns (p: seq<nat>)
    requires Freeze(h, c, path, v, depth, m) == Failed(Cycle)
    requires Chain(h, trail) && (forall a :: a in path <==> a in trail)
    requires v.Ref? && trail != [] ==> HasChild(h, trail[|trail| - 1], v.id)
    ensures v.Ref? && trail + [v.id] <= p && Lasso(h, p)
    decreases |h.Keys - path|, 1, 0
  {
    ChainExtends(h, trail, v.id);
    if v.id in path {
      p := trail + [v.id];
      RevisitIsLasso(h, trail, v.id);
    } else if Deref(h, v.id).Mapping? {
      p := CycleInMapping(h, c, path, v.id, depth, AddNode(c, m).value, trail + [v.id]);
    } else {
      p := CycleInSequence(h, c, path, v.id, depth, AddNode(c, m).value, trail + [v.id]);
    }
  }

  lemma {:induction false} CycleInMapping(h: Heap, c: Setting, path: set<nat>, id: nat, depth: nat, m: Meter, trail: seq<nat>) returns (p: seq<nat>)
    requires Deref(h, id).Mapping? && FreezeMapping(h, c, path, id, depth, m) == Failed(Cycle) && id !in path
    requires Chain(h, trail) && trail != [] && trail[|trail| - 1] == id && (forall a :: a in path + {id} <==> a in trail)
    ensures trail <= p && Lasso(h, p)
    decreases |h.Keys - path|, 0, 0
  {
    assert h.Keys - path == h.Keys - (path + {id}) + {id};
    p := CycleInFields(h, c, path + {id}, Deref(h, id).entries, 0, depth + 1, AddBytes(c, m, 2).value, [], trail);
  }

  lemma {:induction false} CycleInSequence(h: Heap, c: Setting, path: set<nat>, id: nat, depth: nat, m: Meter, trail: seq<nat>) returns (p: seq<nat>)
    requires Deref(h, id).List? || Deref(h, id).Tuple?
    requires FreezeSequence(h, c, path, id, depth, m) == Failed(Cycle) && id !in path
    requires Chain(h, trail) && trail != [] && trail[|trail| - 1] == id && (forall a :: a in path + {id} <==> a in trail)
    ensures trail <= p && Lasso(h, p)
    decreases |h.Keys - path|, 0, 0
  {
    assert h.Keys - path == h.Keys - (path + {id}) + {id};
    p := CycleInElements(h, c, path + {id}, Deref(h, id).items, 0, depth + 1, AddBytes(c, m, 2).value, [], trail);
  }

  lemma {:induction false} CycleInFields(h: Heap, c: Setting, path: set<nat>, entries: seq<Entry>, i: nat, depth: nat, m: Meter,
                                         done: seq<Field>, trail: seq<nat>) returns (p: seq<nat>)
    requires i <= |entries| && FreezeFields(h, c, path, entries, i, depth, m, done) == Failed(Cycle)
    requires Chain(h, trail) && trail != [] && (forall a :: a in path <==> a in trail)
    requires Deref(h, trail[|trail| - 1]) == Mapping(entries)
    ensures trail <= p && Lasso(h, p)
    decreases |h.Keys - path|, 3, |entries| - i
  {
    var one := FreezeEntry(h, c, path, entries[i], i, depth, m);
    if one.Done? {
      p := CycleInFields(h, c, path, entries, i + 1, depth, one.meter, Store(done, one.value), trail);
    } else {
      p := CycleBelow(h, c, path, entries[i].value, depth, AddEntry(c, m, entries[i].key, i).value, trail);
    }
  }

  lemma {:induction false} CycleInElements(h: Heap, c: Setting, path: set<nat>, items: seq<Val>, i: nat, depth: nat, m: Meter,
                                           done: seq<Tree>, trail: seq<nat>) returns (p: seq<nat>)
    requires i <= |items| && FreezeElements(h, c, path, items, i, depth, m, done) == Failed(Cycle)
    requires Chain(h, trail) && trail != [] && (forall a :: a in path <==> a in trail)
    requires Deref(h, trail[|trail| - 1]) in {List(items), Tuple(items)}
    ensures trail <= p && Lasso(h, p)
    decreases |h.Keys - path|, 3, |items| - i
  {
    var one := FreezeItem(h, c, path, items[i], i, depth, m);
    if one.Done? {
      p := CycleInElements(h, c, path, items, i + 1, depth, one.meter, done + [one.value], trail);
    } else {
      p := CycleBelow(h, c, path, items[i], depth, if i > 0 then AddBytes(c, m, 1).value else m, trail);
    }
  }

  /** A cycle is reported only for a container, below the root, that is its own ancestor. */
  lemma CycleErrorsAreReal(h: Heap, c: Setting, v: Val) returns (p: seq<nat>)
    requires FreezeJson(h, c, v) == Err(Cycle)
    ensures v.Ref? && p != [] && p[0] == v.id && Lasso(h, p)
  {
    p := CycleBelow(h, c, {}, v, 0, Fresh(c), []);
    assert [] + [v.id] == [v.id] <= p;
  }

  /** Going down a chain, unfoldings get strictly smaller. */
  lemma {:induction false} AncestorsUnfoldLarger(h: Heap, policy: Policy, p: seq<nat>, i: nat, j: nat, t: Tree) returns (t': Tree)
    requires Chain(h, p) && i <= j < |p| && Denotes(h, policy, Ref(p[i]), t)
    ensures Denotes(h, policy, Ref(p[j]), t') && TreeNodes(t') + (j - i) <= TreeNodes(t)
    decreases j - i
  {
    if i == j {
      t' := t;
    } else {
      assert HasChild(h, p[i], p[i + 1]);
      var below: Tree;
      if t.Object? {
        var entries := Deref(h, p[i]).entries;
        var k :| 0 <= k < |entries| && entries[k].value == Ref(p[i + 1]);
        assert FieldDenotes(h, policy, entries[k], t.fields[k]);
        FieldSmaller(t.fields, k);
        below := t.fields[k].value;
      } else {
        var items := Deref(h, p[i]).items;
        var k :| 0 <= k < |items| && items[k] == Ref(p[i + 1]);
        assert Denotes(h, policy, items[k], t.elements[k]);
        ElementSmaller(t.elements, k);
        below := t.elements[k];
      }
      t' := AncestorsUnfoldLarger(h, policy, p, i + 1, j, below);
    }
  }

  /** A value below which some container is its own ancestor has no finite unfolding, so it is rejected. */
  lemma CyclicValuesAreRejected(h: Heap, c: Setting, p: seq<nat>)
    requires WellKeyed(h) && p != [] && Lasso(h, p)
    ensures FreezeJson(h, c, Ref(p[0])).Err?
  {
    if FreezeJson(h, c, Ref(p[0])).Ok? {
      FreezeAcceptsExactly(h, c, Ref(p[0]));
      var t :| Denotes(h, c.policy, Ref(p[0]), t);
      var k :| 0 <= k < |p| - 1 && p[k] == p[|p| - 1];
      var tk := AncestorsUnfoldLarger(h, c.policy, p, 0, k, t);
      var tl := AncestorsUnfoldLarger(h, c.policy, p, k, |p| - 1, tk);
      DenotesOne(h, c.policy, Ref(p[k]), tk, tl);
      assert false;
    }
  }

  // ----- thawing -----

  /** The object graph together with the next unused identity. */
  datatype Memory = Memory(heap: Heap, next: nat)

  ghost predicate Allocated(s: Memory) {
    forall id: nat :: id in s.heap ==> id < s.next
  }

  /** Nothing allocated before is touched. */
  ghost predicate Extends(s: Memory, s': Memory) {
    s.next <= s'.next && forall id: nat :: id < s.next ==> Deref(s'.heap, id) == Deref(s.heap, id)
  }

  function Allocate(s: Memory, n: Node): (Memory, Val) {
    (Memory(s.heap[s.next := n], s.next + 1), Ref(s.next))
  }

  /** thaw_json: fresh dicts and lists all the way down. */
  function Thaw(s: Memory, t: Tree): (Memory, Val)
    decreases t
  {
    match t
    case Leaf(a) => (s, Atom(a))
    case Object(fields) => var (s1, entries) := ThawFields(s, fields); Allocate(s1, Mapping(entries))
    case Array(elements) => var (s1, items) := ThawElements(s, elements); Allocate(s1, List(items))
  }

  function ThawFields(s: Memory, fields: seq<Field>): (Memory, seq<Entry>)
    decreases fields
  {
    if fields == [] then (s, [])
    else
      var last := |fields| - 1;
      var (s1, entries) := ThawFields(s, fields[..last]);
      var (s2, v) := Thaw(s1, fields[last].value);
      (s2, entries + [Entry(TextKey(fields[last].key), v)])
  }

  function ThawElements(s: Memory, elements: seq<Tree>): (Memory, seq<Val>)
    decreases elements
  {
    if elements == [] then (s, [])
    else
      var last := |elements| - 1;
      var (s1, items) := ThawElements(s, elements[..last]);
      var (s2, v) := Thaw(s1, elements[last]);
      (s2, items + [v])
  }

  /** The rules without domain validators. */
  function Plain(): Policy {
    Policy((s: Text) => Ok(s), (n: Number) => Ok(n))
  }

  /** Finite numbers, and distinct keys in every mapping. */
  ghost predicate Proper(t: Tree)
    decreases t
  {
    match t
    case Leaf(a) => a.Num? ==> !a.number.NonFinite?
    case Object(fields) =>
      && (forall i, j :: 0 <= i < j < |fields| ==> fields[i].key != fields[j].key)
      && forall i :: 0 <= i < |fields| ==> Proper(fields[i].value)
    case Array(elements) => forall i :: 0 <= i < |elements| ==> Proper(elements[i])
  }

  lemma {:induction false} DenotesStable(s: Memory, s': Memory, policy: Policy, v: Val, t: Tree)
    requires Allocated(s) && Extends(s, s') && Denotes(s.heap, policy, v, t)
    ensures Denotes(s'.heap, policy, v, t)
    decreases t
  {
    match t
    case Leaf(_) =>
    case Object(fields) =>
      var entries := Deref(s.heap, v.id).entries;
      assert Deref(s'.heap, v.id) == Deref(s.heap, v.id);
      forall i | 0 <= i < |fields| ensures FieldDenotes(s'.heap, policy, entries[i], fields[i]) {
        assert FieldDenotes(s.heap, policy, entries[i], fields[i]);
        DenotesStable(s, s', policy, entries[i].value, fields[i].value);
      }
    case Array(elements) =>
      var items := Deref(s.heap, v.id).items;
      assert Deref(s'.heap, v.id) == Deref(s.heap, v.id);
      forall i | 0 <= i < |elements| ensures Denotes(s'.heap, policy, items[i], elements[i]) {
        DenotesStable(s, s', policy, items[i], elements[i]);
      }
  }

  ghost predicate Grown(s: Memory, s': Memory) {
    Allocated(s') && WellKeyed(s'.heap) && Extends(s, s')
  }

  lemma AllocateGrows(s: Memory, n: Node)
    requires Allocated(s) && WellKeyed(s.heap) && (n.Mapping? ==> DistinctKeys(n.entries))
    ensures var (s', v) := Allocate(s, n); Grown(s, s') && v.Ref? && Deref(s'.heap, v.id) == n
  {
  }

  /** A thawed tree denotes that tree, in fresh objects. */
  lemma {:induction false} ThawDenotes(s: Memory, t: Tree)
    requires Allocated(s) && WellKeyed(s.heap) && Proper(t)
    ensures var (s', v) := Thaw(s, t); Grown(s, s') && Denotes(s'.heap, Plain(), v, t)
    decreases t
  {
    match t
    case Leaf(_) =>
    case Object(fields) =>
      ThawFieldsDenote(s, fields);
      var (s1, entries) := ThawFields(s, fields);
      ThawedKeysDiffer(s1, entries, fields);
      AllocateGrows(s1, Mapping(entries));
      var (s2, v) := Allocate(s1, Mapping(entries));
      forall i | 0 <= i < |fields| ensures FieldDenotes(s2.heap, Plain(), entries[i], fields[i]) {
        assert FieldDenotes(s1.heap, Plain(), entries[i], fields[i]);
        DenotesStable(s1, s2, Plain(), entries[i].value, fields[i].value);
      }
    case Array(elements) =>
      ThawElementsDenote(s, elements);
      var (s1, items) := ThawElements(s, elements);
      AllocateGrows(s1, List(items));
      var (s2, v) := Allocate(s1, List(items));
      forall i | 0 <= i < |elements| ensures Denotes(s2.heap, Plain(), items[i], elements[i]) {
        DenotesStable(s1, s2, Plain(), items[i], elements[i]);
      }
  }

  lemma ThawedKeysDiffer(s: Memory, entries: seq<Entry>, fields: seq<Field>)
    requires |entries| == |fields| && forall i :: 0 <= i < |fields| ==> FieldDenotes(s.heap, Plain(), entries[i], fields[i])
    requires forall i, j :: 0 <= i < j < |fields| ==> fields[i].key != fields[j].key
    ensures DistinctKeys(entries)
  {
    forall i, j | 0 <= i < j < |entries| && entries[i].key.TextKey? ensures entries[i].key != entries[j].key {
      assert FieldDenotes(s.heap, Plain(), entries[i], fields[i]) && FieldDenotes(s.heap, Plain(), entries[j], fields[j]);
    }
  }

  lemma {:induction false} ThawFieldsDenote(s: Memory, fields: seq<Field>)
    requires Allocated(s) && WellKeyed(s.heap) && forall i :: 0 <= i < |fields| ==> Proper(fields[i].value)
    ensures var (s', entries) := ThawFields(s, fields);
            Grown(s, s') && |entries| == |fields| && forall i :: 0 <= i < |fields| ==> FieldDenotes(s'.heap, Plain(), entries[i], fields[i])
    decreases fields
  {
    if fields != [] {
      var last := |fields| - 1;
      ThawFieldsDenote(s, fields[..last]);
      var (s1, entries) := ThawFields(s, fields[..last]);
      ThawDenotes(s1, fields[last].value);
      var (s2, v) := Thaw(s1, fields[last].value);
      forall i | 0 <= i < last ensures FieldDenotes(s2.heap, Plain(), entries[i], fields[i]) {
        assert fields[..last][i] == fields[i];
        assert FieldDenotes(s1.heap, Plain(), entries[i], fields[i]);
        DenotesStable(s1, s2, Plain(), entries[i].value, fields[i].value);
      }
    }
  }

  lemma {:induction false} ThawElementsDenote(s: Memory, elements: seq<Tree>)
    requires Allocated(s) && WellKeyed(s.heap) && forall i :: 0 <= i < |elements| ==> Proper(elements[i])
    ensures var (s', items) := ThawElements(s, elements);
            Grown(s, s') && |items| == |elements| && forall i :: 0 <= i < |elements| ==> Denotes(s'.heap, Plain(), items[i], elements[i])
    decreases elements
  {
    if elements != [] {
      var last := |elements| - 1;
      ThawElementsDenote(s, elements[..last]);
      var (s1, items) := ThawElements(s, elements[..last]);
      ThawDenotes(s1, elements[last]);
      var (s2, v) := Thaw(s1, elements[last]);
      forall i | 0 <= i < last ensures Denotes(s2.heap, Plain(), items[i], elements[i]) {
        assert elements[..last][i] == elements[i];
        DenotesStable(s1, s2, Plain(), items[i], elements[i]);
      }
    }
  }

  /** Whatever a freeze without domain validators returns is proper. */
  lemma {:induction false} DenotedIsProper(h: Heap, v: Val, t: Tree)
    requires WellKeyed(h) && Denotes(h, Plain(), v, t)
    ensures Proper(t)
    decreases t
  {
    match t
    case Leaf(_) =>
    case Object(fields) =>
      var entries := Deref(h, v.id).entries;
      forall i | 0 <= i < |fields| ensures entries[i].key == TextKey(fields[i].key) && Proper(fields[i].value) {
        assert FieldDenotes(h, Plain(), entries[i], fields[i]);
        DenotedIsProper(h, entries[i].value, fields[i].value);
      }
    case Array(elements) =>
      forall i | 0 <= i < |elements| ensures Proper(elements[i]) {
        DenotedIsProper(h, Deref(h, v.id).items[i], elements[i]);
      }
  }

  function Unlimited(): Setting {
    Setting(Limits(None, None, None, None), Plain(), None)
  }

  /** Freezing what was thawed gives back the frozen value. */
  lemma FreezeUndoesThaw(s: Memory, t: Tree)
    requires Allocated(s) && WellKeyed(s.heap) && Proper(t)
    ensures var (s', v) := Thaw(s, t); FreezeJson(s'.heap, Unlimited(), v) == Ok((t, None))
  {
    ThawDenotes(s, t);
    var (s', v) := Thaw(s, t);
    FreezeIsComplete(s'.heap, Unlimited(), {}, v, 0, Fresh(Unlimited()), t);
  }

  /** Two values agree when every list or tuple holds agreeing items and every mapping agreeing entries. */
  ghost predicate SameUpToTuples(h: Heap, v: Val, h': Heap, v': Val, t: Tree)
  {
    Denotes(h, Plain(), v, t) && Denotes(h', Plain(), v', t)
  }

  /** Thawing what was frozen gives the original again, lists standing for tuples; nothing old is touched. */
  lemma ThawUndoesFreeze(s: Memory, v: Val)
    requires Allocated(s) && WellKeyed(s.heap) && FreezeJson(s.heap, Unlimited(), v).Ok?
    ensures var t := FreezeJson(s.heap, Unlimited(), v).value.0;
            var (s', v') := Thaw(s, t);
            Extends(s, s') && SameUpToTuples(s.heap, v, s'.heap, v', t)
  {
    FreezeIsSound(s.heap, Unlimited(), {}, v, 0, Fresh(Unlimited()));
    var t := FreezeJson(s.heap, Unlimited(), v).value.0;
    DenotedIsProper(s.heap, v, t);
    ThawDenotes(s, t);
  }
}
