/** What a freeze accepts, what it returns, and what its errors mean. */
module FreezeMeaning {
  import opened Options
  import opened JsonValues
  import opened FreezeSpec

  // ----- storing distinct keys -----

  /** Keys of one mapping are distinct, as in any dict. */
  ghost predicate DistinctKeys(entries: seq<Entry>) {
    forall i, j :: 0 <= i < j < |entries| && entries[i].key.TextKey? ==> entries[i].key != entries[j].key
  }

  ghost predicate WellKeyed(h: Heap) {
    forall id :: id in h && h[id].Mapping? ==> DistinctKeys(h[id].entries)
  }

  // ----- totals over a growing part -----

  lemma FieldsGrow(m: Meter, fields: seq<Field>, f: Field)
    ensures AfterFields(m, fields + [f]) == AfterField(AfterFields(m, fields), f, |fields|)
  {
    var longer := fields + [f];
    assert longer[..|longer| - 1] == fields && longer[|longer| - 1] == f;
  }

  lemma ElementsGrow(m: Meter, elements: seq<Tree>, t: Tree)
    ensures AfterElements(m, elements + [t]) == AfterElement(AfterElements(m, elements), t, |elements|)
  {
    var longer := elements + [t];
    assert longer[..|longer| - 1] == elements && longer[|longer| - 1] == t;
  }

  /** The totals after a container whose own node is already counted. */
  function AfterContents(m: Meter, t: Tree): Meter {
    Plus(m, TreeNodes(t) - 1, TreeKeys(t), |Bytes(t)|)
  }

  // ----- a successful freeze -----

  ghost predicate FieldFrozen(h: Heap, c: Setting, entry: Entry, depth: nat, sized: bool, f: Field) {
    && FieldDenotes(h, c.policy, entry, f) && Room(c, depth, f.value)
    && (sized ==> ScalarEncodable(c.digits, Str(f.key)) && Encodable(c.digits, f.value))
  }

  ghost predicate FieldsFrozen(h: Heap, c: Setting, entries: seq<Entry>, depth: nat, sized: bool, fields: seq<Field>) {
    |fields| <= |entries| && forall k :: 0 <= k < |fields| ==> FieldFrozen(h, c, entries[k], depth, sized, fields[k])
  }

  ghost predicate ElementFrozen(h: Heap, c: Setting, item: Val, depth: nat, sized: bool, t: Tree) {
    Denotes(h, c.policy, item, t) && Room(c, depth, t) && (sized ==> Encodable(c.digits, t))
  }

  ghost predicate ElementsFrozen(h: Heap, c: Setting, items: seq<Val>, depth: nat, sized: bool, elements: seq<Tree>) {
    |elements| <= |items| && forall k :: 0 <= k < |elements| ==> ElementFrozen(h, c, items[k], depth, sized, elements[k])
  }

  /** What is frozen is the value's unfolding, the totals are exact, and all limits hold. */
  lemma {:induction false} FreezeIsSound(h: Heap, c: Setting, path: set<nat>, v: Val, depth: nat, m: Meter)
    requires WellKeyed(h) && InLimits(c, m)
    ensures var o := Freeze(h, c, path, v, depth, m);
            o.Done? ==> Denotes(h, c.policy, v, o.value) && o.meter == After(m, o.value) && Fits(c, depth, m, o.value)
    decreases |h.Keys - path|, 1, 0
  {
    var o := Freeze(h, c, path, v, depth, m);
    if o.Done? && v.Ref? {
      if Deref(h, v.id).Mapping? {
        MappingIsSound(h, c, path, v.id, depth, AddNode(c, m).value);
      } else {
        SequenceIsSound(h, c, path, v.id, depth, AddNode(c, m).value);
      }
    }
  }

  /** A mapping is frozen when all its entries are. */
  lemma ObjectFrozen(h: Heap, c: Setting, id: nat, depth: nat, m: Meter, fields: seq<Field>)
    requires Deref(h, id).Mapping? && |fields| == |Deref(h, id).entries| && !Exceeds(depth, c.limits.depth)
    requires FieldsFrozen(h, c, Deref(h, id).entries, depth + 1, m.size.Some?, fields)
    ensures Denotes(h, c.policy, Ref(id), Object(fields)) && Room(c, depth, Object(fields)) && Measurable(c, m, Object(fields))
    ensures AfterFields(Plus(m, 0, 0, 2), fields) == AfterContents(m, Object(fields))
  {
    var entries := Deref(h, id).entries;
    forall k | 0 <= k < |fields|
      ensures FieldDenotes(h, c.policy, entries[k], fields[k]) && Room(c, depth + 1, fields[k].value)
      ensures m.size.Some? ==> ScalarEncodable(c.digits, Str(fields[k].key)) && Encodable(c.digits, fields[k].value)
    {
      assert FieldFrozen(h, c, entries[k], depth + 1, m.size.Some?, fields[k]);
    }
  }

  lemma ArrayFrozen(h: Heap, c: Setting, id: nat, depth: nat, m: Meter, elements: seq<Tree>)
    requires (Deref(h, id).List? || Deref(h, id).Tuple?) && |elements| == |Deref(h, id).items| && !Exceeds(depth, c.limits.depth)
    requires ElementsFrozen(h, c, Deref(h, id).items, depth + 1, m.size.Some?, elements)
    ensures Denotes(h, c.policy, Ref(id), Array(elements)) && Room(c, depth, Array(elements)) && Measurable(c, m, Array(elements))
    ensures AfterElements(Plus(m, 0, 0, 2), elements) == AfterContents(m, Array(elements))
  {
    var items := Deref(h, id).items;
    forall k | 0 <= k < |elements|
      ensures Denotes(h, c.policy, items[k], elements[k]) && Room(c, depth + 1, elements[k])
      ensures m.size.Some? ==> Encodable(c.digits, elements[k])
    {
      assert ElementFrozen(h, c, items[k], depth + 1, m.size.Some?, elements[k]);
    }
  }

  lemma {:induction false} MappingIsSound(h: Heap, c: Setting, path: set<nat>, id: nat, depth: nat, m: Meter)
    requires WellKeyed(h) && InLimits(c, m) && !Exceeds(depth, c.limits.depth) && Deref(h, id).Mapping?
    ensures var o := FreezeMapping(h, c, path, id, depth, m);
            o.Done? ==> Denotes(h, c.policy, Ref(id), o.value) && Room(c, depth, o.value) && Measurable(c, m, o.value)
                        && o.meter == AfterContents(m, o.value) && InLimits(c, o.meter)
    decreases |h.Keys - path|, 0, 0
  {
    var o := FreezeMapping(h, c, path, id, depth, m);
    if o.Done? {
      var m1 := Plus(m, 0, 0, 2);
      assert AddBytes(c, m, 2) == Ok(m1);
      assert h.Keys - path == h.Keys - (path + {id}) + {id};
      FieldsAreSound(h, c, path + {id}, Deref(h, id).entries, 0, depth + 1, m1, m1, []);
      ObjectFrozen(h, c, id, depth, m, o.value.fields);
    }
  }

  lemma {:induction false} SequenceIsSound(h: Heap, c: Setting, path: set<nat>, id: nat, depth: nat, m: Meter)
    requires WellKeyed(h) && InLimits(c, m) && !Exceeds(depth, c.limits.depth) && (Deref(h, id).List? || Deref(h, id).Tuple?)
    ensures var o := FreezeSequence(h, c, path, id, depth, m);
            o.Done? ==> Denotes(h, c.policy, Ref(id), o.value) && Room(c, depth, o.value) && Measurable(c, m, o.value)
                        && o.meter == AfterContents(m, o.value) && InLimits(c, o.meter)
    decreases |h.Keys - path|, 0, 0
  {
    var o := FreezeSequence(h, c, path, id, depth, m);
    if o.Done? {
      var m1 := Plus(m, 0, 0, 2);
      assert AddBytes(c, m, 2) == Ok(m1);
      assert h.Keys - path == h.Keys - (path + {id}) + {id};
      ElementsAreSound(h, c, path + {id}, Deref(h, id).items, 0, depth + 1, m1, m1, []);
      ArrayFrozen(h, c, id, depth, m, o.value.elements);
    }
  }

  lemma {:induction false} EntryIsSound(h: Heap, c: Setting, path: set<nat>, entry: Entry, index: nat, depth: nat, m: Meter)
    requires WellKeyed(h) && InLimits(c, m)
    ensures var o := FreezeEntry(h, c, path, entry, index, depth, m);
            o.Done? ==> FieldFrozen(h, c, entry, depth, m.size.Some?, o.value)
                        && o.meter == AfterField(m, o.value, index) && InLimits(c, o.meter)
    decreases |h.Keys - path|, 2, 0
  {
    var o := FreezeEntry(h, c, path, entry, index, depth, m);
    if o.Done? {
      FreezeIsSound(h, c, path, entry.value, depth, AddEntry(c, m, entry.key, index).value);
    }
  }

  lemma {:induction false} ItemIsSound(h: Heap, c: Setting, path: set<nat>, item: Val, index: nat, depth: nat, m: Meter)
    requires WellKeyed(h) && InLimits(c, m)
    ensures var o := FreezeItem(h, c, path, item, index, depth, m);
            o.Done? ==> ElementFrozen(h, c, item, depth, m.size.Some?, o.value)
                        && o.meter == AfterElement(m, o.value, index) && InLimits(c, o.meter)
    decreases |h.Keys - path|, 2, 0
  {
    var o := FreezeItem(h, c, path, item, index, depth, m);
    if o.Done? {
      FreezeIsSound(h, c, path, item, depth, if index > 0 then AddBytes(c, m, 1).value else m);
    }
  }

  /** One more frozen entry at the end. */
  lemma FieldsExtend(h: Heap, c: Setting, entries: seq<Entry>, depth: nat, sized: bool, done: seq<Field>, f: Field)
    requires DistinctKeys(entries) && |done| < |entries|
    requires FieldsFrozen(h, c, entries, depth, sized, done) && FieldFrozen(h, c, entries[|done|], depth, sized, f)
    ensures Store(done, f) == done + [f] && FieldsFrozen(h, c, entries, depth, sized, done + [f])
  {
    forall k | 0 <= k < |done| ensures done[k].key != f.key {
      assert FieldFrozen(h, c, entries[k], depth, sized, done[k]);
    }
    StoreNewKey(done, f);
  }

  lemma {:induction false} FieldsAreSound(h: Heap, c: Setting, path: set<nat>, entries: seq<Entry>, i: nat, depth: nat,
                                          start: Meter, m: Meter, done: seq<Field>)
    requires WellKeyed(h) && DistinctKeys(entries) && i == |done| <= |entries|
    requires FieldsFrozen(h, c, entries, depth, start.size.Some?, done) && m == AfterFields(start, done) && InLimits(c, m)
    ensures var o := FreezeFields(h, c, path, entries, i, depth, m, done);
            o.Done? ==> |o.value| == |entries| && FieldsFrozen(h, c, entries, depth, start.size.Some?, o.value)
                        && o.meter == AfterFields(start, o.value) && InLimits(c, o.meter)
    decreases |h.Keys - path|, 3, |entries| - i
  {
    var o := FreezeFields(h, c, path, entries, i, depth, m, done);
    if o.Done? && i < |entries| {
      EntryIsSound(h, c, path, entries[i], i, depth, m);
      var one := FreezeEntry(h, c, path, entries[i], i, depth, m);
      FieldsExtend(h, c, entries, depth, start.size.Some?, done, one.value);
      FieldsGrow(start, done, one.value);
      FieldsAreSound(h, c, path, entries, i + 1, depth, start, one.meter, done + [one.value]);
    }
  }

  lemma {:induction false} ElementsAreSound(h: Heap, c: Setting, path: set<nat>, items: seq<Val>, i: nat, depth: nat,
                                            start: Meter, m: Meter, done: seq<Tree>)
    requires WellKeyed(h) && i == |done| <= |items|
    requires ElementsFrozen(h, c, items, depth, start.size.Some?, done) && m == AfterElements(start, done) && InLimits(c, m)
    ensures var o := FreezeElements(h, c, path, items, i, depth, m, done);
            o.Done? ==> |o.value| == |items| && ElementsFrozen(h, c, items, depth, start.size.Some?, o.value)
                        && o.meter == AfterElements(start, o.value) && InLimits(c, o.meter)
    decreases |h.Keys - path|, 3, |items| - i
  {
    var o := FreezeElements(h, c, path, items, i, depth, m, done);
    if o.Done? && i < |items| {
      ItemIsSound(h, c, path, items[i], i, depth, m);
      var one := FreezeItem(h, c, path, items[i], i, depth, m);
      ElementsGrow(start, done, one.value);
      ElementsAreSound(h, c, path, items, i + 1, depth, start, one.meter, done + [one.value]);
    }
  }

  // ----- a value that fits is never rejected -----

  /** Containers on the path are proper ancestors: whatever they unfold to has more nodes. */
  ghost predicate AncestorsLarger(h: Heap, policy: Policy, path: set<nat>, nodes: nat) {
    forall a, t' :: a in path && Denotes(h, policy, Ref(a), t') ==> TreeNodes(t') > nodes
  }

  lemma {:induction false} FieldSmaller(fields: seq<Field>, k: nat)
    requires k < |fields|
    ensures TreeNodes(fields[k].value) <= FieldsNodes(fields)
    decreases |fields|
  {
    if k < |fields| - 1 { FieldSmaller(fields[..|fields| - 1], k); }
  }

  lemma {:induction false} ElementSmaller(elements: seq<Tree>, k: nat)
    requires k < |elements|
    ensures TreeNodes(elements[k]) <= ElementsNodes(elements)
    decreases |elements|
  {
    if k < |elements| - 1 { ElementSmaller(elements[..|elements| - 1], k); }
  }

  /** The totals only grow. */
  lemma {:induction false} FieldsPrefixFits(c: Setting, m: Meter, fields: seq<Field>, k: nat)
    requires k <= |fields| && InLimits(c, AfterFields(m, fields))
    ensures InLimits(c, AfterFields(m, fields[..k]))
    decreases |fields| - k
  {
    if k == |fields| {
      assert fields[..k] == fields;
    } else {
      FieldsPrefixFits(c, m, fields, k + 1);
      assert fields[..k + 1] == fields[..k] + [fields[k]];
      FieldsGrow(m, fields[..k], fields[k]);
    }
  }

  lemma {:induction false} ElementsPrefixFits(c: Setting, m: Meter, elements: seq<Tree>, k: nat)
    requires k <= |elements| && InLimits(c, AfterElements(m, elements))
    ensures InLimits(c, AfterElements(m, elements[..k]))
    decreases |elements| - k
  {
    if k == |elements| {
      assert elements[..k] == elements;
    } else {
      ElementsPrefixFits(c, m, elements, k + 1);
      assert elements[..k + 1] == elements[..k] + [elements[k]];
      ElementsGrow(m, elements[..k], elements[k]);
    }
  }

  /** A value whose unfolding fits is frozen to it. */
  lemma {:induction false} FreezeIsComplete(h: Heap, c: Setting, path: set<nat>, v: Val, depth: nat, m: Meter, t: Tree)
    requires WellKeyed(h) && Denotes(h, c.policy, v, t) && Fits(c, depth, m, t) && AncestorsLarger(h, c.policy, path, TreeNodes(t))
    ensures Freeze(h, c, path, v, depth, m) == Done(t, After(m, t))
    decreases |h.Keys - path|, 1, 0
  {
    var m1 := Plus(m, 1, 0, 0);
    assert AddNode(c, m) == Ok(m1);
    if v.Ref? {
      if Deref(h, v.id).Mapping? {
        MappingIsComplete(h, c, path, v.id, depth, m1, t);
      } else {
        SequenceIsComplete(h, c, path, v.id, depth, m1, t);
      }
    }
  }

  lemma EnteringKeepsLarger(h: Heap, policy: Policy, path: set<nat>, id: nat, t: Tree)
    requires Denotes(h, policy, Ref(id), t) && AncestorsLarger(h, policy, path, TreeNodes(t))
    ensures AncestorsLarger(h, policy, path + {id}, TreeNodes(t) - 1)
  {
    forall a, t' | a in path + {id} && Denotes(h, policy, Ref(a), t') ensures TreeNodes(t') > TreeNodes(t) - 1 {
      if a == id { DenotesOne(h, policy, Ref(id), t, t'); }
    }
  }

  lemma ObjectParts(h: Heap, c: Setting, id: nat, depth: nat, m: Meter, fields: seq<Field>)
    requires Denotes(h, c.policy, Ref(id), Object(fields)) && Room(c, depth, Object(fields)) && Measurable(c, m, Object(fields))
    ensures FieldsFrozen(h, c, Deref(h, id).entries, depth + 1, m.size.Some?, fields)
    ensures AfterFields(Plus(m, 0, 0, 2), fields) == AfterContents(m, Object(fields))
  {
    var entries := Deref(h, id).entries;
    forall k | 0 <= k < |fields| ensures FieldFrozen(h, c, entries[k], depth + 1, m.size.Some?, fields[k]) {
      assert FieldDenotes(h, c.policy, entries[k], fields[k]);
    }
  }

  lemma ArrayParts(h: Heap, c: Setting, id: nat, depth: nat, m: Meter, elements: seq<Tree>)
    requires Denotes(h, c.policy, Ref(id), Array(elements)) && Room(c, depth, Array(elements)) && Measurable(c, m, Array(elements))
    ensures ElementsFrozen(h, c, Deref(h, id).items, depth + 1, m.size.Some?, elements)
    ensures AfterElements(Plus(m, 0, 0, 2), elements) == AfterContents(m, Array(elements))
  {
    var items := Deref(h, id).items;
    forall k | 0 <= k < |elements| ensures ElementFrozen(h, c, items[k], depth + 1, m.size.Some?, elements[k]) {
      assert Denotes(h, c.policy, items[k], elements[k]);
    }
  }

  lemma {:induction false} MappingIsComplete(h: Heap, c: Setting, path: set<nat>, id: nat, depth: nat, m: Meter, t: Tree)
    requires WellKeyed(h) && Denotes(h, c.policy, Ref(id), t) && Deref(h, id).Mapping?
    requires AncestorsLarger(h, c.policy, path, TreeNodes(t))
    requires Room(c, depth, t) && Measurable(c, m, t) && InLimits(c, AfterContents(m, t))
    ensures FreezeMapping(h, c, path, id, depth, m) == Done(t, AfterContents(m, t))
    decreases |h.Keys - path|, 0, 0
  {
    var m1 := Plus(m, 0, 0, 2);
    assert AddBytes(c, m, 2) == Ok(m1);
    assert id !in path;
    assert h.Keys - path == h.Keys - (path + {id}) + {id};
    EnteringKeepsLarger(h, c.policy, path, id, t);
    ObjectParts(h, c, id, depth, m, t.fields);
    assert t.fields[..0] == [];
    FieldsAreComplete(h, c, path + {id}, Deref(h, id).entries, 0, depth + 1, m1, t.fields);
  }

  lemma {:induction false} SequenceIsComplete(h: Heap, c: Setting, path: set<nat>, id: nat, depth: nat, m: Meter, t: Tree)
    requires WellKeyed(h) && Denotes(h, c.policy, Ref(id), t) && (Deref(h, id).List? || Deref(h, id).Tuple?)
    requires AncestorsLarger(h, c.policy, path, TreeNodes(t))
    requires Room(c, depth, t) && Measurable(c, m, t) && InLimits(c, AfterContents(m, t))
    ensures FreezeSequence(h, c, path, id, depth, m) == Done(t, AfterContents(m, t))
    decreases |h.Keys - path|, 0, 0
  {
    var m1 := Plus(m, 0, 0, 2);
    assert AddBytes(c, m, 2) == Ok(m1);
    assert id !in path;
    assert h.Keys - path == h.Keys - (path + {id}) + {id};
    EnteringKeepsLarger(h, c.policy, path, id, t);
    ArrayParts(h, c, id, depth, m, t.elements);
    assert t.elements[..0] == [];
    ElementsAreComplete(h, c, path + {id}, Deref(h, id).items, 0, depth + 1, m1, t.elements);
  }

  lemma {:induction false} FieldsAreComplete(h: Heap, c: Setting, path: set<nat>, entries: seq<Entry>, i: nat, depth: nat,
                                             start: Meter, fields: seq<Field>)
    requires WellKeyed(h) && DistinctKeys(entries) && i <= |entries| == |fields|
    requires FieldsFrozen(h, c, entries, depth, start.size.Some?, fields) && InLimits(c, AfterFields(start, fields))
    requires AncestorsLarger(h, c.policy, path, FieldsNodes(fields))
    ensures FreezeFields(h, c, path, entries, i, depth, AfterFields(start, fields[..i]), fields[..i]) == Done(fields, AfterFields(start, fields))
    decreases |h.Keys - path|, 3, |entries| - i
  {
    if i == |entries| {
      assert fields[..i] == fields;
    } else {
      FieldSmaller(fields, i);
      assert fields[..i + 1] == fields[..i] + [fields[i]];
      FieldsGrow(start, fields[..i], fields[i]);
      FieldsPrefixFits(c, start, fields, i + 1);
      assert FieldFrozen(h, c, entries[i], depth, start.size.Some?, fields[i]);
      EntryIsComplete(h, c, path, entries[i], i, depth, AfterFields(start, fields[..i]), fields[i]);
      FieldsExtend(h, c, entries, depth, start.size.Some?, fields[..i], fields[i]);
      FieldsAreComplete(h, c, path, entries, i + 1, depth, start, fields);
    }
  }

  lemma {:induction false} EntryIsComplete(h: Heap, c: Setting, path: set<nat>, entry: Entry, index: nat, depth: nat, m: Meter, f: Field)
    requires WellKeyed(h) && FieldFrozen(h, c, entry, depth, m.size.Some?, f) && InLimits(c, AfterField(m, f, index))
    requires AncestorsLarger(h, c.policy, path, TreeNodes(f.value))
    ensures FreezeEntry(h, c, path, entry, index, depth, m) == Done(f, AfterField(m, f, index))
    decreases |h.Keys - path|, 2, 0
  {
    var m1 := Plus(m, 0, 1, |EncodeText(f.key)| + 1 + if index > 0 then 1 else 0);
    assert AddEntry(c, m, entry.key, index) == Ok(m1);
    FreezeIsComplete(h, c, path, entry.value, depth, m1, f.value);
  }

  lemma {:induction false} ElementsAreComplete(h: Heap, c: Setting, path: set<nat>, items: seq<Val>, i: nat, depth: nat,
                                               start: Meter, elements: seq<Tree>)
    requires WellKeyed(h) && i <= |items| == |elements|
    requires ElementsFrozen(h, c, items, depth, start.size.Some?, elements) && InLimits(c, AfterElements(start, elements))
    requires AncestorsLarger(h, c.policy, path, ElementsNodes(elements))
    ensures FreezeElements(h, c, path, items, i, depth, AfterElements(start, elements[..i]), elements[..i]) == Done(elements, AfterElements(start, elements))
    decreases |h.Keys - path|, 3, |items| - i
  {
    if i == |items| {
      assert elements[..i] == elements;
    } else {
      ElementSmaller(elements, i);
      assert elements[..i + 1] == elements[..i] + [elements[i]];
      ElementsGrow(start, elements[..i], elements[i]);
      ElementsPrefixFits(c, start, elements, i + 1);
      assert ElementFrozen(h, c, items[i], depth, start.size.Some?, elements[i]);
      ItemIsComplete(h, c, path, items[i], i, depth, AfterElements(start, elements[..i]), elements[i]);
      ElementsAreComplete(h, c, path, items, i + 1, depth, start, elements);
    }
  }

  lemma {:induction false} ItemIsComplete(h: Heap, c: Setting, path: set<nat>, item: Val, index: nat, depth: nat, m: Meter, t: Tree)
    requires WellKeyed(h) && ElementFrozen(h, c, item, depth, m.size.Some?, t) && InLimits(c, AfterElement(m, t, index))
    requires AncestorsLarger(h, c.policy, path, TreeNodes(t))
    ensures FreezeItem(h, c, path, item, index, depth, m) == Done(t, AfterElement(m, t, index))
    decreases |h.Keys - path|, 2, 0
  {
    var m1 := Plus(m, 0, 0, if index > 0 then 1 else 0);
    assert (if index > 0 then AddBytes(c, m, 1) else Ok(m)) == Ok(m1);
    FreezeIsComplete(h, c, path, item, depth, m1, t);
  }
}
