/** _Walk: the freeze as one object whose counters and ancestor set change as it recurses. */
module FreezeWalk {
  import opened Options
  import opened JsonValues
  import opened FreezeSpec

  class Walk {
    const heap: Heap
    const setting: Setting
    var nodes: nat
    var keys: nat
    var size: Option<nat>
    var ancestors: set<nat>

    constructor (heap: Heap, setting: Setting)
      ensures this.heap == heap && this.setting == setting && Totals() == Fresh(setting) && ancestors == {}
    {
      this.heap, this.setting := heap, setting;
      nodes, keys, size := 0, 0, if setting.limits.bytes.Some? then Some(0) else None;
      ancestors := {};
    }

    function Totals(): Meter
      reads this
    {
      Meter(nodes, keys, size)
    }

    /** How a call that returned `r` relates to the specified outcome; a failed walk is abandoned. */
    ghost predicate Follows<T>(r: Result<T, Failure>, spec: Outcome<T>)
      reads this
    {
      match spec
      case Done(value, meter) => r == Ok(value) && Totals() == meter
      case Failed(e) => r == Err(e)
    }

    method AddBytes(count: nat) returns (r: Result<(), Failure>)
      modifies this`size
      ensures match FreezeSpec.AddBytes(setting, old(Totals()), count)
              case Ok(m) => r.Ok? && Totals() == m
              case Err(e) => r == Err(e)
    {
      if size.None? {
        return Ok(());
      }
      size := Some(size.value + count);
      if Exceeds(size.value, setting.limits.bytes) {
        return Err(TooManyBytes);
      }
      r := Ok(());
    }

    method AddNode() returns (r: Result<(), Failure>)
      modifies this`nodes
      ensures match FreezeSpec.AddNode(setting, old(Totals()))
              case Ok(m) => r.Ok? && Totals() == m
              case Err(e) => r == Err(e)
    {
      nodes := nodes + 1;
      r := if Exceeds(nodes, setting.limits.nodes) then Err(TooManyNodes) else Ok(());
    }

    method AddKey() returns (r: Result<(), Failure>)
      modifies this`keys
      ensures match FreezeSpec.AddKey(setting, old(Totals()))
              case Ok(m) => r.Ok? && Totals() == m
              case Err(e) => r == Err(e)
    {
      keys := keys + 1;
      r := if Exceeds(keys, setting.limits.keys) then Err(TooManyKeys) else Ok(());
    }

    method AddScalar(s: Scalar) returns (r: Result<(), Failure>)
      modifies this`size
      ensures match FreezeSpec.AddScalar(setting, old(Totals()), s)
              case Ok(m) => r.Ok? && Totals() == m
              case Err(e) => r == Err(e)
    {
      if size.None? {
        return Ok(());
      }
      if !ScalarEncodable(setting.digits, s) {
        return Err(if s.Str? then BadText else BadNumber);
      }
      r := AddBytes(|EncodeScalar(s)|);
    }

    /** The whole of one value; the ancestors are the same again on every exit. */
    method Freeze(v: Val, depth: nat) returns (r: Result<Tree, Failure>)
      modifies this
      ensures Follows(r, FreezeSpec.Freeze(heap, setting, old(ancestors), v, depth, old(Totals())))
      ensures ancestors == old(ancestors)
      decreases |heap.Keys - ancestors|, 1, 0
    {
      if Exceeds(depth, setting.limits.depth) {
        return Err(TooDeep);
      }
      var counted := AddNode();
      if counted.Err? {
        return Err(counted.error);
      }
      if v.Atom? {
        r := FreezeScalar(v.scalar);
      } else if Deref(heap, v.id).Mapping? {
        r := FreezeMapping(v.id, depth);
      } else if Deref(heap, v.id).Foreign? {
        r := Err(NotJson);
      } else {
        r := FreezeSequence(v.id, depth);
      }
    }

    method FreezeScalar(s: Scalar) returns (r: Result<Tree, Failure>)
      modifies this`size
      ensures Follows(r, FreezeSpec.FreezeScalar(setting, s, old(Totals())))
    {
      if s.Num? && s.number.NonFinite? {
        return Err(BadNumber);
      }
      var stored := Vet(setting.policy, s);
      if stored.Err? {
        return Err(Domain(stored.error));
      }
      var added := AddScalar(stored.value);
      r := if added.Err? then Err(added.error) else Ok(Leaf(stored.value));
    }

    method FreezeMapping(id: nat, depth: nat) returns (r: Result<Tree, Failure>)
      requires Deref(heap, id).Mapping?
      modifies this
      ensures Follows(r, FreezeSpec.FreezeMapping(heap, setting, old(ancestors), id, depth, old(Totals())))
      ensures ancestors == old(ancestors)
      decreases |heap.Keys - ancestors|, 0, 0
    {
      if id in ancestors {
        return Err(Cycle);
      }
      assert heap.Keys - ancestors == heap.Keys - (ancestors + {id}) + {id};
      ancestors := ancestors + {id};
      var inner := FreezeEntries(Deref(heap, id).entries, depth);
      ancestors := ancestors - {id};
      r := if inner.Err? then Err(inner.error) else Ok(Object(inner.value));
    }

    /** The body of _freeze_mapping between entering and leaving. */
    method FreezeEntries(entries: seq<Entry>, depth: nat) returns (r: Result<seq<Field>, Failure>)
      modifies this
      ensures match FreezeSpec.AddBytes(setting, old(Totals()), 2)
              case Err(e) => r == Err(e)
              case Ok(m) => Follows(r, FreezeFields(heap, setting, old(ancestors), entries, 0, depth + 1, m, []))
      ensures ancestors == old(ancestors)
      decreases |heap.Keys - ancestors|, 3, 0
    {
      var added := AddBytes(2);
      if added.Err? {
        return Err(added.error);
      }
      ghost var spec := FreezeFields(heap, setting, ancestors, entries, 0, depth + 1, Totals(), []);
      var frozen: seq<Field> := [];
      var i := 0;
      while i < |entries|
        invariant i <= |entries| && ancestors == old(ancestors)
        invariant FreezeFields(heap, setting, ancestors, entries, i, depth + 1, Totals(), frozen) == spec
      {
        var one := FreezeEntry(entries[i], i, depth + 1);
        if one.Err? {
          return Err(one.error);
        }
        frozen := Store(frozen, one.value);
        i := i + 1;
      }
      r := Ok(frozen);
    }

    method FreezeEntry(entry: Entry, index: nat, depth: nat) returns (r: Result<Field, Failure>)
      modifies this
      ensures Follows(r, FreezeSpec.FreezeEntry(heap, setting, old(ancestors), entry, index, depth, old(Totals())))
      ensures ancestors == old(ancestors)
      decreases |heap.Keys - ancestors|, 2, 0
    {
      if entry.key.OtherKey? {
        return Err(BadKey);
      }
      var added := AddKey();
      if added.Ok? {
        added := AddScalar(Str(entry.key.text));
      }
      if added.Ok? {
        added := AddBytes(1 + if index > 0 then 1 else 0);
      }
      if added.Err? {
        return Err(added.error);
      }
      var value := Freeze(entry.value, depth);
      r := if value.Err? then Err(value.error) else Ok(Field(entry.key.text, value.value));
    }

    method FreezeSequence(id: nat, depth: nat) returns (r: Result<Tree, Failure>)
      requires Deref(heap, id).List? || Deref(heap, id).Tuple?
      modifies this
      ensures Follows(r, FreezeSpec.FreezeSequence(heap, setting, old(ancestors), id, depth, old(Totals())))
      ensures ancestors == old(ancestors)
      decreases |heap.Keys - ancestors|, 0, 0
    {
      if id in ancestors {
        return Err(Cycle);
      }
      assert heap.Keys - ancestors == heap.Keys - (ancestors + {id}) + {id};
      ancestors := ancestors + {id};
      var inner := FreezeItems(Deref(heap, id).items, depth);
      ancestors := ancestors - {id};
      r := if inner.Err? then Err(inner.error) else Ok(Array(inner.value));
    }

    /** The body of _freeze_sequence between entering and leaving. */
    method FreezeItems(items: seq<Val>, depth: nat) returns (r: Result<seq<Tree>, Failure>)
      modifies this
      ensures match FreezeSpec.AddBytes(setting, old(Totals()), 2)
              case Err(e) => r == Err(e)
              case Ok(m) => Follows(r, FreezeElements(heap, setting, old(ancestors), items, 0, depth + 1, m, []))
      ensures ancestors == old(ancestors)
      decreases |heap.Keys - ancestors|, 3, 0
    {
      var added := AddBytes(2);
      if added.Err? {
        return Err(added.error);
      }
      ghost var spec := FreezeElements(heap, setting, ancestors, items, 0, depth + 1, Totals(), []);
      var frozen: seq<Tree> := [];
      var i := 0;
      while i < |items|
        invariant i <= |items| && ancestors == old(ancestors)
        invariant FreezeElements(heap, setting, ancestors, items, i, depth + 1, Totals(), frozen) == spec
      {
        var comma: Result<(), Failure> := Ok(());
        if i > 0 {
          comma := AddBytes(1);
        }
        if comma.Err? {
          return Err(comma.error);
        }
        var one := Freeze(items[i], depth + 1);
        if one.Err? {
          return Err(one.error);
        }
        frozen := frozen + [one.value];
        i := i + 1;
      }
      r := Ok(frozen);
    }
  }

  /** freeze_json. */
  method FreezeValue(heap: Heap, setting: Setting, v: Val) returns (r: Result<(Tree, Option<nat>), Failure>)
    ensures r == FreezeJson(heap, setting, v)
  {
    var walk := new Walk(heap, setting);
    var frozen := walk.Freeze(v, 0);
    r := if frozen.Err? then Err(frozen.error) else Ok((frozen.value, walk.size));
  }
}
