/** The deep-freeze as a function of the object graph, and what it means. */
module FreezeSpec {
  import opened Options
  import opened JsonValues

  datatype Failure =
    | NotJson | BadKey                                    // JSONTypeError
    | TooDeep | TooManyNodes | TooManyKeys | TooManyBytes // JSONLimitError
    | BadText | BadNumber | Cycle
    | Domain(message: string)                             // a domain validator's own error

  datatype Limits = Limits(depth: Option<nat>, nodes: Option<nat>, keys: Option<nat>, bytes: Option<nat>)

  /** `digits` is the interpreter's limit on converting integers to text. */
  datatype Setting = Setting(limits: Limits, policy: Policy, digits: Option<nat>)

  /** The running totals of one walk. A size is kept only under a byte budget. */
  datatype Meter = Meter(nodes: nat, keys: nat, size: Option<nat>)

  predicate Exceeds(n: int, limit: Option<nat>) {
    limit.Some? && n > limit.value
  }

  // ----- the walk's small steps -----

  function AddBytes(c: Setting, m: Meter, count: nat): Result<Meter, Failure> {
    if m.size.None? then Ok(m)
    else if Exceeds(m.size.value + count, c.limits.bytes) then Err(TooManyBytes)
    else Ok(m.(size := Some(m.size.value + count)))
  }

  function AddNode(c: Setting, m: Meter): Result<Meter, Failure> {
    if Exceeds(m.nodes + 1, c.limits.nodes) then Err(TooManyNodes) else Ok(m.(nodes := m.nodes + 1))
  }

  function AddKey(c: Setting, m: Meter): Result<Meter, Failure> {
    if Exceeds(m.keys + 1, c.limits.keys) then Err(TooManyKeys) else Ok(m.(keys := m.keys + 1))
  }

  function AddScalar(c: Setting, m: Meter, s: Scalar): Result<Meter, Failure> {
    if m.size.None? then Ok(m)
    else if !ScalarEncodable(c.digits, s) then Err(if s.Str? then BadText else BadNumber)
    else AddBytes(c, m, |EncodeScalar(s)|)
  }

  /** What one entry costs before its value is frozen. */
  function AddEntry(c: Setting, m: Meter, key: Key, index: nat): Result<Meter, Failure> {
    if key.OtherKey? then Err(BadKey)
    else
      match AddKey(c, m)
      case Err(e) => Err(e)
      case Ok(m1) =>
        match AddScalar(c, m1, Str(key.text))
        case Err(e) => Err(e)
        case Ok(m2) => AddBytes(c, m2, 1 + if index > 0 then 1 else 0)
  }

  datatype Outcome<T> = Done(value: T, meter: Meter) | Failed(failure: Failure)

  /** _Walk.freeze with the containers on the current path as a parameter. */
  function Freeze(h: Heap, c: Setting, path: set<nat>, v: Val, depth: nat, m: Meter): Outcome<Tree>
    decreases |h.Keys - path|, 1, 0
  {
    if Exceeds(depth, c.limits.depth) then Failed(TooDeep)
    else
      match AddNode(c, m)
      case Err(e) => Failed(e)
      case Ok(m1) =>
        match v
        case Atom(s) => FreezeScalar(c, s, m1)
        case Ref(id) =>
          var n := Deref(h, id);
          if n.Mapping? then FreezeMapping(h, c, path, id, depth, m1)
          else if n.Foreign? then Failed(NotJson)
          else FreezeSequence(h, c, path, id, depth, m1)
  }

  function FreezeScalar(c: Setting, s: Scalar, m: Meter): Outcome<Tree> {
    if s.Num? && s.number.NonFinite? then Failed(BadNumber)
    else
      match Vet(c.policy, s)
      case Err(e) => Failed(Domain(e))
      case Ok(stored) =>
        match AddScalar(c, m, stored)
        case Err(e) => Failed(e)
        case Ok(m1) => Done(Leaf(stored), m1)
  }

  function FreezeMapping(h: Heap, c: Setting, path: set<nat>, id: nat, depth: nat, m: Meter): Outcome<Tree>
    requires Deref(h, id).Mapping?
    decreases |h.Keys - path|, 0, 0
  {
    if id in path then Failed(Cycle)
    else
      match AddBytes(c, m, 2)
      case Err(e) => Failed(e)
      case Ok(m1) =>
        assert h.Keys - path == h.Keys - (path + {id}) + {id};
        match FreezeFields(h, c, path + {id}, Deref(h, id).entries, 0, depth + 1, m1, [])
        case Failed(e) => Failed(e)
        case Done(fields, m2) => Done(Object(fields), m2)
  }

  function FreezeSequence(h: Heap, c: Setting, path: set<nat>, id: nat, depth: nat, m: Meter): Outcome<Tree>
    requires Deref(h, id).List? || Deref(h, id).Tuple?
    decreases |h.Keys - path|, 0, 0
  {
    if id in path then Failed(Cycle)
    else
      match AddBytes(c, m, 2)
      case Err(e) => Failed(e)
      case Ok(m1) =>
        assert h.Keys - path == h.Keys - (path + {id}) + {id};
        match FreezeElements(h, c, path + {id}, Deref(h, id).items, 0, depth + 1, m1, [])
        case Failed(e) => Failed(e)
        case Done(elements, m2) => Done(Array(elements), m2)
  }

  function FreezeEntry(h: Heap, c: Setting, path: set<nat>, entry: Entry, index: nat, depth: nat, m: Meter): Outcome<Field>
    decreases |h.Keys - path|, 2, 0
  {
    match AddEntry(c, m, entry.key, index)
    case Err(e) => Failed(e)
    case Ok(m1) =>
      match Freeze(h, c, path, entry.value, depth, m1)
      case Failed(e) => Failed(e)
      case Done(t, m2) => Done(Field(entry.key.text, t), m2)
  }

  function FreezeFields(h: Heap, c: Setting, path: set<nat>, entries: seq<Entry>, i: nat, depth: nat, m: Meter, done: seq<Field>): Outcome<seq<Field>>
    requires i <= |entries|
    decreases |h.Keys - path|, 3, |entries| - i
  {
    if i == |entries| then Done(done, m)
    else
      match FreezeEntry(h, c, path, entries[i], i, depth, m)
      case Failed(e) => Failed(e)
      case Done(f, m1) => FreezeFields(h, c, path, entries, i + 1, depth, m1, Store(done, f))
  }

  function FreezeItem(h: Heap, c: Setting, path: set<nat>, item: Val, index: nat, depth: nat, m: Meter): Outcome<Tree>
    decreases |h.Keys - path|, 2, 0
  {
    match (if index > 0 then AddBytes(c, m, 1) else Ok(m))
    case Err(e) => Failed(e)
    case Ok(m1) => Freeze(h, c, path, item, depth, m1)
  }

  function FreezeElements(h: Heap, c: Setting, path: set<nat>, items: seq<Val>, i: nat, depth: nat, m: Meter, done: seq<Tree>): Outcome<seq<Tree>>
    requires i <= |items|
    decreases |h.Keys - path|, 3, |items| - i
  {
    if i == |items| then Done(done, m)
    else
      match FreezeItem(h, c, path, items[i], i, depth, m)
      case Failed(e) => Failed(e)
      case Done(t, m1) => FreezeElements(h, c, path, items, i + 1, depth, m1, done + [t])
  }

  function Fresh(c: Setting): Meter {
    Meter(0, 0, if c.limits.bytes.Some? then Some(0) else None)
  }

  /** freeze_json: the frozen value and its encoded size. */
  function FreezeJson(h: Heap, c: Setting, v: Val): Result<(Tree, Option<nat>), Failure> {
    match Freeze(h, c, {}, v, 0, Fresh(c))
    case Failed(e) => Err(e)
    case Done(t, m) => Ok((t, m.size))
  }

  // ----- totals -----

  /** The totals after adding a frozen part of the given cost. */
  function Plus(m: Meter, nodes: nat, keys: nat, bytes: nat): Meter {
    Meter(m.nodes + nodes, m.keys + keys, if m.size.None? then None else Some(m.size.value + bytes))
  }

  predicate InLimits(c: Setting, m: Meter) {
    && !Exceeds(m.nodes, c.limits.nodes) && !Exceeds(m.keys, c.limits.keys)
    && (m.size.Some? ==> !Exceeds(m.size.value, c.limits.bytes))
  }

  function After(m: Meter, t: Tree): Meter {
    Plus(m, TreeNodes(t), TreeKeys(t), |Bytes(t)|)
  }

  /** The totals after one entry at this position. */
  function AfterField(m: Meter, f: Field, index: nat): Meter {
    After(Plus(m, 0, 1, |EncodeText(f.key)| + 1 + if index > 0 then 1 else 0), f.value)
  }

  function AfterElement(m: Meter, t: Tree, index: nat): Meter {
    After(Plus(m, 0, 0, if index > 0 then 1 else 0), t)
  }

  function AfterFields(m: Meter, fields: seq<Field>): Meter {
    Plus(m, FieldsNodes(fields), FieldsKeys(fields), |FieldsBytes(fields)|)
  }

  function AfterElements(m: Meter, elements: seq<Tree>): Meter {
    Plus(m, ElementsNodes(elements), ElementsKeys(elements), |ElementsBytes(elements)|)
  }

  predicate Room(c: Setting, depth: nat, t: Tree) {
    c.limits.depth.None? || Within(t, c.limits.depth.value - depth)
  }

  predicate Measurable(c: Setting, m: Meter, t: Tree) {
    m.size.None? || Encodable(c.digits, t)
  }

  /** `t` stays within every limit when frozen at this depth with these running totals. */
  predicate Fits(c: Setting, depth: nat, m: Meter, t: Tree) {
    Room(c, depth, t) && InLimits(c, After(m, t)) && Measurable(c, m, t)
  }
}
