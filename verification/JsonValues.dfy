/**
  JSON-shaped values: the caller's object graph, frozen trees, and the canonical encoding
  (UTF-8, compact separators, no ASCII escaping).
 */
module JsonValues {
  import opened Options

  type CodePoint = c: int | 0 <= c < 0x110000 witness 0
  type Text = seq<CodePoint>
  type Byte = b: int | 0 <= b < 256 witness 0

  /** A finite float is identified by its shortest decimal form. */
  datatype Number = Integer(n: int) | Float(decimal: seq<Byte>) | NonFinite(special: Special)

  datatype Special = NaN | Infinity | NegativeInfinity

  datatype Scalar = Null | Boolean(b: bool) | Str(s: Text) | Num(number: Number)

  /** A Python value: a scalar, or a reference to an object. */
  datatype Val = Atom(scalar: Scalar) | Ref(id: nat)

  datatype Key = TextKey(text: Text) | OtherKey

  datatype Entry = Entry(key: Key, value: Val)

  datatype Node = Mapping(entries: seq<Entry>) | List(items: seq<Val>) | Tuple(items: seq<Val>) | Foreign

  type Heap = map<nat, Node>

  /** An object that is not stored is not a container. */
  function Deref(h: Heap, id: nat): Node {
    if id in h then h[id] else Foreign
  }

  datatype Field = Field(key: Text, value: Tree)

  /** What a freeze returns: read-only mappings and tuples all the way down. */
  datatype Tree = Leaf(scalar: Scalar) | Object(fields: seq<Field>) | Array(elements: seq<Tree>)

  /** Storing into a dict: an existing key keeps its place. */
  function Store(fields: seq<Field>, f: Field): seq<Field> {
    if fields == [] then [f]
    else if fields[0].key == f.key then [f] + fields[1..]
    else [fields[0]] + Store(fields[1..], f)
  }

  lemma {:induction false} StoreNewKey(fields: seq<Field>, f: Field)
    requires forall k :: 0 <= k < |fields| ==> fields[k].key != f.key
    ensures Store(fields, f) == fields + [f]
    decreases |fields|
  {
    if fields != [] {
      StoreNewKey(fields[1..], f);
      assert fields == [fields[0]] + fields[1..];
    }
  }

  // ----- measures of a tree -----

  function TreeNodes(t: Tree): (n: nat)
    ensures n >= 1
    decreases t
  {
    match t
    case Leaf(_) => 1
    case Object(fields) => 1 + FieldsNodes(fields)
    case Array(elements) => 1 + ElementsNodes(elements)
  }

  function FieldsNodes(fields: seq<Field>): nat
    decreases fields
  {
    if fields == [] then 0
    else FieldsNodes(fields[..|fields| - 1]) + TreeNodes(fields[|fields| - 1].value)
  }

  function ElementsNodes(elements: seq<Tree>): nat
    decreases elements
  {
    if elements == [] then 0
    else ElementsNodes(elements[..|elements| - 1]) + TreeNodes(elements[|elements| - 1])
  }

  function TreeKeys(t: Tree): nat
    decreases t
  {
    match t
    case Leaf(_) => 0
    case Object(fields) => FieldsKeys(fields)
    case Array(elements) => ElementsKeys(elements)
  }

  function FieldsKeys(fields: seq<Field>): nat
    decreases fields
  {
    if fields == [] then 0
    else FieldsKeys(fields[..|fields| - 1]) + 1 + TreeKeys(fields[|fields| - 1].value)
  }

  function ElementsKeys(elements: seq<Tree>): nat
    decreases elements
  {
    if elements == [] then 0
    else ElementsKeys(elements[..|elements| - 1]) + TreeKeys(elements[|elements| - 1])
  }

  /** No value lies more than `room` levels below the root. */
  predicate Within(t: Tree, room: int)
    decreases t
  {
    room >= 0 &&
    match t
    case Leaf(_) => true
    case Object(fields) => forall i :: 0 <= i < |fields| ==> Within(fields[i].value, room - 1)
    case Array(elements) => forall i :: 0 <= i < |elements| ==> Within(elements[i], room - 1)
  }

  // ----- the canonical encoding -----

  predicate Surrogate(c: CodePoint) {
    0xD800 <= c < 0xE000
  }

  function HexDigit(d: int): Byte
    requires 0 <= d < 16
  {
    if d < 10 then 0x30 + d else 0x57 + d
  }

  /** One character of a JSON string without ASCII escaping. */
  function EncodeChar(c: CodePoint): seq<Byte> {
    if c == 0x22 || c == 0x5C then [0x5C, c]
    else if c == 0x0A then [0x5C, 0x6E]
    else if c == 0x0D then [0x5C, 0x72]
    else if c == 0x09 then [0x5C, 0x74]
    else if c == 0x0C then [0x5C, 0x66]
    else if c == 0x08 then [0x5C, 0x62]
    else if c < 0x20 then [0x5C, 0x75, 0x30, 0x30, HexDigit(c / 16), HexDigit(c % 16)]
    else Utf8(c)
  }

  function Utf8(c: CodePoint): seq<Byte> {
    if c < 0x80 then [c]
    else if c < 0x800 then [0xC0 + c / 64, 0x80 + c % 64]
    else if c < 0x10000 then [0xE0 + c / 4096, 0x80 + c / 64 % 64, 0x80 + c % 64]
    else [0xF0 + c / 262144, 0x80 + c / 4096 % 64, 0x80 + c / 64 % 64, 0x80 + c % 64]
  }

  function EncodeChars(s: Text): seq<Byte> {
    if s == [] then [] else EncodeChar(s[0]) + EncodeChars(s[1..])
  }

  function EncodeText(s: Text): seq<Byte> {
    [0x22] + EncodeChars(s) + [0x22]
  }

  function Decimal(n: nat): seq<Byte> {
    if n < 10 then [0x30 + n] else Decimal(n / 10) + [0x30 + n % 10]
  }

  function EncodeNumber(number: Number): seq<Byte> {
    match number
    case Integer(n) => if n < 0 then [0x2D] + Decimal(-n) else Decimal(n)
    case Float(decimal) => decimal
    case NonFinite(_) => []
  }

  function EncodeScalar(s: Scalar): seq<Byte> {
    match s
    case Null => [0x6E, 0x75, 0x6C, 0x6C]
    case Boolean(b) => if b then [0x74, 0x72, 0x75, 0x65] else [0x66, 0x61, 0x6C, 0x73, 0x65]
    case Str(text) => EncodeText(text)
    case Num(number) => EncodeNumber(number)
  }

  /** Text needs paired surrogates, numbers need to be finite and within the interpreter's digit limit. */
  predicate ScalarEncodable(digits: Option<nat>, s: Scalar) {
    match s
    case Null => true
    case Boolean(_) => true
    case Str(text) => forall i :: 0 <= i < |text| ==> !Surrogate(text[i])
    case Num(number) =>
      match number
      case Integer(n) => digits.Some? ==> |Decimal(if n < 0 then -n else n)| <= digits.value
      case Float(_) => true
      case NonFinite(_) => false
  }

  predicate Encodable(digits: Option<nat>, t: Tree)
    decreases t
  {
    match t
    case Leaf(s) => ScalarEncodable(digits, s)
    case Object(fields) =>
      forall i :: 0 <= i < |fields| ==> ScalarEncodable(digits, Str(fields[i].key)) && Encodable(digits, fields[i].value)
    case Array(elements) => forall i :: 0 <= i < |elements| ==> Encodable(digits, elements[i])
  }

  function Bytes(t: Tree): seq<Byte>
    decreases t
  {
    match t
    case Leaf(s) => EncodeScalar(s)
    case Object(fields) => [0x7B] + FieldsBytes(fields) + [0x7D]
    case Array(elements) => [0x5B] + ElementsBytes(elements) + [0x5D]
  }

  function Comma(index: nat): seq<Byte> {
    if index == 0 then [] else [0x2C]
  }

  function FieldsBytes(fields: seq<Field>): seq<Byte>
    decreases fields
  {
    if fields == [] then []
    else
      var last := |fields| - 1;
      FieldsBytes(fields[..last]) + Comma(last) + EncodeText(fields[last].key) + [0x3A] + Bytes(fields[last].value)
  }

  function ElementsBytes(elements: seq<Tree>): seq<Byte>
    decreases elements
  {
    if elements == [] then []
    else
      var last := |elements| - 1;
      ElementsBytes(elements[..last]) + Comma(last) + Bytes(elements[last])
  }

  /** canonical_json_bytes: None stands for the errors json.dumps and the UTF-8 encoder raise. */
  function CanonicalJsonBytes(digits: Option<nat>, t: Tree): Option<seq<Byte>> {
    if Encodable(digits, t) then Some(Bytes(t)) else None
  }

  // ----- the tree a value unfolds to -----

  datatype Policy = Policy(vetText: Text -> Result<Text, string>, vetNumber: Number -> Result<Number, string>)

  /** The scalar stored for `s`; an error carries the domain rule's own message. */
  function Vet(policy: Policy, s: Scalar): Result<Scalar, string> {
    match s
    case Null => Ok(s)
    case Boolean(_) => Ok(s)
    case Str(text) => (match policy.vetText(text) case Ok(v) => Ok(Str(v)) case Err(e) => Err(e))
    case Num(number) =>
      if number.NonFinite? then Err("non-finite")
      else match policy.vetNumber(number) case Ok(v) => Ok(Num(v)) case Err(e) => Err(e)
  }

  /** `t` is the complete finite unfolding of `v`, every scalar vetted. Sharing is invisible. */
  ghost predicate Denotes(h: Heap, policy: Policy, v: Val, t: Tree)
    decreases t
  {
    match t
    case Leaf(s) => v.Atom? && Vet(policy, v.scalar) == Ok(s)
    case Object(fields) =>
      v.Ref? && Deref(h, v.id).Mapping? &&
      var entries := Deref(h, v.id).entries;
      |fields| == |entries| && forall i :: 0 <= i < |fields| ==> FieldDenotes(h, policy, entries[i], fields[i])
    case Array(elements) =>
      v.Ref? && (Deref(h, v.id).List? || Deref(h, v.id).Tuple?) &&
      var items := Deref(h, v.id).items;
      |elements| == |items| && forall i :: 0 <= i < |elements| ==> Denotes(h, policy, items[i], elements[i])
  }

  ghost predicate FieldDenotes(h: Heap, policy: Policy, entry: Entry, field: Field)
    decreases field
  {
    entry.key == TextKey(field.key) && Denotes(h, policy, entry.value, field.value)
  }

  /** A value unfolds to at most one tree. */
  lemma {:induction false} DenotesOne(h: Heap, policy: Policy, v: Val, t: Tree, t': Tree)
    requires Denotes(h, policy, v, t) && Denotes(h, policy, v, t')
    ensures t == t'
    decreases t
  {
    match t
    case Leaf(_) =>
    case Object(fields) =>
      var entries := Deref(h, v.id).entries;
      forall i | 0 <= i < |fields| ensures fields[i] == t'.fields[i] {
        assert FieldDenotes(h, policy, entries[i], fields[i]) && FieldDenotes(h, policy, entries[i], t'.fields[i]);
        DenotesOne(h, policy, entries[i].value, fields[i].value, t'.fields[i].value);
      }
    case Array(elements) =>
      var items := Deref(h, v.id).items;
      forall i | 0 <= i < |elements| ensures elements[i] == t'.elements[i] {
        DenotesOne(h, policy, items[i], elements[i], t'.elements[i]);
      }
  }
}
