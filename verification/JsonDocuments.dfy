/** Reading back whole printed values. */
module JsonDocuments {
  import opened Options
  import opened JsonValues
  import opened JsonText
  import opened JsonRoundTrip
  import opened JsonNumbers

  /** What reading makes of a printed value: texts merged, and entries stored one after the other. */
  function Decoded(t: Tree): Tree
    decreases t
  {
    match t
    case Leaf(a) => Leaf(if a.Str? then Str(Merge(a.s)) else a)
    case Object(fields) => Object(DecodedFields([], fields, 0))
    case Array(elements) => Array(DecodedElements([], elements, 0))
  }

  function DecodedFields(done: seq<Field>, fields: seq<Field>, k: nat): seq<Field>
    decreases fields, |fields| - k
  {
    if k >= |fields| then done
    else DecodedFields(Store(done, DecodedField(fields[k])), fields, k + 1)
  }

  function DecodedField(f: Field): Field
    decreases f
  {
    Field(Merge(f.key), Decoded(f.value))
  }

  function DecodedElements(done: seq<Tree>, elements: seq<Tree>, k: nat): seq<Tree>
    decreases elements, |elements| - k
  {
    if k >= |elements| then done else DecodedElements(done + [Decoded(elements[k])], elements, k + 1)
  }

  /** Every float carries a decimal form the number grammar reads as a float. */
  predicate ProperNumbers(t: Tree)
    decreases t
  {
    match t
    case Leaf(a) => a.Num? ==> ProperNumber(a.number)
    case Object(fields) => forall i :: 0 <= i < |fields| ==> ProperNumbers(fields[i].value)
    case Array(elements) => forall i :: 0 <= i < |elements| ==> ProperNumbers(elements[i])
  }

  // ----- printing, then parsing -----

  lemma PrintStarts(s: Chars, i: nat, t: Tree)
    requires ProperNumbers(t) && Starts(s, i, Print(t)) && Stops(s, i + |Print(t)|)
    ensures i < |s| && !Space(s[i]) && s[i] != 0x5D
  {
    match t
    case Leaf(a) =>
      if a.Str? { TextReads(s, i, a.s); } else { WordReads(s, i, a); }
    case Object(fields) => First(s, i, Print(t));
    case Array(elements) => First(s, i, Print(t));
  }

  /** A printed value is read back decoded, whatever follows it that cannot continue a number. */
  lemma {:induction false} PrintedReads(s: Chars, i: nat, t: Tree)
    requires ProperNumbers(t) && Starts(s, i, Print(t)) && Stops(s, i + |Print(t)|)
    ensures Parse(s, i) == At(Decoded(t), i + |Print(t)|)
    decreases t, 1, 0
  {
    match t
    case Leaf(a) =>
      if a.Str? { TextReads(s, i, a.s); } else { WordReads(s, i, a); }
    case Object(fields) => ObjectReads(s, i, fields);
    case Array(elements) => ArrayReads(s, i, elements);
  }

  // The parser's steps, for known positions.

  lemma ParseFieldStep(s: Chars, i: nat, key: Text, colon: nat, value: Tree, end: nat)
    requires Looks(s, i, 0x22) && ParseChars(s, i + 1, []) == At(key, colon)
    requires Skip(s, colon) == colon && Looks(s, colon, 0x3A) && Skip(s, colon + 1) == colon + 1
    requires Parse(s, colon + 1) == At(value, end)
    ensures ParseField(s, i) == At(Field(key, value), end)
  {
  }

  lemma ParseFieldsStep(s: Chars, i: nat, done: seq<Field>, f: Field, end: nat)
    requires ParseField(s, i) == At(f, end) && Skip(s, end) == end
    ensures Looks(s, end, 0x7D) ==> ParseFields(s, i, done) == At(Store(done, f), end + 1)
    ensures Looks(s, end, 0x2C) ==> ParseFields(s, i, done) == ParseFields(s, Skip(s, end + 1), Store(done, f))
  {
  }

  lemma ParseElementsStep(s: Chars, i: nat, done: seq<Tree>, t: Tree, end: nat)
    requires Parse(s, i) == At(t, end) && Skip(s, end) == end
    ensures Looks(s, end, 0x5D) ==> ParseElements(s, i, done) == At(done + [t], end + 1)
    ensures Looks(s, end, 0x2C) ==> ParseElements(s, i, done) == ParseElements(s, Skip(s, end + 1), done + [t])
  {
  }

  lemma ParseObjectStep(s: Chars, i: nat)
    requires Looks(s, i, 0x7B) && Skip(s, i + 1) == i + 1
    ensures Looks(s, i + 1, 0x7D) ==> Parse(s, i) == At(Object([]), i + 2)
    ensures !Looks(s, i + 1, 0x7D) && ParseFields(s, i + 1, []).At? ==>
      Parse(s, i) == At(Object(ParseFields(s, i + 1, []).value), ParseFields(s, i + 1, []).next)
  {
  }

  lemma ParseArrayStep(s: Chars, i: nat)
    requires Looks(s, i, 0x5B) && Skip(s, i + 1) == i + 1
    ensures Looks(s, i + 1, 0x5D) ==> Parse(s, i) == At(Array([]), i + 2)
    ensures !Looks(s, i + 1, 0x5D) && ParseElements(s, i + 1, []).At? ==>
      Parse(s, i) == At(Array(ParseElements(s, i + 1, []).value), ParseElements(s, i + 1, []).next)
  {
  }

  /** The brackets of a printed container and what stands between them. */
  lemma ContainerBounds(s: Chars, i: nat, bracket: int, body: Chars)
    requires Starts(s, i, [bracket] + body) && body != []
    ensures Looks(s, i, bracket) && Starts(s, i + 1, body) && i + 1 < |s| && s[i + 1] == body[0]
  {
    Split(s, i, [bracket], body);
    First(s, i, [bracket]);
    First(s, i + 1, body);
  }

  lemma {:induction false} ObjectReads(s: Chars, i: nat, fields: seq<Field>)
    requires ProperNumbers(Object(fields)) && Starts(s, i, Print(Object(fields)))
    ensures Parse(s, i) == At(Decoded(Object(fields)), i + |Print(Object(fields))|)
    decreases Object(fields), 0, 0
  {
    if fields == [] {
      ContainerBounds(s, i, 0x7B, [0x7D]);
      ParseObjectStep(s, i);
    } else {
      var one := PrintField(fields[0]);
      ContainerBounds(s, i, 0x7B, one + FieldsTail(fields, 1));
      Split(s, i + 1, one, FieldsTail(fields, 1));
      First(s, i + 1, one);
      FieldsRead(s, i + 1, fields, 0, [], DecodedFields([], fields, 0), i + |Print(Object(fields))|);
      ParseObjectStep(s, i);
    }
  }

  lemma {:induction false} ArrayReads(s: Chars, i: nat, elements: seq<Tree>)
    requires ProperNumbers(Array(elements)) && Starts(s, i, Print(Array(elements)))
    ensures Parse(s, i) == At(Decoded(Array(elements)), i + |Print(Array(elements))|)
    decreases Array(elements), 0, 0
  {
    if elements == [] {
      ContainerBounds(s, i, 0x5B, [0x5D]);
      ParseArrayStep(s, i);
    } else {
      var one := Print(elements[0]);
      PrintNonEmpty(elements[0]);
      ContainerBounds(s, i, 0x5B, one + ElementsTail(elements, 1));
      Split(s, i + 1, one, ElementsTail(elements, 1));
      FirstElementStarts(s, i + 1, elements);
      ElementsRead(s, i + 1, elements, 0, [], DecodedElements([], elements, 0), i + |Print(Array(elements))|);
      ParseArrayStep(s, i);
    }
  }

  lemma FirstElementStarts(s: Chars, i: nat, elements: seq<Tree>)
    requires elements != [] && ProperNumbers(elements[0]) && ElementsStand(s, i, elements, 0)
    ensures i < |s| && s[i] != 0x5D && Skip(s, i) == i
  {
    ElementsStop(s, i + |Print(elements[0])|, elements, 1);
    PrintStarts(s, i, elements[0]);
  }

  lemma PrintNonEmpty(t: Tree)
    requires ProperNumbers(t)
    ensures Print(t) != []
  {
    if t.Leaf? && t.scalar.Num? {
      if t.scalar.number.Integer? { IntegerReads(t.scalar.number.n); }
    }
  }

  /** Behind an entry comes the closing brace, or a comma and the next entry; neither continues a number. */
  lemma FieldsStop(s: Chars, i: nat, fields: seq<Field>, k: nat)
    requires k <= |fields| && Starts(s, i, FieldsTail(fields, k))
    ensures Stops(s, i) && Skip(s, i) == i && (k == |fields| <==> Looks(s, i, 0x7D))
    ensures |FieldsTail(fields, k)| == 1 + if k < |fields| then |PrintField(fields[k])| + |FieldsTail(fields, k + 1)| else 0
    ensures k < |fields| ==> Looks(s, i, 0x2C) && Skip(s, i + 1) == i + 1
                             && Starts(s, i + 1, PrintField(fields[k])) && Starts(s, i + 1 + |PrintField(fields[k])|, FieldsTail(fields, k + 1))
  {
    First(s, i, FieldsTail(fields, k));
    if k < |fields| {
      Split(s, i, [0x2C], PrintField(fields[k]) + FieldsTail(fields, k + 1));
      Split(s, i + 1, PrintField(fields[k]), FieldsTail(fields, k + 1));
      First(s, i + 1, PrintField(fields[k]));
    }
  }

  lemma ElementsStop(s: Chars, i: nat, elements: seq<Tree>, k: nat)
    requires k <= |elements| && Starts(s, i, ElementsTail(elements, k))
    ensures Stops(s, i) && Skip(s, i) == i && (k == |elements| <==> Looks(s, i, 0x5D))
    ensures |ElementsTail(elements, k)| == 1 + if k < |elements| then |Print(elements[k])| + |ElementsTail(elements, k + 1)| else 0
    ensures k < |elements| ==> Looks(s, i, 0x2C)
                               && Starts(s, i + 1, Print(elements[k])) && Starts(s, i + 1 + |Print(elements[k])|, ElementsTail(elements, k + 1))
  {
    First(s, i, ElementsTail(elements, k));
    if k < |elements| {
      Split(s, i, [0x2C], Print(elements[k]) + ElementsTail(elements, k + 1));
      Split(s, i + 1, Print(elements[k]), ElementsTail(elements, k + 1));
    }
  }

  lemma ColonBounds(s: Chars, i: nat, key: Chars, value: Chars)
    requires Starts(s, i, key + ([0x3A] + value))
    ensures Starts(s, i, key) && Looks(s, i + |key|, 0x3A) && Skip(s, i + |key|) == i + |key| && Starts(s, i + |key| + 1, value)
  {
    Split(s, i, key, [0x3A] + value);
    Split(s, i + |key|, [0x3A], value);
    First(s, i + |key|, [0x3A]);
  }

  lemma NoSpaceAhead(s: Chars, i: nat, t: Tree)
    requires ProperNumbers(t) && Starts(s, i, Print(t)) && Stops(s, i + |Print(t)|)
    ensures Skip(s, i) == i
  {
    PrintStarts(s, i, t);
  }

  /** The key of one printed entry, up to where its value starts. */
  lemma KeyReads(s: Chars, i: nat, f: Field, key: Chars, value: Chars)
    requires key == PrintText(f.key) && value == Print(f.value)
    requires ProperNumbers(f.value) && Starts(s, i, key + ([0x3A] + value)) && Stops(s, i + |key| + 1 + |value|)
    ensures Looks(s, i, 0x22) && ParseChars(s, i + 1, []) == At(Merge(f.key), i + |key|)
    ensures Looks(s, i + |key|, 0x3A) && Skip(s, i + |key|) == i + |key|
    ensures Starts(s, i + |key| + 1, value) && Skip(s, i + |key| + 1) == i + |key| + 1
  {
    ColonBounds(s, i, key, value);
    TextReads(s, i, f.key);
    NoSpaceAhead(s, i + |key| + 1, f.value);
  }

  /** The key and the value of one printed entry. */
  lemma {:induction false} FieldReads(s: Chars, i: nat, f: Field, key: Chars, value: Chars)
    requires key == PrintText(f.key) && value == Print(f.value)
    requires ProperNumbers(f.value) && Starts(s, i, key + ([0x3A] + value)) && Stops(s, i + |key| + 1 + |value|)
    ensures ParseField(s, i) == At(DecodedField(f), i + |key| + 1 + |value|)
    decreases f, 0, 0
  {
    KeyReads(s, i, f, key, value);
    PrintedReads(s, i + |key| + 1, f.value);
    ParseFieldStep(s, i, Merge(f.key), i + |key|, Decoded(f.value), i + |key| + 1 + |value|);
  }

  /** Entry k stands at `i`, and the rest of the entries behind it. */
  ghost predicate FieldsStand(s: Chars, i: nat, fields: seq<Field>, k: nat)
    requires k < |fields|
  {
    Starts(s, i, PrintField(fields[k])) && Starts(s, i + |PrintField(fields[k])|, FieldsTail(fields, k + 1))
  }

  ghost predicate ElementsStand(s: Chars, i: nat, elements: seq<Tree>, k: nat)
    requires k < |elements|
  {
    Starts(s, i, Print(elements[k])) && Starts(s, i + |Print(elements[k])|, ElementsTail(elements, k + 1))
  }

  lemma DecodedFieldsStep(fields: seq<Field>, k: nat, done: seq<Field>)
    requires k < |fields|
    ensures DecodedFields(done, fields, k) == DecodedFields(Store(done, DecodedField(fields[k])), fields, k + 1)
    ensures k + 1 == |fields| ==> DecodedFields(done, fields, k) == Store(done, DecodedField(fields[k]))
  {
  }

  /** The entries from `k` on stand at `i`; read behind `done` they give `all` and end at `stop`. */
  ghost predicate FieldsToRead(s: Chars, i: nat, fields: seq<Field>, k: nat, done: seq<Field>, all: seq<Field>, stop: nat)
    requires k < |fields|
  {
    && FieldsStand(s, i, fields, k) && all == DecodedFields(done, fields, k)
    && stop == i + |PrintField(fields[k])| + |FieldsTail(fields, k + 1)|
  }

  lemma {:induction false} OneFieldReads(s: Chars, i: nat, fields: seq<Field>, k: nat, done: seq<Field>, all: seq<Field>, stop: nat)
      returns (end: nat, more: seq<Field>)
    requires ProperNumbers(Object(fields)) && k < |fields| && FieldsToRead(s, i, fields, k, done, all, stop)
    ensures if k + 1 == |fields| then ParseFields(s, i, done) == At(all, stop)
            else ParseFields(s, i, done) == ParseFields(s, end + 1, more) && FieldsToRead(s, end + 1, fields, k + 1, more, all, stop)
    decreases fields, 1, 0
  {
    end := i + |PrintField(fields[k])|;
    more := Store(done, DecodedField(fields[k]));
    FieldsStop(s, end, fields, k + 1);
    FieldReads(s, i, fields[k], PrintText(fields[k].key), Print(fields[k].value));
    ParseFieldsStep(s, i, done, DecodedField(fields[k]), end);
    DecodedFieldsStep(fields, k, done);
  }

  lemma {:induction false} FieldsRead(s: Chars, i: nat, fields: seq<Field>, k: nat, done: seq<Field>, all: seq<Field>, stop: nat)
    requires ProperNumbers(Object(fields)) && k < |fields| && FieldsToRead(s, i, fields, k, done, all, stop)
    ensures ParseFields(s, i, done) == At(all, stop)
    decreases fields, 2, |fields| - k
  {
    var end, more := OneFieldReads(s, i, fields, k, done, all, stop);
    if k + 1 < |fields| {
      FieldsRead(s, end + 1, fields, k + 1, more, all, stop);
    }
  }

  lemma ElementsNext(s: Chars, i: nat, elements: seq<Tree>, k: nat)
    requires ProperNumbers(Array(elements)) && k <= |elements| && Starts(s, i, ElementsTail(elements, k))
    ensures Stops(s, i) && Skip(s, i) == i
    ensures if k == |elements| then Looks(s, i, 0x5D) && |ElementsTail(elements, k)| == 1
            else
              && Looks(s, i, 0x2C) && Skip(s, i + 1) == i + 1 && ElementsStand(s, i + 1, elements, k)
              && |ElementsTail(elements, k)| == 1 + |Print(elements[k])| + |ElementsTail(elements, k + 1)|
  {
    ElementsStop(s, i, elements, k);
    if k < |elements| {
      ElementsStop(s, i + 1 + |Print(elements[k])|, elements, k + 1);
      NoSpaceAhead(s, i + 1, elements[k]);
    }
  }

  ghost predicate ElementsToRead(s: Chars, i: nat, elements: seq<Tree>, k: nat, done: seq<Tree>, all: seq<Tree>, stop: nat)
    requires k < |elements|
  {
    && ElementsStand(s, i, elements, k) && all == DecodedElements(done, elements, k)
    && stop == i + |Print(elements[k])| + |ElementsTail(elements, k + 1)|
  }

  lemma {:induction false} OneElementReads(s: Chars, i: nat, elements: seq<Tree>, k: nat, done: seq<Tree>, all: seq<Tree>, stop: nat)
      returns (end: nat, more: seq<Tree>)
    requires ProperNumbers(Array(elements)) && k < |elements| && ElementsToRead(s, i, elements, k, done, all, stop)
    ensures if k + 1 == |elements| then ParseElements(s, i, done) == At(all, stop)
            else ParseElements(s, i, done) == ParseElements(s, end + 1, more) && ElementsToRead(s, end + 1, elements, k + 1, more, all, stop)
    decreases elements, 1, 0
  {
    end := i + |Print(elements[k])|;
    more := done + [Decoded(elements[k])];
    ElementsNext(s, end, elements, k + 1);
    PrintedReads(s, i, elements[k]);
    ParseElementsStep(s, i, done, Decoded(elements[k]), end);
  }

  lemma {:induction false} ElementsRead(s: Chars, i: nat, elements: seq<Tree>, k: nat, done: seq<Tree>, all: seq<Tree>, stop: nat)
    requires ProperNumbers(Array(elements)) && k < |elements| && ElementsToRead(s, i, elements, k, done, all, stop)
    ensures ParseElements(s, i, done) == At(all, stop)
    decreases elements, 2, |elements| - k
  {
    var end, more := OneElementReads(s, i, elements, k, done, all, stop);
    if k + 1 < |elements| {
      ElementsRead(s, end + 1, elements, k + 1, more, all, stop);
    }
  }

  lemma LineReads(s: Chars, t: Tree, end: nat)
    requires ProperNumbers(t) && end == |Print(t)| && Starts(s, 0, Print(t)) && |s| == end + 1 && s[end] == 0x0A
    ensures Loads(s) == Some(Decoded(t))
  {
    NoSpaceAhead(s, 0, t);
    PrintedReads(s, 0, t);
    assert Skip(s, end + 1) == end + 1;
  }

  /** json.loads(json.dumps(t) + newline). */
  lemma LoadsPrinted(t: Tree)
    requires ProperNumbers(t)
    ensures Loads(Print(t) + [0x0A]) == Some(Decoded(t))
  {
    LineReads(Print(t) + [0x0A], t, |Print(t)|);
  }
}
