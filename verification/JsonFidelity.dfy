/** Which values survive being printed and read back. */
module JsonFidelity {
  import opened Options
  import opened JsonValues
  import opened JsonText
  import opened JsonRoundTrip
  import opened JsonNumbers
  import opened JsonDocuments

  /** No text in it, key or value, holds a high surrogate directly before a low one. */
  ghost predicate AllUnpaired(t: Tree)
    decreases t
  {
    match t
    case Leaf(a) => a.Str? ==> Unpaired(a.s)
    case Object(fields) => forall i :: 0 <= i < |fields| ==> FieldUnpaired(fields[i])
    case Array(elements) => forall i :: 0 <= i < |elements| ==> AllUnpaired(elements[i])
  }

  ghost predicate FieldUnpaired(f: Field)
    decreases f
  {
    Unpaired(f.key) && AllUnpaired(f.value)
  }

  predicate DifferentKeys(fields: seq<Field>) {
    forall i, j :: 0 <= i < j < |fields| ==> fields[i].key != fields[j].key
  }

  /** Every mapping has distinct keys, as every dict has. */
  predicate DictLike(t: Tree)
    decreases t
  {
    match t
    case Leaf(_) => true
    case Object(fields) => DifferentKeys(fields) && forall i :: 0 <= i < |fields| ==> DictLike(fields[i].value)
    case Array(elements) => forall i :: 0 <= i < |elements| ==> DictLike(elements[i])
  }

  lemma {:induction false} StoreAppendsOrReplaces(fields: seq<Field>, f: Field)
    ensures |Store(fields, f)| == |fields| || Store(fields, f) == fields + [f]
    decreases |fields|
  {
    if fields != [] && fields[0].key != f.key {
      StoreAppendsOrReplaces(fields[1..], f);
      assert fields == [fields[0]] + fields[1..];
    }
  }

  /** Reading yields at most as many entries as were written, and then each in its place. */
  lemma {:induction false} FieldsKeepPlaces(done: seq<Field>, fields: seq<Field>, k: nat)
    requires k <= |fields|
    ensures var r := DecodedFields(done, fields, k);
            && |r| <= |done| + |fields| - k
            && (|r| == |done| + |fields| - k ==>
                  done <= r && forall j :: k <= j < |fields| ==> r[|done| + j - k] == DecodedField(fields[j]))
    decreases |fields| - k
  {
    if k < |fields| {
      var more := Store(done, DecodedField(fields[k]));
      StoreAppendsOrReplaces(done, DecodedField(fields[k]));
      FieldsKeepPlaces(more, fields, k + 1);
    }
  }

  lemma {:induction false} ElementsKeepPlaces(done: seq<Tree>, elements: seq<Tree>, k: nat)
    requires k <= |elements|
    ensures var r := DecodedElements(done, elements, k);
            && |r| == |done| + |elements| - k && done <= r
            && forall j :: k <= j < |elements| ==> r[|done| + j - k] == Decoded(elements[j])
    decreases |elements| - k
  {
    if k < |elements| { ElementsKeepPlaces(done + [Decoded(elements[k])], elements, k + 1); }
  }

  lemma {:induction false} SameFieldsStored(fields: seq<Field>, k: nat)
    requires k <= |fields| && DifferentKeys(fields)
    requires forall j :: k <= j < |fields| ==> DecodedField(fields[j]) == fields[j]
    ensures DecodedFields(fields[..k], fields, k) == fields
    decreases |fields| - k
  {
    if k < |fields| {
      StoreNewKey(fields[..k], fields[k]);
      assert fields[..k] + [fields[k]] == fields[..k + 1];
      SameFieldsStored(fields, k + 1);
    } else {
      assert fields[..k] == fields;
    }
  }

  /** A value is read back unchanged exactly when no text in it holds such a pair. */
  lemma {:induction false} DecodedIsSame(t: Tree)
    requires DictLike(t)
    ensures Decoded(t) == t <==> AllUnpaired(t)
    decreases t
  {
    match t
    case Leaf(a) => if a.Str? { MergeKeepsUnpaired(a.s); }
    case Object(fields) =>
      forall j | 0 <= j < |fields| ensures DecodedField(fields[j]) == fields[j] <==> FieldUnpaired(fields[j]) {
        MergeKeepsUnpaired(fields[j].key);
        DecodedIsSame(fields[j].value);
      }
      FieldsKeepPlaces([], fields, 0);
      if AllUnpaired(t) {
        SameFieldsStored(fields, 0);
        assert fields[..0] == [];
      }
      if Decoded(t) == t {
        forall j | 0 <= j < |fields| ensures FieldUnpaired(fields[j]) {
          assert DecodedFields([], fields, 0)[j] == fields[j];
        }
      }
    case Array(elements) =>
      forall j | 0 <= j < |elements| ensures Decoded(elements[j]) == elements[j] <==> AllUnpaired(elements[j]) {
        DecodedIsSame(elements[j]);
      }
      ElementsKeepPlaces([], elements, 0);
      if AllUnpaired(t) { assert DecodedElements([], elements, 0) == elements; }
      if Decoded(t) == t {
        forall j | 0 <= j < |elements| ensures AllUnpaired(elements[j]) {
          assert DecodedElements([], elements, 0)[j] == elements[j];
        }
      }
  }

  // ----- printed values are single lines of printable ASCII -----

  predicate Printable(s: Chars) {
    forall i :: 0 <= i < |s| ==> 0x20 <= s[i] <= 0x7E
  }

  lemma HexPrintable(n: int)
    requires 0 <= n < 0x10000
    ensures Printable(Escape(n))
  {
  }

  lemma CharPrintable(c: CodePoint)
    ensures Printable(PrintChar(c))
  {
    if !(0x20 <= c <= 0x7E) {
      if c < 0x10000 {
        HexPrintable(c);
      } else {
        HexPrintable(HighOf(c));
        HexPrintable(LowOf(c));
      }
    }
  }

  lemma {:induction false} CharsPrintable(s: Text)
    ensures Printable(PrintChars(s))
    decreases |s|
  {
    if s != [] {
      CharPrintable(s[0]);
      CharsPrintable(s[1..]);
    }
  }

  lemma FloatPrintable(d: seq<Byte>)
    requires FloatText(d)
    ensures Printable(d)
  {
    var start, whole, end := NumberStart(d, 0), NumberWhole(d, 0), NumberEnd(d, 0);
    assert end == |d|;
    assert NumberChars(d, start, whole) && NumberChars(d, whole, Fraction(d, whole)) && NumberChars(d, Fraction(d, whole), end);
  }

  lemma IntegerPrintable(n: int)
    ensures Printable(PrintNumber(Integer(n)))
  {
    DecimalReads(if n < 0 then -n else n);
  }

  lemma ScalarPrintable(a: Scalar)
    requires a.Num? ==> ProperNumber(a.number)
    ensures Printable(PrintScalar(a))
  {
    if a.Str? { CharsPrintable(a.s); }
    if a.Num? {
      if a.number.Integer? { IntegerPrintable(a.number.n); }
      if a.number.Float? { FloatPrintable(a.number.decimal); }
    }
  }

  lemma {:induction false} PrintedIsPrintable(t: Tree)
    requires ProperNumbers(t)
    ensures Printable(Print(t))
    decreases t, 0
  {
    match t
    case Leaf(a) => ScalarPrintable(a);
    case Object(fields) =>
      if fields != [] {
        FieldPrintable(fields[0]);
        FieldsTailPrintable(fields, 1);
      }
    case Array(elements) =>
      if elements != [] {
        PrintedIsPrintable(elements[0]);
        ElementsTailPrintable(elements, 1);
      }
  }

  lemma {:induction false} FieldPrintable(f: Field)
    requires ProperNumbers(f.value)
    ensures Printable(PrintField(f))
    decreases f, 0
  {
    CharsPrintable(f.key);
    PrintedIsPrintable(f.value);
  }

  lemma {:induction false} FieldsTailPrintable(fields: seq<Field>, k: nat)
    requires forall i :: 0 <= i < |fields| ==> ProperNumbers(fields[i].value)
    ensures Printable(FieldsTail(fields, k))
    decreases fields, |fields| - k
  {
    if k < |fields| {
      FieldPrintable(fields[k]);
      FieldsTailPrintable(fields, k + 1);
    }
  }

  lemma {:induction false} ElementsTailPrintable(elements: seq<Tree>, k: nat)
    requires forall i :: 0 <= i < |elements| ==> ProperNumbers(elements[i])
    ensures Printable(ElementsTail(elements, k))
    decreases elements, |elements| - k
  {
    if k < |elements| {
      PrintedIsPrintable(elements[k]);
      ElementsTailPrintable(elements, k + 1);
    }
  }
}
