/** Reading back printed numbers. */
module JsonNumbers {
  import opened Options
  import opened JsonValues
  import opened JsonText
  import opened JsonRoundTrip

  /** Nothing at `i` that a number could go on with. */
  predicate Stops(s: Chars, i: nat) {
    i >= |s| || !(Digit(s[i]) || s[i] == 0x2E || s[i] == 0x65 || s[i] == 0x45)
  }

  /** A float's decimal form is one the number grammar reads completely, and as a float. */
  predicate FloatText(d: seq<Byte>) {
    ParseNumber(d, 0) == At(Float(d), |d|)
  }

  /** `d` stands in `s` at `i`, and nothing behind it continues a number. */
  ghost predicate Embedded(s: Chars, i: nat, d: Chars) {
    Starts(s, i, d) && Stops(s, i + |d|)
  }

  lemma SameChar(s: Chars, i: nat, d: Chars, k: nat)
    requires Embedded(s, i, d) && k < |d|
    ensures i + k < |s| && s[i + k] == d[k]
  {
    CharAt(s, i, d, k);
  }

  lemma {:induction false} DigitsShift(s: Chars, i: nat, d: Chars, k: nat)
    requires Embedded(s, i, d) && k <= |d|
    ensures Digits(s, i + k) == i + Digits(d, k)
    decreases |d| - k
  {
    if k < |d| {
      SameChar(s, i, d, k);
      if Digit(d[k]) { DigitsShift(s, i, d, k + 1); }
    }
  }

  lemma LooksShift(s: Chars, i: nat, d: Chars, k: nat, c: int)
    requires Embedded(s, i, d) && k <= |d| && (k == |d| ==> c == 0x2E || c == 0x65 || c == 0x45 || Digit(c))
    ensures Looks(s, i + k, c) == Looks(d, k, c)
  {
    if k < |d| { SameChar(s, i, d, k); }
  }

  lemma FractionShift(s: Chars, i: nat, d: Chars, k: nat)
    requires Embedded(s, i, d) && k <= |d|
    ensures Fraction(s, i + k) == i + Fraction(d, k)
  {
    LooksShift(s, i, d, k, 0x2E);
    if k < |d| { DigitsShift(s, i, d, k + 1); }
  }

  /** A number that ends with `d` in `d` alone also ends there in `s`. */
  lemma ExponentShift(s: Chars, i: nat, d: Chars, k: nat)
    requires Embedded(s, i, d) && k <= |d| && Exponent(d, k) == |d|
    ensures Exponent(s, i + k) == i + |d|
  {
    LooksShift(s, i, d, k, 0x65);
    LooksShift(s, i, d, k, 0x45);
    if k < |d| {
      SameChar(s, i, d, k);
      assert k + 1 < |d|;
      LooksShift(s, i, d, k + 1, 0x2B);
      LooksShift(s, i, d, k + 1, 0x2D);
      var j := if Looks(d, k + 1, 0x2B) || Looks(d, k + 1, 0x2D) then k + 2 else k + 1;
      DigitsShift(s, i, d, j);
    }
  }

  lemma WholeShift(s: Chars, i: nat, d: Chars, k: nat)
    requires Embedded(s, i, d) && k < |d|
    ensures WholePart(s, i + k) == i + WholePart(d, k)
  {
    LooksShift(s, i, d, k, 0x30);
    DigitsShift(s, i, d, k);
  }

  lemma SliceShift(s: Chars, i: nat, d: Chars, a: nat, b: nat)
    requires Embedded(s, i, d) && a <= b <= |d|
    ensures s[i + a..i + b] == d[a..b]
  {
    forall k | 0 <= k < b - a ensures s[i + a..i + b][k] == d[a..b][k] {
      SameChar(s, i, d, a + k);
    }
  }

  lemma EndsShift(s: Chars, i: nat, d: Chars)
    requires Embedded(s, i, d) && ParseNumber(d, 0).At? && ParseNumber(d, 0).next == |d|
    ensures NumberEnd(d, 0) == |d| && NumberStart(d, 0) < NumberWhole(d, 0) <= |d|
    ensures NumberStart(s, i) == i + NumberStart(d, 0) && NumberWhole(s, i) == i + NumberWhole(d, 0) && NumberEnd(s, i) == i + |d|
  {
    LooksShift(s, i, d, 0, 0x2D);
    WholeShift(s, i, d, NumberStart(d, 0));
    FractionShift(s, i, d, NumberWhole(d, 0));
    ExponentShift(s, i, d, Fraction(d, NumberWhole(d, 0)));
  }

  /** A number read completely on its own is read the same inside a larger text. */
  lemma NumberShift(s: Chars, i: nat, d: Chars)
    requires Embedded(s, i, d) && ParseNumber(d, 0).At? && ParseNumber(d, 0).next == |d|
    ensures ParseNumber(s, i) == At(ParseNumber(d, 0).value, i + |d|)
  {
    EndsShift(s, i, d);
    SliceShift(s, i, d, NumberStart(d, 0), NumberWhole(d, 0));
    SliceShift(s, i, d, 0, |d|);
  }

  // ----- integers -----

  lemma {:induction false} DecimalReads(n: nat)
    ensures forall k :: 0 <= k < |Decimal(n)| ==> Digit(Decimal(n)[k])
    ensures Decimal(n) != [] && (n > 0 ==> Decimal(n)[0] != 0x30)
    ensures DecimalValue(Decimal(n)) == n
  {
    if n >= 10 {
      DecimalReads(n / 10);
      var d := Decimal(n);
      assert d[..|d| - 1] == Decimal(n / 10);
    } else {
      var d := Decimal(n);
      assert d[..0] == [];
    }
  }

  lemma {:induction false} AllDigits(s: Chars, i: nat)
    requires i <= |s| && forall k :: i <= k < |s| ==> Digit(s[k])
    ensures Digits(s, i) == |s|
    decreases |s| - i
  {
    if i < |s| { AllDigits(s, i + 1); }
  }

  lemma IntegerReads(n: int)
    ensures var d := EncodeNumber(Integer(n)); ParseNumber(d, 0) == At(Integer(n), |d|)
  {
    var d: Chars := EncodeNumber(Integer(n));
    var m := if n < 0 then -n else n;
    var start := if n < 0 then 1 else 0;
    DecimalReads(m);
    assert d[start..] == Decimal(m);
    forall k | start <= k < |d| ensures Digit(d[k]) { assert d[k] == Decimal(m)[k - start]; }
    AllDigits(d, start);
    assert WholePart(d, start) == |d| by {
      if m == 0 { assert Decimal(0) == [0x30]; } else { assert d[start] == Decimal(m)[0]; }
    }
    assert d[start..|d|] == Decimal(m);
  }

  // ----- every scalar that is not a text -----

  predicate ProperNumber(n: Number) {
    n.Float? ==> FloatText(n.decimal)
  }

  lemma WordAt(s: Chars, i: nat, w: Chars, v: Chars)
    requires Starts(s, i, w) && w != [] && v != [] && w[0] != v[0]
    ensures !Starts(s, i, v)
  {
    First(s, i, w);
    if Starts(s, i, v) { First(s, i, v); }
  }

  lemma NoNumberAt(s: Chars, i: nat)
    requires i < |s| && !Digit(s[i]) && (s[i] == 0x2D ==> i + 1 < |s| && !Digit(s[i + 1]))
    ensures ParseNumber(s, i).Bad?
  {
  }

  lemma SpecialReads(s: Chars, i: nat, x: Special)
    requires Starts(s, i, PrintNumber(NonFinite(x)))
    ensures ParseWord(s, i) == At(Num(NonFinite(x)), i + |PrintNumber(NonFinite(x))|)
  {
    var w := PrintNumber(NonFinite(x));
    First(s, i, w);
    if x == NegativeInfinity { CharAt(s, i, w, 1); }
    NoNumberAt(s, i);
    WordAt(s, i, w, [0x6E, 0x75, 0x6C, 0x6C]);
    WordAt(s, i, w, [0x74, 0x72, 0x75, 0x65]);
    WordAt(s, i, w, [0x66, 0x61, 0x6C, 0x73, 0x65]);
    if x != NaN { WordAt(s, i, w, PrintNumber(NonFinite(NaN))); }
    if x == NegativeInfinity { WordAt(s, i, w, PrintNumber(NonFinite(Infinity))); }
  }

  lemma FiniteReads(s: Chars, i: nat, n: Number)
    requires ProperNumber(n) && !n.NonFinite? && Starts(s, i, PrintNumber(n)) && Stops(s, i + |PrintNumber(n)|)
    ensures ParseWord(s, i) == At(Num(n), i + |PrintNumber(n)|)
  {
    var d: Chars := PrintNumber(n);
    if n.Integer? { IntegerReads(n.n); }
    assert ParseNumber(d, 0) == At(n, |d|);
    assert d != [] && (d[0] == 0x2D || Digit(d[0]));
    NumberShift(s, i, d);
    WordAt(s, i, d, [0x6E, 0x75, 0x6C, 0x6C]);
    WordAt(s, i, d, [0x74, 0x72, 0x75, 0x65]);
    WordAt(s, i, d, [0x66, 0x61, 0x6C, 0x73, 0x65]);
  }

  /** null, true, false and every number are read back as printed. */
  lemma WordReads(s: Chars, i: nat, a: Scalar)
    requires !a.Str? && (a.Num? ==> ProperNumber(a.number))
    requires Starts(s, i, PrintScalar(a)) && Stops(s, i + |PrintScalar(a)|)
    ensures ParseWord(s, i) == At(a, i + |PrintScalar(a)|)
    ensures i < |s| && s[i] != 0x22 && s[i] != 0x7B && s[i] != 0x5B && !Space(s[i]) && s[i] != 0x5D
  {
    match a
    case Null => First(s, i, PrintScalar(a));
    case Boolean(b) =>
      First(s, i, PrintScalar(a));
      if b {
        WordAt(s, i, PrintScalar(a), [0x6E, 0x75, 0x6C, 0x6C]);
      } else {
        WordAt(s, i, PrintScalar(a), [0x6E, 0x75, 0x6C, 0x6C]);
        WordAt(s, i, PrintScalar(a), [0x74, 0x72, 0x75, 0x65]);
      }
    case Num(n) =>
      if n.NonFinite? {
        SpecialReads(s, i, n.special);
        First(s, i, PrintScalar(a));
      } else {
        if n.Integer? { IntegerReads(n.n); }
        FiniteReads(s, i, n);
        First(s, i, PrintNumber(n));
        assert ParseNumber(PrintNumber(n), 0).At?;
      }
  }
}
