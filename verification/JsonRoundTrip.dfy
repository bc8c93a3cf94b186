/** What json.loads makes of what json.dumps printed. */
module JsonRoundTrip {
  import opened Options
  import opened JsonValues
  import opened JsonText

  lemma CharAt(s: Chars, i: nat, a: Chars, k: nat)
    requires Starts(s, i, a) && k < |a|
    ensures i + k < |s| && s[i + k] == a[k]
  {
  }

  lemma Split(s: Chars, i: nat, a: Chars, b: Chars)
    requires Starts(s, i, a + b)
    ensures Starts(s, i, a) && Starts(s, i + |a|, b)
  {
    forall k | 0 <= k < |a| ensures s[i + k] == a[k] { CharAt(s, i, a + b, k); }
    forall k | 0 <= k < |b| ensures s[i + |a| + k] == b[k] {
      CharAt(s, i, a + b, |a| + k);
      assert (a + b)[|a| + k] == b[k];
    }
  }

  lemma SplitThree(s: Chars, i: nat, a: Chars, b: Chars, c: Chars)
    requires Starts(s, i, a + b + c)
    ensures Starts(s, i, a) && Starts(s, i + |a|, b + c)
  {
    assert a + b + c == a + (b + c);
    Split(s, i, a, b + c);
  }

  lemma First(s: Chars, i: nat, a: Chars)
    requires Starts(s, i, a) && a != []
    ensures i < |s| && s[i] == a[0]
  {
    CharAt(s, i, a, 0);
  }

  // ----- strings -----

  /** What reading makes of a text: a high surrogate and a directly following low one become one character. */
  function Merge(t: Text): Text
    decreases |t|
  {
    if t == [] then []
    else if |t| >= 2 && High(t[0]) && Low(t[1]) then [Combine(t[0], t[1])] + Merge(t[2..])
    else [t[0]] + Merge(t[1..])
  }

  predicate PairAt(t: Text, i: nat) {
    i + 1 < |t| && High(t[i]) && Low(t[i + 1])
  }

  /** No high surrogate stands directly before a low one. */
  ghost predicate Unpaired(t: Text) {
    forall i :: !PairAt(t, i)
  }

  lemma {:induction false} MergeShortens(t: Text)
    ensures |Merge(t)| <= |t|
    decreases |t|
  {
    if t == [] {
    } else if |t| >= 2 && High(t[0]) && Low(t[1]) {
      MergeShortens(t[2..]);
    } else {
      MergeShortens(t[1..]);
    }
  }

  /** Reading back a text gives that text exactly when it holds no such pair. */
  lemma {:induction false} MergeKeepsUnpaired(t: Text)
    ensures Merge(t) == t <==> Unpaired(t)
    decreases |t|
  {
    if t == [] {
    } else if |t| >= 2 && High(t[0]) && Low(t[1]) {
      assert PairAt(t, 0);
      MergeShortens(t[2..]);
    } else {
      MergeKeepsUnpaired(t[1..]);
      assert t == [t[0]] + t[1..];
      if Unpaired(t) {
        forall i: nat ensures !PairAt(t[1..], i) { assert !PairAt(t, i + 1); }
      }
      if Unpaired(t[1..]) {
        forall i: nat ensures !PairAt(t, i) { if i > 0 { assert !PairAt(t[1..], i - 1); } }
      }
      if Merge(t) == t {
        assert Merge(t[1..]) == Merge(t)[1..];
      }
    }
  }

  lemma HexDigitValue(d: int)
    requires 0 <= d < 16
    ensures HexValue(HexDigit(d)) == Some(d)
  {
  }

  lemma HexSum(n: int)
    requires 0 <= n < 0x10000
    ensures 4096 * (n / 4096) + 256 * (n / 256 % 16) + 16 * (n / 16 % 16) + n % 16 == n
  {
    var a, b, c := n / 16, n / 256, n / 4096;
    assert n == 16 * a + n % 16;
    assert b == a / 16 && a == 16 * b + a % 16;
    assert c == b / 16 && b == 16 * c + b % 16;
  }

  lemma Hex4Reads(s: Chars, i: nat, n: int)
    requires 0 <= n < 0x10000 && i + 4 <= |s|
    requires s[i] == HexDigit(n / 4096) && s[i + 1] == HexDigit(n / 256 % 16)
    requires s[i + 2] == HexDigit(n / 16 % 16) && s[i + 3] == HexDigit(n % 16)
    ensures ParseHex4(s, i) == Some(n)
  {
    HexDigitValue(n / 4096);
    HexDigitValue(n / 256 % 16);
    HexDigitValue(n / 16 % 16);
    HexDigitValue(n % 16);
    HexSum(n);
  }

  lemma EscapeReads(s: Chars, i: nat, n: int)
    requires 0 <= n < 0x10000 && Starts(s, i, Escape(n))
    ensures i + 6 <= |s| && s[i] == 0x5C && s[i + 1] == 0x75 && ParseHex4(s, i + 2) == Some(n)
  {
    var w := Escape(n);
    CharAt(s, i, w, 0);
    CharAt(s, i, w, 1);
    CharAt(s, i, w, 2);
    CharAt(s, i, w, 3);
    CharAt(s, i, w, 4);
    CharAt(s, i, w, 5);
    Hex4Reads(s, i + 2, n);
  }

  /** A character written directly or with a short escape is read back alone. */
  lemma ShortReads(s: Chars, i: nat, c: CodePoint, done: Text)
    requires c < 0x80 && |PrintChar(c)| <= 2 && Starts(s, i, PrintChar(c))
    ensures ParseChars(s, i, done) == ParseChars(s, i + |PrintChar(c)|, done + [c])
  {
    First(s, i, PrintChar(c));
    if |PrintChar(c)| == 2 {
      CharAt(s, i, PrintChar(c), 1);
    }
  }

  lemma NoUnicodeEscape(s: Chars, i: nat)
    requires i < |s| && (s[i] != 0x5C || (i + 1 < |s| && s[i + 1] != 0x75))
    ensures !Starts(s, i, [0x5C, 0x75])
  {
    if Starts(s, i, [0x5C, 0x75]) {
      CharAt(s, i, [0x5C, 0x75], 0);
      CharAt(s, i, [0x5C, 0x75], 1);
    }
  }

  lemma LongStarts(s: Chars, i: nat, c: CodePoint)
    requires Starts(s, i, PrintChar(c)) && |PrintChar(c)| >= 6
    ensures Starts(s, i, [0x5C, 0x75]) && ParseHex4(s, i + 2) == Some(if c < 0x10000 then c else HighOf(c))
  {
    if c < 0x10000 {
      EscapeReads(s, i, c);
    } else {
      Split(s, i, Escape(HighOf(c)), Escape(LowOf(c)));
      EscapeReads(s, i, HighOf(c));
    }
  }

  /** One printed character starts with a \u escape exactly if it is longer than a short escape. */
  lemma EscapeStarts(s: Chars, i: nat, c: CodePoint)
    requires Starts(s, i, PrintChar(c))
    ensures Starts(s, i, [0x5C, 0x75]) <==> |PrintChar(c)| >= 6
    ensures |PrintChar(c)| >= 6 ==> ParseHex4(s, i + 2) == Some(if c < 0x10000 then c else HighOf(c))
  {
    First(s, i, PrintChar(c));
    if |PrintChar(c)| == 1 {
      NoUnicodeEscape(s, i);
    } else if |PrintChar(c)| == 2 {
      CharAt(s, i, PrintChar(c), 1);
      NoUnicodeEscape(s, i);
    } else {
      LongStarts(s, i, c);
    }
  }

  /** Behind an escaped high surrogate, a low one follows exactly if it was the next character. */
  lemma NextEscape(s: Chars, i: nat, t: Text)
    requires Starts(s, i, PrintChars(t) + [0x22])
    ensures Starts(s, i, [0x5C, 0x75]) ==>
      t != [] && ParseHex4(s, i + 2).Some? && (Low(ParseHex4(s, i + 2).value) ==> Low(t[0]))
  {
    if t == [] {
      First(s, i, PrintChars(t) + [0x22]);
      NoUnicodeEscape(s, i);
    } else {
      assert PrintChars(t) + [0x22] == PrintChar(t[0]) + (PrintChars(t[1..]) + [0x22]);
      Split(s, i, PrintChar(t[0]), PrintChars(t[1..]) + [0x22]);
      EscapeStarts(s, i, t[0]);
    }
  }

  /** An escaped character is read back alone unless it is a high surrogate before a low one. */
  lemma EscapeAlone(s: Chars, i: nat, c: CodePoint, rest: Text)
    requires c < 0x10000 && Starts(s, i, Escape(c)) && Starts(s, i + 6, PrintChars(rest) + [0x22])
    requires !(High(c) && rest != [] && Low(rest[0]))
    ensures s[i] == 0x5C && ParseEscape(s, i + 1) == At(c, i + 6)
  {
    EscapeReads(s, i, c);
    NextEscape(s, i + 6, rest);
  }

  lemma HeadAndTail(s: Chars, i: nat, whole: Chars, head: Chars, tail: Chars, last: Chars)
    requires Starts(s, i, whole + last) && whole == head + tail
    ensures Starts(s, i, head) && Starts(s, i + |head|, tail + last)
  {
    SplitThree(s, i, head, tail, last);
  }

  lemma PrintedStep(t: Text, head: Chars, tail: Chars)
    requires t != [] && head == PrintChar(t[0]) && tail == PrintChars(t[1..])
    ensures PrintChars(t) == head + tail
  {
  }

  /** A printed text is its first character and the rest. */
  lemma FirstChar(s: Chars, i: nat, t: Text, head: Chars, tail: Chars)
    requires t != [] && head == PrintChar(t[0]) && tail == PrintChars(t[1..])
    requires Starts(s, i, PrintChars(t) + [0x22])
    ensures Starts(s, i, head) && Starts(s, i + |head|, tail + [0x22])
    ensures |PrintChars(t)| == |head| + |tail|
  {
    PrintedStep(t, head, tail);
    HeadAndTail(s, i, PrintChars(t), head, tail, [0x22]);
  }

  lemma PairReads(s: Chars, i: nat, high: int, low: int, done: Text)
    requires High(high) && Low(low) && Starts(s, i, Escape(high)) && Starts(s, i + 6, Escape(low))
    ensures ParseChars(s, i, done) == ParseChars(s, i + 12, done + [Combine(high, low)])
  {
    EscapeReads(s, i, high);
    EscapeReads(s, i + 6, low);
    assert ParseEscape(s, i + 1) == At(Combine(high, low), i + 12);
  }

  /** A character beyond the basic plane is written as a pair and read back as one. */
  lemma AstralReads(s: Chars, i: nat, c: CodePoint, done: Text)
    requires c >= 0x10000 && Starts(s, i, PrintChar(c))
    ensures |PrintChar(c)| == 12 && ParseChars(s, i, done) == ParseChars(s, i + 12, done + [c])
  {
    Split(s, i, Escape(HighOf(c)), Escape(LowOf(c)));
    PairReads(s, i, HighOf(c), LowOf(c), done);
  }

  /** The three ways a character is written. */
  lemma CharForms(c: CodePoint)
    ensures (c < 0x80 && |PrintChar(c)| <= 2) || (c < 0x10000 && PrintChar(c) == Escape(c)) || (c >= 0x10000 && |PrintChar(c)| == 12)
    ensures |PrintChar(c)| > 2 && c < 0x10000 ==> |PrintChar(c)| == 6
  {
  }

  /** One character that is not the start of a pair is read back alone. */
  lemma OneCharReads(s: Chars, i: nat, c: CodePoint, rest: Text, done: Text)
    requires Starts(s, i, PrintChar(c)) && Starts(s, i + |PrintChar(c)|, PrintChars(rest) + [0x22])
    requires !(High(c) && rest != [] && Low(rest[0]))
    ensures ParseChars(s, i, done) == ParseChars(s, i + |PrintChar(c)|, done + [c])
  {
    CharForms(c);
    if |PrintChar(c)| <= 2 {
      ShortReads(s, i, c, done);
    } else if c < 0x10000 {
      EscapeAlone(s, i, c, rest);
    } else {
      AstralReads(s, i, c, done);
    }
  }

  lemma CharReads(s: Chars, i: nat, t: Text, done: Text, head: Chars, rest: Text)
    requires t != [] && !PairAt(t, 0) && head == PrintChar(t[0]) && rest == t[1..]
    requires Starts(s, i, PrintChars(t) + [0x22])
    ensures Starts(s, i + |head|, PrintChars(rest) + [0x22]) && |PrintChars(t)| == |head| + |PrintChars(rest)|
    ensures ParseChars(s, i, done) == ParseChars(s, i + |head|, done + [t[0]])
  {
    FirstChar(s, i, t, head, PrintChars(rest));
    OneCharReads(s, i, t[0], rest, done);
  }

  lemma HighPrinted(c: CodePoint, printed: Chars)
    requires (High(c) || Low(c)) && printed == Escape(c)
    ensures |printed| == 6 && printed == PrintChar(c)
  {
  }

  /** The two escapes of a pair, and what is behind them. */
  lemma PairStands(s: Chars, i: nat, t: Text, high: Chars, low: Chars, tail: Chars)
    requires PairAt(t, 0) && high == Escape(t[0]) && low == Escape(t[1]) && tail == PrintChars(t[2..])
    requires Starts(s, i, PrintChars(t) + [0x22])
    ensures |PrintChars(t)| == 12 + |tail|
    ensures Starts(s, i, high) && Starts(s, i + 6, low) && Starts(s, i + 12, tail + [0x22])
  {
    assert t[1..][1..] == t[2..] && t[1..][0] == t[1];
    HighPrinted(t[0], high);
    HighPrinted(t[1], low);
    FirstChar(s, i, t, high, PrintChars(t[1..]));
    FirstChar(s, i + 6, t[1..], low, tail);
  }

  lemma PairCharsRead(s: Chars, i: nat, t: Text, done: Text)
    requires PairAt(t, 0) && Starts(s, i, PrintChars(t) + [0x22])
    ensures |PrintChars(t)| == 12 + |PrintChars(t[2..])| && Starts(s, i + 12, PrintChars(t[2..]) + [0x22])
    ensures ParseChars(s, i, done) == ParseChars(s, i + 12, done + [Combine(t[0], t[1])])
  {
    PairStands(s, i, t, Escape(t[0]), Escape(t[1]), PrintChars(t[2..]));
    PairReads(s, i, t[0], t[1], done);
  }

  lemma {:induction false} PairStep(s: Chars, i: nat, t: Text, done: Text)
    requires PairAt(t, 0) && Starts(s, i, PrintChars(t) + [0x22])
    ensures ParseChars(s, i, done) == At(done + Merge(t), i + |PrintChars(t)| + 1)
    decreases |t|, 0
  {
    PairCharsRead(s, i, t, done);
    CharsRead(s, i + 12, t[2..], done + [Combine(t[0], t[1])]);
    assert Merge(t) == [Combine(t[0], t[1])] + Merge(t[2..]);
    assert done + [Combine(t[0], t[1])] + Merge(t[2..]) == done + Merge(t);
  }

  lemma MergeStep(t: Text, done: Text)
    requires t != [] && !PairAt(t, 0)
    ensures (done + [t[0]]) + Merge(t[1..]) == done + Merge(t)
  {
    assert Merge(t) == [t[0]] + Merge(t[1..]);
  }

  lemma {:induction false} CharStep(s: Chars, i: nat, t: Text, done: Text, head: Chars, rest: Text)
    requires t != [] && !PairAt(t, 0) && head == PrintChar(t[0]) && rest == t[1..]
    requires Starts(s, i, PrintChars(t) + [0x22])
    ensures ParseChars(s, i, done) == At(done + Merge(t), i + |PrintChars(t)| + 1)
    decreases |t|, 0
  {
    CharReads(s, i, t, done, head, rest);
    CharsRead(s, i + |head|, rest, done + [t[0]]);
    MergeStep(t, done);
  }

  /** A printed text is read back merged. */
  lemma {:induction false} CharsRead(s: Chars, i: nat, t: Text, done: Text)
    requires Starts(s, i, PrintChars(t) + [0x22])
    ensures ParseChars(s, i, done) == At(done + Merge(t), i + |PrintChars(t)| + 1)
    decreases |t|, 1
  {
    if t == [] {
      First(s, i, PrintChars(t) + [0x22]);
      assert done + [] == done;
    } else if PairAt(t, 0) {
      PairStep(s, i, t, done);
    } else {
      CharStep(s, i, t, done, PrintChar(t[0]), t[1..]);
    }
  }

  lemma TextReads(s: Chars, i: nat, t: Text)
    requires Starts(s, i, PrintText(t))
    ensures Looks(s, i, 0x22) && ParseChars(s, i + 1, []) == At(Merge(t), i + |PrintText(t)|)
  {
    assert PrintText(t) == [0x22] + (PrintChars(t) + [0x22]);
    Split(s, i, [0x22], PrintChars(t) + [0x22]);
    First(s, i, [0x22]);
    CharsRead(s, i + 1, t, []);
    assert [] + Merge(t) == Merge(t);
  }
}
