/** The percent-encoding scan and the decoding loop for the paths of artifact links. */
module ArtifactPath {

  datatype Scan = Passes | InvalidEncoding | UnsafeEncoding

  predicate HexDigit(c: char) {
    '0' <= c <= '9' || 'a' <= c <= 'f' || 'A' <= c <= 'F'
  }

  function HexValue(c: char): (v: int)
    requires HexDigit(c)
    ensures 0 <= v < 16
  {
    if c <= '9' then c as int - '0' as int else if c <= 'F' then c as int - 'A' as int + 10 else c as int - 'a' as int + 10
  }

  /** An escape stands at `i`. */
  predicate Escape(s: string, i: nat) {
    i + 2 < |s| && s[i] == '%' && HexDigit(s[i + 1]) && HexDigit(s[i + 2])
  }

  function EscapedChar(s: string, i: nat): char
    requires Escape(s, i)
  {
    (16 * HexValue(s[i + 1]) + HexValue(s[i + 2])) as char
  }

  /** What an escape may stand for: visible ASCII, in a path neither a separator, a dot nor a percent sign. */
  predicate Allowed(c: char, path: bool) {
    33 as char <= c <= 126 as char && !(path && (c == '/' || c == '\\' || c == '.' || c == '%'))
  }

  /** Every percent sign from `i` on begins an escape for an allowed character. */
  predicate Scanned(s: string, i: nat, path: bool) {
    forall k :: i <= k < |s| && s[k] == '%' ==> Escape(s, k) && Allowed(EscapedChar(s, k), path)
  }

  /** _validate_percent_encoding: which of the two errors is raised depends on the first offending escape. */
  method ValidatePercentEncoding(s: string, path: bool) returns (r: Scan)
    ensures r == Passes <==> Scanned(s, 0, path)
    ensures r == InvalidEncoding ==> exists k :: 0 <= k < |s| && s[k] == '%' && !Escape(s, k) && forall j :: 0 <= j < k && s[j] == '%' ==> Escape(s, j)
    ensures r == UnsafeEncoding ==> exists k :: 0 <= k < |s| && Escape(s, k) && !Allowed(EscapedChar(s, k), path)
  {
    var index := 0;
    while index < |s|
      invariant index <= |s|
      invariant forall k :: 0 <= k < index && s[k] == '%' ==> Escape(s, k) && Allowed(EscapedChar(s, k), path)
    {
      if s[index] == '%' {
        if !Escape(s, index) {
          return InvalidEncoding;
        }
        if !Allowed(EscapedChar(s, index), path) {
          return UnsafeEncoding;
        }
        assert s[index + 1] != '%' && s[index + 2] != '%';
        index := index + 3;
      } else {
        index := index + 1;
      }
    }
    r := Passes;
  }

  /** One decoding pass over a scanned text. */
  function Unquote(s: string): string
    requires Scanned(s, 0, true)
    decreases |s|
  {
    if s == "" then ""
    else if s[0] == '%' then
      assert Escape(s, 0);
      ScannedRest(s, 3, true);
      [EscapedChar(s, 0)] + Unquote(s[3..])
    else
      ScannedRest(s, 1, true);
      [s[0]] + Unquote(s[1..])
  }

  lemma ScannedRest(s: string, n: nat, path: bool)
    requires n <= |s| && Scanned(s, 0, path)
    ensures Scanned(s[n..], 0, path)
  {
    forall k | 0 <= k < |s[n..]| && s[n..][k] == '%' ensures Escape(s[n..], k) && Allowed(EscapedChar(s[n..], k), path) {
      assert s[n + k] == '%' && Escape(s, n + k);
      assert s[n..][k + 1] == s[n + k + 1] && s[n..][k + 2] == s[n + k + 2];
    }
  }

  /** One pass leaves no percent sign. */
  lemma {:induction false} UnquoteRemovesPercent(s: string)
    requires Scanned(s, 0, true)
    ensures '%' !in Unquote(s)
    decreases |s|
  {
    if s != "" {
      if s[0] == '%' {
        assert Escape(s, 0);
        ScannedRest(s, 3, true);
        UnquoteRemovesPercent(s[3..]);
      } else {
        ScannedRest(s, 1, true);
        UnquoteRemovesPercent(s[1..]);
      }
    }
  }

  lemma {:induction false} UnquoteKeepsPlain(s: string)
    requires '%' !in s
    ensures Scanned(s, 0, true) && Unquote(s) == s
    decreases |s|
  {
    if s != "" {
      UnquoteKeepsPlain(s[1..]);
      assert s == [s[0]] + s[1..];
    }
  }

  /** So a second pass changes nothing. */
  lemma OnePassIsEnough(s: string)
    requires Scanned(s, 0, true)
    ensures Scanned(Unquote(s), 0, true) && Unquote(Unquote(s)) == Unquote(s)
  {
    UnquoteRemovesPercent(s);
    UnquoteKeepsPlain(Unquote(s));
  }

  // ----- segments -----

  function Split(s: string): (parts: seq<string>)
    ensures parts != []
    decreases |s|
  {
    if s == "" then [""]
    else if s[0] == '/' then [""] + Split(s[1..])
    else [[s[0]] + Split(s[1..])[0]] + Split(s[1..])[1..]
  }

  lemma SplitConsistsOf(c: char, rest: string)
    requires c != '/'
    ensures Split([c] + rest) == [[c] + Split(rest)[0]] + Split(rest)[1..]
  {
    assert ([c] + rest)[1..] == rest;
  }

  /** Raw and decoded segments correspond one to one. */
  ghost predicate Correspond(raw: seq<string>, decoded: seq<string>) {
    |raw| == |decoded| && forall i :: 0 <= i < |raw| ==> Scanned(raw[i], 0, true) && decoded[i] == Unquote(raw[i])
  }

  lemma {:induction false} SplitEscape(s: string)
    requires Escape(s, 0)
    ensures Split(s) == [s[..3] + Split(s[3..])[0]] + Split(s[3..])[1..]
  {
    assert s == [s[0]] + ([s[1]] + ([s[2]] + s[3..]));
    SplitConsistsOf(s[2], s[3..]);
    SplitConsistsOf(s[1], [s[2]] + s[3..]);
    SplitConsistsOf(s[0], [s[1]] + ([s[2]] + s[3..]));
    assert [s[0]] + ([s[1]] + ([s[2]] + Split(s[3..])[0])) == s[..3] + Split(s[3..])[0];
  }

  lemma EscapePrefix(s: string, rest: string)
    requires Escape(s, 0) && Allowed(EscapedChar(s, 0), true) && Scanned(rest, 0, true)
    ensures Scanned(s[..3] + rest, 0, true) && Unquote(s[..3] + rest) == [EscapedChar(s, 0)] + Unquote(rest)
  {
    var t := s[..3] + rest;
    forall k | 0 <= k < |t| && t[k] == '%' ensures Escape(t, k) && Allowed(EscapedChar(t, k), true) {
      if k >= 3 {
        assert rest[k - 3] == '%' && Escape(rest, k - 3);
        assert t[k + 1] == rest[k - 2] && t[k + 2] == rest[k - 1];
      } else {
        assert k == 0;
      }
    }
    assert t[3..] == rest;
  }

  lemma PlainPrefix(c: char, rest: string)
    requires c != '%' && Scanned(rest, 0, true)
    ensures Scanned([c] + rest, 0, true) && Unquote([c] + rest) == [c] + Unquote(rest)
  {
    var t := [c] + rest;
    forall k | 0 <= k < |t| && t[k] == '%' ensures Escape(t, k) && Allowed(EscapedChar(t, k), true) {
      assert rest[k - 1] == '%' && Escape(rest, k - 1);
      assert t[k + 1] == rest[k] && t[k + 2] == rest[k + 1];
    }
    assert t[1..] == rest;
  }

  lemma {:induction false} SegmentsCorrespond(s: string)
    requires Scanned(s, 0, true)
    ensures Correspond(Split(s), Split(Unquote(s)))
    decreases |s|
  {
    if s == "" {
    } else if s[0] == '%' {
      assert Escape(s, 0);
      ScannedRest(s, 3, true);
      SegmentsCorrespond(s[3..]);
      EscapeJoins(s);
    } else {
      ScannedRest(s, 1, true);
      SegmentsCorrespond(s[1..]);
      PlainJoins(s);
    }
  }

  /** Growing the first segment on both sides, or opening a new empty one. */
  lemma CorrespondGrows(raw: seq<string>, decoded: seq<string>, first: string, first': string)
    requires Correspond(raw, decoded) && raw != [] && Scanned(first, 0, true) && first' == Unquote(first)
    ensures Correspond([first] + raw[1..], [first'] + decoded[1..])
    ensures Correspond([first] + raw, [first'] + decoded)
  {
    var longer, longer' := [first] + raw, [first'] + decoded;
    forall i | 0 <= i < |longer| ensures Scanned(longer[i], 0, true) && longer'[i] == Unquote(longer[i]) {
      if i > 0 { assert longer[i] == raw[i - 1] && longer'[i] == decoded[i - 1]; }
    }
    var grown, grown' := [first] + raw[1..], [first'] + decoded[1..];
    forall i | 0 <= i < |grown| ensures Scanned(grown[i], 0, true) && grown'[i] == Unquote(grown[i]) {
      if i > 0 { assert grown[i] == raw[i] && grown'[i] == decoded[i]; }
    }
  }

  lemma EscapeJoins(s: string)
    requires Scanned(s, 0, true) && Escape(s, 0) && Scanned(s[3..], 0, true) && Correspond(Split(s[3..]), Split(Unquote(s[3..])))
    ensures Correspond(Split(s), Split(Unquote(s)))
  {
    var raw, decoded := Split(s[3..]), Split(Unquote(s[3..]));
    SplitEscape(s);
    SplitConsistsOf(EscapedChar(s, 0), Unquote(s[3..]));
    EscapePrefix(s, raw[0]);
    CorrespondGrows(raw, decoded, s[..3] + raw[0], [EscapedChar(s, 0)] + decoded[0]);
  }

  lemma PlainJoins(s: string)
    requires s != "" && s[0] != '%' && Scanned(s, 0, true)
    requires Scanned(s[1..], 0, true) && Correspond(Split(s[1..]), Split(Unquote(s[1..])))
    ensures Correspond(Split(s), Split(Unquote(s)))
  {
    var raw, decoded := Split(s[1..]), Split(Unquote(s[1..]));
    assert Unquote(s) == [s[0]] + Unquote(s[1..]);
    if s[0] == '/' {
      assert Unquote(s)[1..] == Unquote(s[1..]);
      CorrespondGrows(raw, decoded, "", "");
    } else {
      SplitConsistsOf(s[0], Unquote(s[1..]));
      PlainPrefix(s[0], raw[0]);
      CorrespondGrows(raw, decoded, [s[0]] + raw[0], [s[0]] + decoded[0]);
    }
  }

  /** A decoded segment is a dot segment exactly when the raw one already was. */
  lemma DotSegmentsAreVisible(raw: string)
    requires Scanned(raw, 0, true)
    ensures Unquote(raw) in {".", ".."} <==> raw in {".", ".."}
  {
    if '%' !in raw {
      UnquoteKeepsPlain(raw);
    } else {
      EscapesAreNotDots(raw);
    }
  }

  lemma {:induction false} EscapesAreNotDots(raw: string)
    requires Scanned(raw, 0, true) && '%' in raw
    ensures exists k :: 0 <= k < |Unquote(raw)| && Unquote(raw)[k] != '.'
    decreases |raw|
  {
    if raw[0] == '%' {
      assert Escape(raw, 0);
      assert Unquote(raw)[0] == EscapedChar(raw, 0);
    } else {
      ScannedRest(raw, 1, true);
      EscapesAreNotDots(raw[1..]);
      var k :| 0 <= k < |Unquote(raw[1..])| && Unquote(raw[1..])[k] != '.';
      assert Unquote(raw)[k + 1] == Unquote(raw[1..])[k];
    }
  }

  // ----- the decoding loop -----

  datatype Path = Decoded(path: string) | Refused(scan: Scan) | ExcessiveEncoding

  /** The scan, then up to four decoding passes: the loop never runs out. */
  method DecodePath(path: string) returns (r: Path)
    ensures !r.ExcessiveEncoding?
    ensures r.Refused? <==> !Scanned(path, 0, true)
    ensures r.Decoded? ==> r.path == Unquote(path) && '%' !in r.path && Correspond(Split(path), Split(r.path))
  {
    var scan := ValidatePercentEncoding(path, true);
    if scan != Passes {
      return Refused(scan);
    }
    UnquoteRemovesPercent(path);
    SegmentsCorrespond(path);
    var decoded := path;
    var pass := 0;
    while pass < 4
      invariant pass <= 4 && Scanned(decoded, 0, true) && Scanned(path, 0, true)
      invariant pass == 0 ==> decoded == path
      invariant pass == 1 ==> decoded == Unquote(path)
      invariant pass <= 1
    {
      OnePassIsEnough(path);
      var next := Unquote(decoded);
      if next == decoded {
        return Decoded(decoded);
      }
      decoded := next;
      pass := pass + 1;
    }
    r := ExcessiveEncoding;
  }
}
