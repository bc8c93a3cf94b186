/** json.dumps with compact separators and ASCII escaping, and json.loads, on code points. */
module JsonText {
  import opened Options
  import opened JsonValues

  type Chars = seq<int>

  // ----- printing -----

  function Hex4(n: int): Chars
    requires 0 <= n < 0x10000
  {
    [HexDigit(n / 4096), HexDigit(n / 256 % 16), HexDigit(n / 16 % 16), HexDigit(n % 16)]
  }

  function Escape(n: int): Chars
    requires 0 <= n < 0x10000
  {
    [0x5C, 0x75] + Hex4(n)
  }

  predicate High(c: int) {
    0xD800 <= c < 0xDC00
  }

  predicate Low(c: int) {
    0xDC00 <= c < 0xE000
  }

  function Combine(high: int, low: int): CodePoint
    requires High(high) && Low(low)
  {
    0x10000 + (high - 0xD800) * 0x400 + (low - 0xDC00)
  }

  /** The surrogate pair of a character beyond the basic plane. */
  function HighOf(c: CodePoint): (h: int)
    requires c >= 0x10000
    ensures High(h)
  {
    0xD800 + (c - 0x10000) / 0x400
  }

  function LowOf(c: CodePoint): (l: int)
    requires c >= 0x10000
    ensures Low(l) && Combine(HighOf(c), l) == c
  {
    0xDC00 + (c - 0x10000) % 0x400
  }

  function PrintChar(c: CodePoint): Chars {
    if c == 0x22 || c == 0x5C then [0x5C, c]
    else if c == 0x0A then [0x5C, 0x6E]
    else if c == 0x0D then [0x5C, 0x72]
    else if c == 0x09 then [0x5C, 0x74]
    else if c == 0x0C then [0x5C, 0x66]
    else if c == 0x08 then [0x5C, 0x62]
    else if 0x20 <= c <= 0x7E then [c]
    else if c < 0x10000 then Escape(c)
    else Escape(HighOf(c)) + Escape(LowOf(c))
  }

  function PrintChars(s: Text): Chars {
    if s == [] then [] else PrintChar(s[0]) + PrintChars(s[1..])
  }

  function PrintText(s: Text): Chars {
    [0x22] + PrintChars(s) + [0x22]
  }

  function PrintNumber(n: Number): Chars {
    match n
    case Integer(_) => EncodeNumber(n)
    case Float(decimal) => decimal
    case NonFinite(NaN) => [0x4E, 0x61, 0x4E]
    case NonFinite(Infinity) => [0x49, 0x6E, 0x66, 0x69, 0x6E, 0x69, 0x74, 0x79]
    case NonFinite(NegativeInfinity) => [0x2D, 0x49, 0x6E, 0x66, 0x69, 0x6E, 0x69, 0x74, 0x79]
  }

  function PrintScalar(s: Scalar): Chars {
    match s
    case Null => EncodeScalar(s)
    case Boolean(_) => EncodeScalar(s)
    case Str(text) => PrintText(text)
    case Num(n) => PrintNumber(n)
  }

  function Print(t: Tree): Chars
    decreases t
  {
    match t
    case Leaf(s) => PrintScalar(s)
    case Object(fields) => [0x7B] + if fields == [] then [0x7D] else PrintField(fields[0]) + FieldsTail(fields, 1)
    case Array(elements) => [0x5B] + if elements == [] then [0x5D] else Print(elements[0]) + ElementsTail(elements, 1)
  }

  function PrintField(f: Field): Chars
    decreases f
  {
    PrintText(f.key) + ([0x3A] + Print(f.value))
  }

  /** The entries from `k` on, each behind its comma, and the closing brace. */
  function FieldsTail(fields: seq<Field>, k: nat): Chars
    decreases fields, |fields| - k
  {
    if k >= |fields| then [0x7D] else [0x2C] + (PrintField(fields[k]) + FieldsTail(fields, k + 1))
  }

  function ElementsTail(elements: seq<Tree>, k: nat): Chars
    decreases elements, |elements| - k
  {
    if k >= |elements| then [0x5D] else [0x2C] + (Print(elements[k]) + ElementsTail(elements, k + 1))
  }

  // ----- parsing -----

  /** A parsed value and the position behind it. */
  datatype Parsed<T> = At(value: T, next: nat) | Bad

  predicate Space(c: int) {
    c == 0x20 || c == 0x09 || c == 0x0A || c == 0x0D
  }

  function Skip(s: Chars, i: nat): (j: nat)
    ensures j >= i
    decreases |s| - i
  {
    if i < |s| && Space(s[i]) then Skip(s, i + 1) else i
  }

  predicate Looks(s: Chars, i: nat, c: int) {
    i < |s| && s[i] == c
  }

  predicate Starts(s: Chars, i: nat, word: Chars) {
    i + |word| <= |s| && forall k :: 0 <= k < |word| ==> s[i + k] == word[k]
  }

  function HexValue(c: int): Option<nat> {
    if 0x30 <= c <= 0x39 then Some(c - 0x30)
    else if 0x61 <= c <= 0x66 then Some(c - 0x57)
    else if 0x41 <= c <= 0x46 then Some(c - 0x37)
    else None
  }

  /** Four hexadecimal digits. */
  function ParseHex4(s: Chars, i: nat): (n: Option<nat>)
    ensures n.Some? ==> i + 4 <= |s| && n.value < 0x10000
  {
    if i + 4 > |s| then None
    else
      var a, b, c, d := HexValue(s[i]), HexValue(s[i + 1]), HexValue(s[i + 2]), HexValue(s[i + 3]);
      if a.None? || b.None? || c.None? || d.None? then None
      else Some(4096 * a.value + 256 * b.value + 16 * c.value + d.value)
  }

  /** One escape, from behind the backslash. A high surrogate takes a directly following low one with it. */
  function ParseEscape(s: Chars, i: nat): (p: Parsed<CodePoint>)
    ensures p.At? ==> i < p.next <= |s|
  {
    if i >= |s| then Bad
    else if s[i] == 0x22 || s[i] == 0x5C || s[i] == 0x2F then At(s[i], i + 1)
    else if s[i] == 0x62 then At(0x08, i + 1)
    else if s[i] == 0x66 then At(0x0C, i + 1)
    else if s[i] == 0x6E then At(0x0A, i + 1)
    else if s[i] == 0x72 then At(0x0D, i + 1)
    else if s[i] == 0x74 then At(0x09, i + 1)
    else if s[i] != 0x75 then Bad
    else
      match ParseHex4(s, i + 1)
      case None => Bad
      case Some(n) =>
        if High(n) && Starts(s, i + 5, [0x5C, 0x75]) then
          match ParseHex4(s, i + 7)
          case None => Bad
          case Some(m) => if Low(m) then At(Combine(n, m), i + 11) else At(n, i + 5)
        else At(n, i + 5)
  }

  /** The characters up to the closing quote. */
  function ParseChars(s: Chars, i: nat, done: Text): (p: Parsed<Text>)
    ensures p.At? ==> i < p.next <= |s|
    decreases |s| - i
  {
    if i >= |s| then Bad
    else if s[i] == 0x22 then At(done, i + 1)
    else if s[i] == 0x5C then
      match ParseEscape(s, i + 1)
      case Bad => Bad
      case At(c, j) => ParseChars(s, j, done + [c])
    else if 0x20 <= s[i] < 0x110000 then ParseChars(s, i + 1, done + [s[i]])
    else Bad
  }

  predicate Digit(c: int) {
    0x30 <= c <= 0x39
  }

  predicate NumberChar(c: int) {
    0x2B <= c <= 0x65
  }

  predicate NumberChars(s: Chars, i: nat, j: nat) {
    forall k :: i <= k < j && k < |s| ==> NumberChar(s[k])
  }

  /** The first position from `i` on that holds no digit. */
  function Digits(s: Chars, i: nat): (j: nat)
    ensures i <= j && (i <= |s| ==> j <= |s|) && NumberChars(s, i, j)
    decreases |s| - i
  {
    if i < |s| && Digit(s[i]) then Digits(s, i + 1) else i
  }

  function WholePart(s: Chars, i: nat): (j: nat)
    ensures (i <= |s| ==> i <= j <= |s|) && NumberChars(s, i, j)
  {
    if Looks(s, i, 0x30) then i + 1 else Digits(s, i)
  }

  function Fraction(s: Chars, i: nat): (j: nat)
    ensures (i <= |s| ==> i <= j <= |s|) && NumberChars(s, i, j)
  {
    if Looks(s, i, 0x2E) && Digits(s, i + 1) > i + 1 then Digits(s, i + 1) else i
  }

  function Exponent(s: Chars, i: nat): (j: nat)
    ensures (i <= |s| ==> i <= j <= |s|) && NumberChars(s, i, j)
  {
    if Looks(s, i, 0x65) || Looks(s, i, 0x45) then
      var k := if Looks(s, i + 1, 0x2B) || Looks(s, i + 1, 0x2D) then i + 2 else i + 1;
      if Digits(s, k) > k then Digits(s, k) else i
    else i
  }

  function DecimalValue(s: Chars): nat {
    if s == [] then 0
    else 10 * DecimalValue(s[..|s| - 1]) + if Digit(s[|s| - 1]) then s[|s| - 1] - 0x30 else 0
  }

  function NumberStart(s: Chars, i: nat): nat {
    if Looks(s, i, 0x2D) then i + 1 else i
  }

  function NumberWhole(s: Chars, i: nat): nat {
    WholePart(s, NumberStart(s, i))
  }

  function NumberEnd(s: Chars, i: nat): nat {
    Exponent(s, Fraction(s, NumberWhole(s, i)))
  }

  /** The longest number at `i`: an integer, or a float when a fraction or an exponent is there. */
  function ParseNumber(s: Chars, i: nat): (p: Parsed<Number>)
    ensures p.At? ==> i < p.next <= |s|
  {
    var start, whole, end := NumberStart(s, i), NumberWhole(s, i), NumberEnd(s, i);
    if whole == start || whole > |s| then Bad
    else if end == whole then
      At(Integer(if start > i then 0 - DecimalValue(s[start..whole]) else DecimalValue(s[start..whole])), whole)
    else
      assert NumberChars(s, i, end);
      At(Float(s[i..end]), end)
  }

  function ParseWord(s: Chars, i: nat): (p: Parsed<Scalar>)
    ensures p.At? ==> i < p.next <= |s|
  {
    if Starts(s, i, [0x6E, 0x75, 0x6C, 0x6C]) then At(Null, i + 4)
    else if Starts(s, i, [0x74, 0x72, 0x75, 0x65]) then At(Boolean(true), i + 4)
    else if Starts(s, i, [0x66, 0x61, 0x6C, 0x73, 0x65]) then At(Boolean(false), i + 5)
    else
      match ParseNumber(s, i)
      case At(n, j) => At(Num(n), j)
      case Bad =>
        if Starts(s, i, PrintNumber(NonFinite(NaN))) then At(Num(NonFinite(NaN)), i + 3)
        else if Starts(s, i, PrintNumber(NonFinite(Infinity))) then At(Num(NonFinite(Infinity)), i + 8)
        else if Starts(s, i, PrintNumber(NonFinite(NegativeInfinity))) then At(Num(NonFinite(NegativeInfinity)), i + 9)
        else Bad
  }

  function Parse(s: Chars, i: nat): (p: Parsed<Tree>)
    ensures p.At? ==> i < p.next <= |s|
    decreases |s| - i, 0
  {
    if Looks(s, i, 0x22) then
      match ParseChars(s, i + 1, [])
      case Bad => Bad
      case At(text, j) => At(Leaf(Str(text)), j)
    else if Looks(s, i, 0x7B) then
      var j := Skip(s, i + 1);
      if Looks(s, j, 0x7D) then At(Object([]), j + 1)
      else
        match ParseFields(s, j, [])
        case Bad => Bad
        case At(fields, k) => At(Object(fields), k)
    else if Looks(s, i, 0x5B) then
      var j := Skip(s, i + 1);
      if Looks(s, j, 0x5D) then At(Array([]), j + 1)
      else
        match ParseElements(s, j, [])
        case Bad => Bad
        case At(elements, k) => At(Array(elements), k)
    else
      match ParseWord(s, i)
      case Bad => Bad
      case At(a, j) => At(Leaf(a), j)
  }

  /** One entry, from its opening quote. */
  function ParseField(s: Chars, i: nat): (p: Parsed<Field>)
    ensures p.At? ==> i < p.next <= |s|
    decreases |s| - i, 1
  {
    if !Looks(s, i, 0x22) then Bad
    else
      match ParseChars(s, i + 1, [])
      case Bad => Bad
      case At(key, j) =>
        var colon := Skip(s, j);
        if !Looks(s, colon, 0x3A) then Bad
        else
          match Parse(s, Skip(s, colon + 1))
          case Bad => Bad
          case At(value, k) => At(Field(key, value), k)
  }

  /** The entries up to the closing brace; a repeated key overwrites. */
  function ParseFields(s: Chars, i: nat, done: seq<Field>): (p: Parsed<seq<Field>>)
    ensures p.At? ==> i < p.next <= |s|
    decreases |s| - i, 2
  {
    match ParseField(s, i)
    case Bad => Bad
    case At(f, k) =>
      var end := Skip(s, k);
      if Looks(s, end, 0x7D) then At(Store(done, f), end + 1)
      else if Looks(s, end, 0x2C) then ParseFields(s, Skip(s, end + 1), Store(done, f))
      else Bad
  }

  function ParseElements(s: Chars, i: nat, done: seq<Tree>): (p: Parsed<seq<Tree>>)
    ensures p.At? ==> i < p.next <= |s|
    decreases |s| - i, 2
  {
    match Parse(s, i)
    case Bad => Bad
    case At(t, k) =>
      var end := Skip(s, k);
      if Looks(s, end, 0x5D) then At(done + [t], end + 1)
      else if Looks(s, end, 0x2C) then ParseElements(s, Skip(s, end + 1), done + [t])
      else Bad
  }

  /** json.loads: one value, and nothing but white space around it. */
  function Loads(s: Chars): Option<Tree> {
    match Parse(s, Skip(s, 0))
    case Bad => None
    case At(t, i) => if Skip(s, i) == |s| then Some(t) else None
  }
}
