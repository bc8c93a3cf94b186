/** Encoding and decoding undo each other exactly on the sendable messages, and frames split cleanly. */
module RpcCodec {
  import opened Options
  import opened JsonValues
  import opened JsonText
  import opened JsonRoundTrip
  import opened JsonNumbers
  import opened JsonDocuments
  import opened JsonFidelity
  import opened RpcMessages

  // ----- dictionaries with fixed keys -----

  predicate Ascii(s: string) {
    forall i :: 0 <= i < |s| ==> s[i] < 128 as char
  }

  lemma AsciiUnpaired(s: string)
    requires Ascii(s)
    ensures Unpaired(T(s))
  {
    forall i: nat ensures !PairAt(T(s), i) {
      if i + 1 < |s| { assert T(s)[i] == s[i] as int < 128; }
    }
  }

  lemma TextsDiffer(a: string, b: string)
    requires a != b
    ensures T(a) != T(b)
  {
    if |a| == |b| {
      var i :| 0 <= i < |a| && a[i] != b[i];
      assert T(a)[i] == a[i] as int && T(b)[i] == b[i] as int;
    } else {
      assert |T(a)| != |T(b)|;
    }
  }

  lemma {:induction false} GetAt(fields: seq<Field>, i: nat)
    requires i < |fields| && DifferentKeys(fields)
    ensures Get(fields, fields[i].key) == Some(fields[i].value)
    decreases i
  {
    if i > 0 {
      forall a, b | 0 <= a < b < |fields[1..]| ensures fields[1..][a].key != fields[1..][b].key {
        assert fields[a + 1].key != fields[b + 1].key;
      }
      GetAt(fields[1..], i - 1);
    }
  }

  lemma {:induction false} GetMissing(fields: seq<Field>, key: Text)
    requires forall i :: 0 <= i < |fields| ==> fields[i].key != key
    ensures Get(fields, key) == None
    decreases |fields|
  {
    if fields != [] { GetMissing(fields[1..], key); }
  }

  /** Keys without surrogates stay, values are decoded. */
  function Mapped(fields: seq<Field>): seq<Field> {
    seq(|fields|, i requires 0 <= i < |fields| => Field(fields[i].key, Decoded(fields[i].value)))
  }

  lemma {:induction false} FixedKeysDecode(fields: seq<Field>, k: nat)
    requires k <= |fields| && DifferentKeys(fields) && forall i :: 0 <= i < |fields| ==> Unpaired(fields[i].key)
    ensures DecodedFields(Mapped(fields)[..k], fields, k) == Mapped(fields)
    decreases |fields| - k
  {
    var all := Mapped(fields);
    if k < |fields| {
      MergeKeepsUnpaired(fields[k].key);
      assert DecodedField(fields[k]) == all[k];
      StoreNewKey(all[..k], all[k]);
      assert all[..k] + [all[k]] == all[..k + 1];
      FixedKeysDecode(fields, k + 1);
    } else {
      assert all[..k] == all;
    }
  }

  /** Decoding the printed form of such a dictionary maps its lookups. */
  lemma DictDecodes(fields: seq<Field>)
    requires DifferentKeys(fields) && forall i :: 0 <= i < |fields| ==> Unpaired(fields[i].key)
    ensures Decoded(Object(fields)) == Object(Mapped(fields)) && DifferentKeys(Mapped(fields))
  {
    FixedKeysDecode(fields, 0);
    assert Mapped(fields)[..0] == [];
  }

  // ----- the dictionaries of messages -----

  lemma NamesDiffer()
    ensures T("jsonrpc") != T("id") && T("jsonrpc") != T("method") && T("jsonrpc") != T("params")
    ensures T("jsonrpc") != T("error") && T("jsonrpc") != T("result")
    ensures T("id") != T("method") && T("id") != T("params") && T("id") != T("error") && T("id") != T("result")
    ensures T("method") != T("params") && T("method") != T("error") && T("method") != T("result")
    ensures T("params") != T("error") && T("params") != T("result") && T("error") != T("result")
    ensures T("code") != T("message") && T("code") != T("data") && T("message") != T("data")
  {
    TextsDiffer("jsonrpc", "id"); TextsDiffer("jsonrpc", "method"); TextsDiffer("jsonrpc", "params");
    TextsDiffer("jsonrpc", "error"); TextsDiffer("jsonrpc", "result");
    TextsDiffer("id", "method"); TextsDiffer("id", "params"); TextsDiffer("id", "error"); TextsDiffer("id", "result");
    TextsDiffer("method", "params"); TextsDiffer("method", "error"); TextsDiffer("method", "result");
    TextsDiffer("params", "error"); TextsDiffer("params", "result"); TextsDiffer("error", "result");
    TextsDiffer("code", "message"); TextsDiffer("code", "data"); TextsDiffer("message", "data");
  }

  lemma NamesUnpaired()
    ensures Unpaired(T("jsonrpc")) && Unpaired(T("id")) && Unpaired(T("method")) && Unpaired(T("params"))
    ensures Unpaired(T("error")) && Unpaired(T("result")) && Unpaired(T("code")) && Unpaired(T("message")) && Unpaired(T("data"))
    ensures Unpaired(T("2.0"))
  {
    AsciiUnpaired("jsonrpc"); AsciiUnpaired("id"); AsciiUnpaired("method"); AsciiUnpaired("params");
    AsciiUnpaired("error"); AsciiUnpaired("result"); AsciiUnpaired("code"); AsciiUnpaired("message"); AsciiUnpaired("data");
    AsciiUnpaired("2.0");
  }

  /** Such an entry is read back under the same key, its value decoded. */
  lemma Lookup(fields: seq<Field>, i: nat)
    requires i < |fields| && DifferentKeys(Mapped(fields))
    ensures Get(Mapped(fields), fields[i].key) == Some(Decoded(fields[i].value))
  {
    GetAt(Mapped(fields), i);
  }

  lemma LookupMissing(fields: seq<Field>, key: Text)
    requires forall i :: 0 <= i < |fields| ==> fields[i].key != key
    ensures Get(Mapped(fields), key) == None
  {
    GetMissing(Mapped(fields), key);
  }

  lemma VersionDecodes(fields: seq<Field>)
    requires fields != [] && fields[0] == Version() && DifferentKeys(Mapped(fields))
    ensures Get(Mapped(fields), T("jsonrpc")) == Some(Leaf(Str(T("2.0"))))
  {
    NamesUnpaired();
    Lookup(fields, 0);
    MergeKeepsUnpaired(T("2.0"));
  }

  lemma {:induction false} MergeEmpty(t: Text)
    ensures Merge(t) == [] <==> t == []
  {
  }

  /** The decoded id is accepted, and is the same exactly when it holds no pair. */
  lemma IdDecodes(id: Scalar)
    requires IsId(id)
    ensures var v := Decoded(Leaf(id)); ParseId(v) == Some(v.scalar) && (v.scalar == id <==> AllUnpaired(Leaf(id)))
  {
    DecodedIsSame(Leaf(id));
  }

  lemma TextDecodes(t: Text)
    ensures RequireText(Some(Decoded(Leaf(Str(t))))) == if t == [] then None else Some(Merge(t))
    ensures Merge(t) == t <==> Unpaired(t)
  {
    MergeEmpty(t);
    MergeKeepsUnpaired(t);
  }

  /** Params are left out when empty, and read back as the empty dict then. */
  lemma ParamsDecode(fields: seq<Field>, params: seq<Field>)
    requires DifferentKeys(Mapped(fields)) && DictLike(Object(params))
    requires if params == [] then forall i :: 0 <= i < |fields| ==> fields[i].key != T("params")
             else fields != [] && fields[|fields| - 1] == Item("params", Object(params))
    ensures var p := ParseParams(Get(Mapped(fields), T("params")));
            p == Some(DecodedFields([], params, 0)) && (p == Some(params) <==> AllUnpaired(Object(params)))
  {
    DecodedIsSame(Object(params));
    if params == [] {
      LookupMissing(fields, T("params"));
    } else {
      Lookup(fields, |fields| - 1);
    }
  }

  lemma RequestDict(m: Message)
    requires m.Request? && WellTyped(m)
    ensures var d := ToDict(m);
            && Decoded(Object(d)) == Object(Mapped(d)) && DifferentKeys(Mapped(d))
            && (m.params == [] ==> forall i :: 0 <= i < |d| ==> d[i].key != T("params"))
  {
    NamesDiffer();
    NamesUnpaired();
    DictDecodes(ToDict(m));
  }

  lemma RequestRoundTrip(m: Message)
    requires m.Request? && WellTyped(m)
    ensures FromDict(Decoded(Object(ToDict(m))).fields) == Some(m) <==> Sendable(m)
  {
    var d := ToDict(m);
    RequestDict(m);
    VersionDecodes(d);
    Lookup(d, 1);
    Lookup(d, 2);
    ParamsDecode(d, m.params);
    TextDecodes(m.methodName);
    IdDecodes(m.id);
  }

  lemma NotificationDict(m: Message)
    requires m.Notification? && WellTyped(m)
    ensures var d := ToDict(m);
            && Decoded(Object(d)) == Object(Mapped(d)) && DifferentKeys(Mapped(d))
            && (m.params == [] ==> forall i :: 0 <= i < |d| ==> d[i].key != T("params"))
            && (forall i :: 0 <= i < |d| ==> d[i].key != T("id"))
  {
    NamesDiffer();
    NamesUnpaired();
    DictDecodes(ToDict(m));
  }

  lemma NotificationRoundTrip(m: Message)
    requires m.Notification? && WellTyped(m)
    ensures FromDict(Decoded(Object(ToDict(m))).fields) == Some(m) <==> Sendable(m)
  {
    var d := ToDict(m);
    NotificationDict(m);
    VersionDecodes(d);
    Lookup(d, 1);
    LookupMissing(d, T("id"));
    ParamsDecode(d, m.params);
    TextDecodes(m.methodName);
  }

  lemma ErrorDecodes(e: RpcError)
    requires IsInt(e.code) && DictLike(e.data)
    ensures ParseError(Decoded(ErrorDict(e))) == Some(e) <==> e.message != [] && Unpaired(e.message) && AllUnpaired(e.data)
    ensures e.message == [] ==> ParseError(Decoded(ErrorDict(e))).None?
  {
    var d := ErrorDict(e).fields;
    NamesDiffer();
    NamesUnpaired();
    DictDecodes(d);
    Lookup(d, 0);
    Lookup(d, 1);
    TextDecodes(e.message);
    DecodedIsSame(e.data);
    if e.data == Leaf(Null) {
      LookupMissing(d, T("data"));
    } else {
      Lookup(d, 2);
    }
  }

  lemma ResponseDict(m: Message)
    requires m.Response? && WellTyped(m)
    ensures var d := ToDict(m);
            && Decoded(Object(d)) == Object(Mapped(d)) && DifferentKeys(Mapped(d))
            && (forall i :: 0 <= i < |d| ==> d[i].key != T("method"))
            && (m.error.None? ==> forall i :: 0 <= i < |d| ==> d[i].key != T("error"))
  {
    NamesDiffer();
    NamesUnpaired();
    DictDecodes(ToDict(m));
  }

  lemma ResponseRoundTrip(m: Message)
    requires m.Response? && WellTyped(m)
    ensures FromDict(Decoded(Object(ToDict(m))).fields) == Some(m) <==> Sendable(m)
  {
    var d := ToDict(m);
    ResponseDict(m);
    VersionDecodes(d);
    Lookup(d, 1);
    Lookup(d, 2);
    LookupMissing(d, T("method"));
    IdDecodes(m.id);
    if m.error.Some? {
      ErrorDecodes(m.error.value);
    } else {
      LookupMissing(d, T("error"));
      DecodedIsSame(m.result);
    }
  }

  // ----- the codec -----

  lemma MessageIsProper(m: Message)
    requires WellTyped(m)
    ensures ProperNumbers(Object(ToDict(m)))
  {
    var d := ToDict(m);
    forall i | 0 <= i < |d| ensures ProperNumbers(d[i].value) {
      if m.Response? && i == 2 && m.error.Some? {
        var e := ErrorDict(m.error.value).fields;
        forall j | 0 <= j < |e| ensures ProperNumbers(e[j].value) {}
      }
    }
  }

  /** decode_message undoes encode_message exactly on the sendable messages. */
  lemma DecodeUndoesEncode(m: Message)
    requires WellTyped(m)
    ensures DecodeMessage(EncodeMessage(m)) == Some(m) <==> Sendable(m)
  {
    MessageIsProper(m);
    LoadsPrinted(Object(ToDict(m)));
    match m
    case Request(_, _, _) => RequestRoundTrip(m);
    case Notification(_, _) => NotificationRoundTrip(m);
    case Response(_, _, _) => ResponseRoundTrip(m);
  }

  /** A frame is one line: its only newline is its last character, and all else is printable ASCII. */
  lemma FrameIsOneLine(m: Message)
    requires WellTyped(m)
    ensures var f := EncodeMessage(m);
            f != [] && f[|f| - 1] == 0x0A && forall i :: 0 <= i < |f| - 1 ==> 0x20 <= f[i] <= 0x7E
  {
    MessageIsProper(m);
    PrintedIsPrintable(Object(ToDict(m)));
  }

  // ----- frames on a stream -----

  function Stream(ms: seq<Message>): Chars {
    if ms == [] then [] else EncodeMessage(ms[0]) + Stream(ms[1..])
  }

  /** One past the first newline from `i` on, or the end. */
  function LineEnd(s: Chars, i: nat): (j: nat)
    requires i <= |s|
    ensures i <= j <= |s| && (i < |s| ==> i < j)
    decreases |s| - i
  {
    if i == |s| then i else if s[i] == 0x0A then i + 1 else LineEnd(s, i + 1)
  }

  /** readline until the end of the stream. */
  function Lines(s: Chars): seq<Chars>
    decreases |s|
  {
    if s == [] then [] else [s[..LineEnd(s, 0)]] + Lines(s[LineEnd(s, 0)..])
  }

  lemma {:induction false} LineEndsAfter(s: Chars, i: nat, f: Chars)
    requires i < |f| <= |s| && f[|f| - 1] == 0x0A
    requires forall k :: i <= k < |f| ==> s[k] == f[k]
    requires forall k :: i <= k < |f| - 1 ==> f[k] != 0x0A
    ensures LineEnd(s, i) == |f|
    decreases |f| - i
  {
    if i < |f| - 1 { LineEndsAfter(s, i + 1, f); }
  }

  /** Splitting concatenated frames at newlines recovers the frames in order, and decoding them the messages. */
  lemma {:induction false} FramesSplit(ms: seq<Message>)
    requires forall i :: 0 <= i < |ms| ==> WellTyped(ms[i]) && Sendable(ms[i])
    ensures |Lines(Stream(ms))| == |ms|
    ensures forall i :: 0 <= i < |ms| ==> DecodeMessage(Lines(Stream(ms))[i]) == Some(ms[i])
    decreases |ms|
  {
    if ms != [] {
      var f, rest := EncodeMessage(ms[0]), Stream(ms[1..]);
      FrameIsOneLine(ms[0]);
      DecodeUndoesEncode(ms[0]);
      LineEndsAfter(f + rest, 0, f);
      assert (f + rest)[..|f|] == f && (f + rest)[|f|..] == rest;
      FramesSplit(ms[1..]);
      var lines := Lines(Stream(ms));
      assert lines == [f] + Lines(rest);
      forall i | 0 <= i < |ms| ensures DecodeMessage(lines[i]) == Some(ms[i]) {
        if i > 0 { assert lines[i] == Lines(rest)[i - 1]; }
      }
    }
  }

  /** A message whose text holds a surrogate pair as two characters is decoded to a different one. */
  lemma SurrogatePairsMerge()
    ensures var m := Notification(T("m"), [Field(T("k"), Leaf(Str([0xD83D, 0xDE00])))]);
            WellTyped(m) && DecodeMessage(EncodeMessage(m)) != Some(m)
  {
    var text: Text := [0xD83D, 0xDE00];
    var params := [Field(T("k"), Leaf(Str(text)))];
    var m := Notification(T("m"), params);
    assert PairAt(text, 0);
    assert !FieldUnpaired(params[0]);
    DecodeUndoesEncode(m);
  }
}
