/** encode_message and decode_message: JSON-RPC messages as newline-terminated frames. */
module RpcMessages {
  import opened Options
  import opened JsonValues
  import opened JsonText
  import opened JsonRoundTrip
  import opened JsonNumbers
  import opened JsonDocuments
  import opened JsonFidelity

  datatype RpcError = RpcError(code: Scalar, message: Text, data: Tree)

  datatype Message =
    | Request(methodName: Text, params: seq<Field>, id: Scalar)
    | Notification(methodName: Text, params: seq<Field>)
    | Response(id: Scalar, result: Tree, error: Option<RpcError>)

  function T(s: string): Text {
    seq(|s|, i requires 0 <= i < |s| => s[i] as int)
  }

  /** A string, an integer (a boolean is one) or null. */
  predicate IsId(a: Scalar) {
    a.Null? || a.Str? || IsInt(a)
  }

  predicate IsInt(a: Scalar) {
    a.Boolean? || (a.Num? && a.number.Integer?)
  }

  // ----- to_dict -----

  function Item(name: string, value: Tree): Field {
    Field(T(name), value)
  }

  function Version(): Field {
    Item("jsonrpc", Leaf(Str(T("2.0"))))
  }

  function ParamsEntry(params: seq<Field>): seq<Field> {
    if params == [] then [] else [Item("params", Object(params))]
  }

  function ErrorDict(e: RpcError): Tree {
    Object([Item("code", Leaf(e.code)), Item("message", Leaf(Str(e.message)))]
           + if e.data == Leaf(Null) then [] else [Item("data", e.data)])
  }

  function ToDict(m: Message): seq<Field> {
    match m
    case Request(methodName, params, id) =>
      [Version(), Item("id", Leaf(id)), Item("method", Leaf(Str(methodName)))] + ParamsEntry(params)
    case Notification(methodName, params) => [Version(), Item("method", Leaf(Str(methodName)))] + ParamsEntry(params)
    case Response(id, result, error) =>
      [Version(), Item("id", Leaf(id)), if error.Some? then Item("error", ErrorDict(error.value)) else Item("result", result)]
  }

  function EncodeMessage(m: Message): Chars {
    Print(Object(ToDict(m))) + [0x0A]
  }

  // ----- decode_message -----

  function Get(fields: seq<Field>, key: Text): Option<Tree> {
    if fields == [] then None
    else if fields[0].key == key then Some(fields[0].value)
    else Get(fields[1..], key)
  }

  function RequireText(v: Option<Tree>): Option<Text> {
    if v.Some? && v.value.Leaf? && v.value.scalar.Str? && v.value.scalar.s != [] then Some(v.value.scalar.s) else None
  }

  function RequireInt(v: Option<Tree>): Option<Scalar> {
    if v.Some? && v.value.Leaf? && IsInt(v.value.scalar) then Some(v.value.scalar) else None
  }

  function ParseId(v: Tree): Option<Scalar> {
    if v.Leaf? && IsId(v.scalar) then Some(v.scalar) else None
  }

  function ParseParams(v: Option<Tree>): Option<seq<Field>> {
    if v.None? || v.value == Leaf(Null) then Some([])
    else if v.value.Object? then Some(v.value.fields)
    else None
  }

  function ParseError(v: Tree): Option<RpcError> {
    if !v.Object? then None
    else
      var code, message := RequireInt(Get(v.fields, T("code"))), RequireText(Get(v.fields, T("message")));
      var data := Get(v.fields, T("data"));
      if code.None? || message.None? then None
      else Some(RpcError(code.value, message.value, if data.Some? then data.value else Leaf(Null)))
  }

  function FromDict(d: seq<Field>): Option<Message> {
    if Get(d, T("jsonrpc")) != Some(Leaf(Str(T("2.0")))) then None
    else if Get(d, T("method")).Some? then
      var methodName, params := RequireText(Get(d, T("method"))), ParseParams(Get(d, T("params")));
      if methodName.None? || params.None? then None
      else if Get(d, T("id")).None? then Some(Notification(methodName.value, params.value))
      else
        var id := ParseId(Get(d, T("id")).value);
        if id.None? then None else Some(Request(methodName.value, params.value, id.value))
    else if Get(d, T("id")).None? then None
    else
      var id := ParseId(Get(d, T("id")).value);
      if Get(d, T("error")).Some? then
        var error := ParseError(Get(d, T("error")).value);
        if id.None? || error.None? then None else Some(Response(id.value, Leaf(Null), error))
      else if Get(d, T("result")).None? || id.None? then None
      else Some(Response(id.value, Get(d, T("result")).value, None))
  }

  /** None stands for the ProtocolError the decoder raises. */
  function DecodeMessage(line: Chars): Option<Message> {
    match Loads(line)
    case None => None
    case Some(t) => if t.Object? then FromDict(t.fields) else None
  }

  // ----- which messages survive -----

  /** What the message types promise: id and code of the declared types, dicts with distinct keys, real floats. */
  predicate WellTyped(m: Message) {
    match m
    case Request(_, params, id) => IsId(id) && Valid(Object(params))
    case Notification(_, params) => Valid(Object(params))
    case Response(id, result, error) =>
      IsId(id) && Valid(result) && (error.Some? ==> IsInt(error.value.code) && Valid(error.value.data))
  }

  predicate Valid(t: Tree) {
    ProperNumbers(t) && DictLike(t)
  }

  /** The condition a sender can check: a non-empty method or error message, not both result and error, no surrogate pair in a text. */
  ghost predicate Sendable(m: Message) {
    match m
    case Request(methodName, params, id) => methodName != [] && Unpaired(methodName) && AllUnpaired(Object(params)) && AllUnpaired(Leaf(id))
    case Notification(methodName, params) => methodName != [] && Unpaired(methodName) && AllUnpaired(Object(params))
    case Response(id, result, error) =>
      AllUnpaired(Leaf(id)) &&
      if error.None? then AllUnpaired(result)
      else result == Leaf(Null) && error.value.message != [] && Unpaired(error.value.message) && AllUnpaired(error.value.data)
  }
}
