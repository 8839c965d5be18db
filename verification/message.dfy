/** JSON-RPC 2.0 messages and their classification from and to JSON values. */
module Messages {
  import opened Text
  import opened Lexeme
  import opened Json

  const PARSE_ERROR: i64 := -32700
  const INVALID_REQUEST: i64 := -32600
  const METHOD_NOT_FOUND: i64 := -32601
  const INVALID_PARAMS: i64 := -32602
  const INTERNAL_ERROR: i64 := -32603
  const SERVER_ERROR: i64 := -32000

  datatype RequestId = Named(name: string) | Signed(i: i64) | Unsigned(u: u64)

  datatype ErrorObject = ErrorObject(code: i64, message: string, data: Option<Value>)

  datatype Message =
    | Request(id: RequestId, verb: string, params: map<string, Value>)
    | Notification(verb: string, params: map<string, Value>)
    | Success(id: RequestId, result: Value)
    | Error(target: Option<RequestId>, error: ErrorObject)

  /** A parsed value, or the JSON-RPC code of the rule it breaks. */
  type Parsed<+T> = Result<T, i64>

  function ParseId(v: Value): Parsed<RequestId> {
    match v
    case String(s) => Ok(Named(s))
    case Number(_) =>
      if AsU64(v).Some? then Ok(Unsigned(AsU64(v).value))
      else if AsI64(v).Some? then Ok(Signed(AsI64(v).value))
      else Err(INVALID_REQUEST)
    case _ => Err(INVALID_REQUEST)
  }

  function IdValue(id: RequestId): Value {
    match id
    case Named(s) => String(s)
    case Signed(i) => Number(Integer(i))
    case Unsigned(u) => Number(Integer(u))
  }

  function ErrorValue(e: ErrorObject): Value {
    var fields := map["code" := Number(Integer(e.code)), "message" := String(e.message)];
    Object(if e.data.Some? then fields["data" := e.data.value] else fields)
  }

  /** An error body is an object with optional data, or its fields in order; null data reads as absent. */
  function ParseErrorObject(v: Value): Parsed<ErrorObject> {
    var parts: (Option<Value>, Option<Value>, Option<Value>) :=
      match v
      case Object(fields) => (Get(fields, "code"), Get(fields, "message"), Get(fields, "data"))
      case Array(items) =>
        if 2 <= |items| <= 3 then (Some(items[0]), Some(items[1]), if |items| == 3 then Some(items[2]) else None)
        else (None, None, None)
      case _ => (None, None, None);
    if parts.0.Some? && AsI64(parts.0.value).Some? && AsStr(parts.1).Some?
    then Ok(ErrorObject(AsI64(parts.0.value).value, AsStr(parts.1).value,
                        if parts.2 == Some(Null) then None else parts.2))
    else Err(INVALID_REQUEST)
  }

  function ToValue(m: Message): Value {
    var base := map["jsonrpc" := String("2.0")];
    Object(match m
      case Request(id, verb, params) => base["id" := IdValue(id)]["method" := String(verb)]["params" := Object(params)]
      case Notification(verb, params) => base["method" := String(verb)]["params" := Object(params)]
      case Success(id, result) => base["id" := IdValue(id)]["result" := result]
      case Error(target, error) =>
        base["id" := if target.Some? then IdValue(target.value) else Null]["error" := ErrorValue(error)])
  }

  function ParseValue(v: Value): Parsed<Message> {
    if !v.Object? then Err(INVALID_REQUEST)
    else if AsStr(Get(v.fields, "jsonrpc")) != Some("2.0") then Err(INVALID_REQUEST)
    else
      match ("method" in v.fields, "result" in v.fields, "error" in v.fields)
      case (true, false, false) => ParseCall(v.fields)
      case (false, true, false) => ParseSuccess(v.fields)
      case (false, false, true) => ParseError(v.fields)
      case _ => Err(INVALID_REQUEST)
  }

  function ParseCall(fields: map<string, Value>): Parsed<Message> {
    var verb, params := AsStr(Get(fields, "method")), Get(fields, "params");
    if verb.None? || verb.value == "" then Err(INVALID_REQUEST)
    else if params.Some? && !params.value.Object? then Err(INVALID_REQUEST)
    else
      var given := if params.Some? then params.value.fields else map[];
      if "id" !in fields then Ok(Notification(verb.value, given))
      else match ParseId(fields["id"])
        case Ok(id) => Ok(Request(id, verb.value, given))
        case Err(code) => Err(code)
  }

  function ParseSuccess(fields: map<string, Value>): Parsed<Message>
    requires "result" in fields
  {
    if "id" !in fields then Err(INVALID_REQUEST)
    else match ParseId(fields["id"])
      case Ok(id) => Ok(Success(id, fields["result"]))
      case Err(code) => Err(code)
  }

  function ParseError(fields: map<string, Value>): Parsed<Message>
    requires "error" in fields
  {
    if "id" !in fields then Err(INVALID_REQUEST)
    else
      var target: Parsed<Option<RequestId>> :=
        if fields["id"].Null? then Ok(None) else
          match ParseId(fields["id"])
          case Ok(id) => Ok(Some(id))
          case Err(code) => Err(code);
      match (target, ParseErrorObject(fields["error"]))
      case (Err(code), _) => Err(code)
      case (_, Err(code)) => Err(code)
      case (Ok(t), Ok(e)) => Ok(Error(t, e))
  }

  /** The members of a message object, as sections 4 and 5 of JSON-RPC 2.0 name them. */
  lemma MessageShape(m: Message)
    ensures var f := ToValue(m).fields;
      && f["jsonrpc"] == String("2.0")
      && match m
         case Request(id, verb, params) =>
           && f.Keys == {"jsonrpc", "id", "method", "params"}
           && f["id"] == IdValue(id) && f["method"] == String(verb) && f["params"] == Object(params)
         case Notification(verb, params) =>
           f.Keys == {"jsonrpc", "method", "params"} && f["method"] == String(verb) && f["params"] == Object(params)
         case Success(id, result) =>
           f.Keys == {"jsonrpc", "id", "result"} && f["id"] == IdValue(id) && f["result"] == result
         case Error(target, error) =>
           && f.Keys == {"jsonrpc", "id", "error"} && (f["id"].Null? <==> target.None?)
           && (target.Some? ==> f["id"] == IdValue(target.value)) && ErrorShape(f["error"], error)
  {
    if m.Error? { assert ErrorShape(ErrorValue(m.error), m.error); }
  }

  predicate ErrorShape(v: Value, e: ErrorObject) {
    && v.Object? && v.fields.Keys == {"code", "message"} + (if e.data.Some? then {"data"} else {})
    && v.fields["code"] == Number(Integer(e.code)) && v.fields["message"] == String(e.message)
    && (e.data.Some? ==> v.fields["data"] == e.data.value)
  }

  // ------------------------------------------------------------- round trip

  predicate CanonicalId(id: RequestId) {
    id.Signed? ==> id.i < 0
  }

  /** The messages that survive the trip through a JSON value unchanged. */
  predicate WellFormedMessage(m: Message) {
    match m
    case Request(id, verb, _) => CanonicalId(id) && verb != ""
    case Notification(verb, _) => verb != ""
    case Success(id, _) => CanonicalId(id)
    case Error(target, error) => (target.Some? ==> CanonicalId(target.value)) && error.data != Some(Null)
  }

  lemma IdRoundTrip(id: RequestId)
    ensures ParseId(IdValue(id)) == Ok(id) <==> CanonicalId(id)
    ensures ParseId(IdValue(id)).Ok? && !IdValue(id).Null?
  {
  }

  lemma ErrorRoundTrip(e: ErrorObject)
    ensures ParseErrorObject(ErrorValue(e)).Ok?
    ensures ParseErrorObject(ErrorValue(e)) == Ok(e) <==> e.data != Some(Null)
  {
    var fields := ErrorValue(e).fields;
    assert "code" in fields && "message" in fields && ("data" in fields <==> e.data.Some?);
  }

  /** Parsing undoes writing for exactly the well-formed messages. */
  lemma MessageRoundTrip(m: Message)
    ensures ParseValue(ToValue(m)) == Ok(m) <==> WellFormedMessage(m)
  {
    var fields := ToValue(m).fields;
    assert fields["jsonrpc"] == String("2.0");
    match m
    case Request(id, verb, params) =>
      IdRoundTrip(id);
      assert fields["method"] == String(verb) && fields["params"] == Object(params) && fields["id"] == IdValue(id);
    case Notification(verb, params) =>
      assert fields["method"] == String(verb) && fields["params"] == Object(params) && "id" !in fields;
    case Success(id, result) =>
      IdRoundTrip(id);
      assert fields["id"] == IdValue(id) && fields["result"] == result;
    case Error(target, error) =>
      if target.Some? { IdRoundTrip(target.value); }
      ErrorRoundTrip(error);
      assert fields["error"] == ErrorValue(error);
  }

  /** Everything the parser accepts can be written and parsed again to the same message, except the id `-0`. */
  lemma ParsedIsWellFormed(v: Value)
    ensures ParseValue(v).Ok? ==>
              (WellFormedMessage(ParseValue(v).value)
               <==> !("id" in v.fields && v.fields["id"] == Number(MinusZero)))
  {
    if ParseValue(v).Ok? {
      assert v.Object?;
      var f := v.fields;
      match ("method" in f, "result" in f, "error" in f)
      case (true, false, false) => assert ParseValue(v) == ParseCall(f);
      case (false, true, false) => assert ParseValue(v) == ParseSuccess(f);
      case (false, false, true) => assert ParseValue(v) == ParseError(f);
      case _ =>
    }
  }
}
