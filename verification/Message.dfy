// The JSON-RPC 2.0 messages, the classifier that reads them from a JSON value
// and the serializer that writes them (src/message.rs).
//
// Every message carries the version "2.0", so the unit type `Version` of the
// source has no field here; it is checked when reading and written back.
module Message {
  import opened Wrappers
  import opened Json

  const VERSION: Json := Str("2.0")

  datatype RpcError = RpcError(code: I64, message: string, data: Option<Json>)

  datatype Request = Request(rpcMethod: string, params: Option<Json>, id: Json)

  datatype Response = Response(result: Result<Json, RpcError>, id: Json)

  datatype Notification = Notification(rpcMethod: string, params: Option<Json>)

  datatype Message =
    | RequestMsg(request: Request)
    | ResponseMsg(response: Response)
    | NotificationMsg(notification: Notification)
    | Batch(messages: seq<Message>)
    | UnmatchedSub(value: Json)

  datatype Broken = Unmatched(value: Json) | SyntaxError(text: string)

  type Parsed = Result<Message, Broken>

  // ---- Answers -----------------------------------------------------------

  function ReplyTo(request: Request, value: Json): Message {
    ResponseMsg(Response(Ok(value), request.id))
  }

  function ErrorTo(request: Request, error: RpcError): Message {
    ResponseMsg(Response(Err(error), request.id))
  }

  function InvalidRequest(): RpcError {
    RpcError(-32600, "Invalid request", None)
  }

  function ParseError(text: string): RpcError {
    RpcError(-32700, "Parse error", Some(Str(text)))
  }

  function MethodNotFound(name: string): RpcError {
    RpcError(-32601, "Method not found", Some(Str(name)))
  }

  /** The answer to something that is not a message; its id is null. */
  function BrokenReply(broken: Broken): Message {
    ResponseMsg(Response(
      Err(match broken
          case Unmatched(_) => InvalidRequest()
          case SyntaxError(text) => ParseError(text)),
      Null))
  }

  // ---- Reading -----------------------------------------------------------

  /** `Option<Value>` fields read null as absent. */
  function Optional(value: Option<Json>): Option<Json> {
    if value == Some(Null) then None else value
  }

  // Each reader takes an object with exactly the known fields, or the fields
  // in declaration order as an array: what a derived Deserialize accepts.

  function ReadRequest(j: Json): Option<Request> {
    match j
    case Obj(fields) =>
      var name := Lookup(fields, "method");
      var id := Lookup(fields, "id");
      if Only(fields, {"jsonrpc", "method", "params", "id"}) && Lookup(fields, "jsonrpc") == Some(VERSION)
         && name.Some? && name.value.Str? && id.Some?
      then Some(Request(name.value.s, Optional(Lookup(fields, "params")), id.value))
      else None
    case Arr(items) =>
      if |items| == 4 && items[0] == VERSION && items[1].Str?
      then Some(Request(items[1].s, Optional(Some(items[2])), items[3]))
      else None
    case _ => None
  }

  function ReadError(j: Json): Option<RpcError> {
    match j
    case Obj(fields) =>
      var code := Lookup(fields, "code");
      var text := Lookup(fields, "message");
      if Only(fields, {"code", "message", "data"})
         && code.Some? && IsI64(code.value) && text.Some? && text.value.Str?
      then Some(RpcError(code.value.n, text.value.s, Optional(Lookup(fields, "data"))))
      else None
    case Arr(items) =>
      if |items| == 3 && IsI64(items[0]) && items[1].Str?
      then Some(RpcError(items[0].n, items[1].s, Optional(Some(items[2]))))
      else None
    case _ => None
  }

  predicate IsI64(j: Json) {
    j.Num? && j.n < 0x8000_0000_0000_0000
  }

  /** Exactly one of result and error; a null result is a result, a null error is none. */
  function FromWire(result: Option<Json>, error: Option<Json>, id: Json): Option<Response> {
    match Optional(error)
    case None => if result.Some? then Some(Response(Ok(result.value), id)) else None
    case Some(e) =>
      var read := ReadError(e);
      if read.Some? && result.None? then Some(Response(Err(read.value), id)) else None
  }

  function ReadResponse(j: Json): Option<Response> {
    match j
    case Obj(fields) =>
      var id := Lookup(fields, "id");
      if Only(fields, {"jsonrpc", "result", "error", "id"}) && Lookup(fields, "jsonrpc") == Some(VERSION) && id.Some?
      then FromWire(Lookup(fields, "result"), Lookup(fields, "error"), id.value)
      else None
    case Arr(items) =>
      if |items| == 4 && items[0] == VERSION
      then FromWire(Some(items[1]), Some(items[2]), items[3])
      else None
    case _ => None
  }

  function ReadNotification(j: Json): Option<Notification> {
    match j
    case Obj(fields) =>
      var name := Lookup(fields, "method");
      if Only(fields, {"jsonrpc", "method", "params"}) && Lookup(fields, "jsonrpc") == Some(VERSION)
         && name.Some? && name.value.Str?
      then Some(Notification(name.value.s, Optional(Lookup(fields, "params"))))
      else None
    case Arr(items) =>
      if |items| == 3 && items[0] == VERSION && items[1].Str?
      then Some(Notification(items[1].s, Optional(Some(items[2]))))
      else None
    case _ => None
  }

  /** The untagged match: the first form that fits, in declaration order. */
  function Classify(j: Json): Message {
    if ReadRequest(j).Some? then RequestMsg(ReadRequest(j).value)
    else if ReadResponse(j).Some? then ResponseMsg(ReadResponse(j).value)
    else if ReadNotification(j).Some? then NotificationMsg(ReadNotification(j).value)
    else match j
      case Arr(items) => Batch(ClassifyAll(items))
      case _ => UnmatchedSub(j)
  }

  function ClassifyAll(items: seq<Json>): (ms: seq<Message>)
    ensures |ms| == |items|
  {
    if items == [] then [] else [Classify(items[0])] + ClassifyAll(items[1..])
  }

  /** A top-level mismatch is an error, not a message. */
  function Parse(j: Json): Parsed {
    match Classify(j)
    case UnmatchedSub(value) => Err(Unmatched(value))
    case m => Ok(m)
  }

  // ---- Writing -----------------------------------------------------------

  function OptionalField(key: string, value: Option<Json>): seq<Field> {
    match value
    case None => []
    case Some(v) => [Field(key, v)]
  }

  function ErrorToJson(e: RpcError): Json {
    Obj([Field("code", Num(e.code)), Field("message", Str(e.message))] + OptionalField("data", e.data))
  }

  function ResultField(result: Result<Json, RpcError>): Field {
    match result
    case Ok(value) => Field("result", value)
    case Err(e) => Field("error", ErrorToJson(e))
  }

  /** None when the message cannot be serialized. */
  function ToJson(m: Message): Option<Json> {
    match m
    case RequestMsg(r) =>
      Some(Obj([Field("jsonrpc", VERSION), Field("method", Str(r.rpcMethod))]
               + OptionalField("params", r.params) + [Field("id", r.id)]))
    case ResponseMsg(r) =>
      Some(Obj([Field("jsonrpc", VERSION), ResultField(r.result), Field("id", r.id)]))
    case NotificationMsg(n) =>
      Some(Obj([Field("jsonrpc", VERSION), Field("method", Str(n.rpcMethod))] + OptionalField("params", n.params)))
    case Batch(ms) =>
      var items := AllToJson(ms);
      if items.Some? then Some(Arr(items.value)) else None
    case UnmatchedSub(_) => None
  }

  function AllToJson(ms: seq<Message>): Option<seq<Json>> {
    if ms == [] then Some([])
    else
      var first := ToJson(ms[0]);
      var rest := AllToJson(ms[1..]);
      if first.Some? && rest.Some? then Some([first.value] + rest.value) else None
  }

  // ---- Round trip --------------------------------------------------------

  /** No unmatched part at any depth. */
  predicate Serializable(m: Message) {
    match m
    case Batch(ms) => forall i | 0 <= i < |ms| :: Serializable(ms[i])
    case UnmatchedSub(_) => false
    case _ => true
  }

  /** What survives a trip over the wire: `Some(null)` becomes absent. */
  function Normalize(m: Message): Message {
    match m
    case RequestMsg(r) => RequestMsg(r.(params := Optional(r.params)))
    case ResponseMsg(r) =>
      (match r.result
       case Ok(_) => m
       case Err(e) => ResponseMsg(r.(result := Err(e.(data := Optional(e.data))))))
    case NotificationMsg(n) => NotificationMsg(n.(params := Optional(n.params)))
    case Batch(ms) => Batch(NormalizeAll(ms))
    case UnmatchedSub(_) => m
  }

  function NormalizeAll(ms: seq<Message>): (ns: seq<Message>)
    ensures |ns| == |ms|
    ensures forall i | 0 <= i < |ms| :: ns[i] == Normalize(ms[i])
  {
    if ms == [] then [] else [Normalize(ms[0])] + NormalizeAll(ms[1..])
  }

  /** Reading back an object that was written with distinct keys. */
  lemma {:induction false} LookupAt(fields: seq<Field>, i: nat)
    requires i < |fields|
    requires forall j, k | 0 <= j < k < |fields| :: fields[j].key != fields[k].key
    ensures Lookup(fields, fields[i].key) == Some(fields[i].value)
  {
    if i > 0 {
      assert fields[0].key != fields[i].key;
      LookupAt(fields[1..], i - 1);
    }
  }

  lemma {:induction false} OnlyKnown(fields: seq<Field>, keys: set<string>)
    requires forall j, k | 0 <= j < k < |fields| :: fields[j].key != fields[k].key
    requires forall i | 0 <= i < |fields| :: fields[i].key in keys
    ensures Only(fields, keys)
  {
    if fields != [] {
      OnlyKnown(fields[1..], keys - {fields[0].key});
    }
  }

  lemma {:induction false} LookupNothing(fields: seq<Field>, key: string)
    requires forall i | 0 <= i < |fields| :: fields[i].key != key
    ensures Lookup(fields, key) == None
  {
    if fields != [] {
      LookupNothing(fields[1..], key);
    }
  }

  lemma RequestRoundTrip(r: Request)
    ensures Classify(ToJson(RequestMsg(r)).value) == Normalize(RequestMsg(r))
  {
    var fields := ToJson(RequestMsg(r)).value.fields;
    OnlyKnown(fields, {"jsonrpc", "method", "params", "id"});
    LookupAt(fields, 0);
    LookupAt(fields, 1);
    LookupAt(fields, |fields| - 1);
    if r.params.Some? {
      LookupAt(fields, 2);
    } else {
      LookupNothing(fields, "params");
    }
  }

  lemma ErrorRoundTrip(e: RpcError)
    ensures ReadError(ErrorToJson(e)) == Some(e.(data := Optional(e.data)))
  {
    var fields := ErrorToJson(e).fields;
    OnlyKnown(fields, {"code", "message", "data"});
    LookupAt(fields, 0);
    LookupAt(fields, 1);
    if e.data.Some? {
      LookupAt(fields, 2);
    } else {
      LookupNothing(fields, "data");
    }
  }

  lemma ResponseRoundTrip(r: Response)
    ensures Classify(ToJson(ResponseMsg(r)).value) == Normalize(ResponseMsg(r))
  {
    var fields := ToJson(ResponseMsg(r)).value.fields;
    OnlyKnown(fields, {"jsonrpc", "result", "error", "id"});
    LookupAt(fields, 0);
    LookupAt(fields, 1);
    LookupAt(fields, 2);
    LookupNothing(fields, "method");
    match r.result
    case Ok(_) => LookupNothing(fields, "error");
    case Err(e) => LookupNothing(fields, "result"); ErrorRoundTrip(e);
  }

  lemma NotificationRoundTrip(n: Notification)
    ensures Classify(ToJson(NotificationMsg(n)).value) == Normalize(NotificationMsg(n))
  {
    var fields := ToJson(NotificationMsg(n)).value.fields;
    OnlyKnown(fields, {"jsonrpc", "method", "params"});
    LookupAt(fields, 0);
    LookupAt(fields, 1);
    LookupNothing(fields, "id");
    if n.params.Some? {
      LookupAt(fields, 2);
    } else {
      LookupNothing(fields, "params");
    }
  }

  /** Serializing succeeds exactly when nothing unmatched occurs at any depth,
      and classifying the result gives the normalized message back. */
  lemma {:induction false} RoundTrip(m: Message)
    ensures ToJson(m).Some? <==> Serializable(m)
    ensures Serializable(m) ==> Classify(ToJson(m).value) == Normalize(m)
    decreases m, 1
  {
    match m
    case RequestMsg(r) => RequestRoundTrip(r);
    case ResponseMsg(r) => ResponseRoundTrip(r);
    case NotificationMsg(n) => NotificationRoundTrip(n);
    case Batch(ms) => RoundTripAll(ms);
    case UnmatchedSub(_) =>
  }

  lemma {:induction false} RoundTripAll(ms: seq<Message>)
    ensures AllToJson(ms).Some? <==> forall i | 0 <= i < |ms| :: Serializable(ms[i])
    ensures AllToJson(ms).Some? ==>
              && |AllToJson(ms).value| == |ms|
              && ClassifyAll(AllToJson(ms).value) == NormalizeAll(ms)
              && forall j | j in AllToJson(ms).value :: !j.Str?
    decreases ms, 0
  {
    if ms != [] {
      RoundTrip(ms[0]);
      RoundTripAll(ms[1..]);
      assert forall i | 0 <= i < |ms| :: ms[i] == if i == 0 then ms[0] else ms[1..][i - 1];
    }
  }

  /** Whatever was classified is already normalized. */
  lemma {:induction false} ClassifiedIsNormal(j: Json)
    ensures Normalize(Classify(j)) == Classify(j)
    decreases j, 1
  {
    if ReadRequest(j).None? && ReadResponse(j).None? && ReadNotification(j).None? && j.Arr? {
      AllClassifiedAreNormal(j.items);
    }
  }

  lemma {:induction false} AllClassifiedAreNormal(items: seq<Json>)
    ensures NormalizeAll(ClassifyAll(items)) == ClassifyAll(items)
    decreases items, 0
  {
    if items != [] {
      ClassifiedIsNormal(items[0]);
      AllClassifiedAreNormal(items[1..]);
    }
  }

  /** Parsing, serializing and parsing again is the same as parsing once,
      on every JSON value that parses with no unmatched part. */
  lemma Reparse(j: Json)
    ensures Parse(j).Ok? && Serializable(Parse(j).value) ==>
              ToJson(Parse(j).value).Some? && Parse(ToJson(Parse(j).value).value) == Parse(j)
  {
    RoundTrip(Classify(j));
    ClassifiedIsNormal(j);
  }

  // ---- The order of the untagged match ------------------------------------

  /** On objects the three forms exclude each other, so the order does not matter. */
  lemma ObjectFormsExclude(fields: seq<Field>)
    ensures !(ReadRequest(Obj(fields)).Some? && ReadResponse(Obj(fields)).Some?)
    ensures !(ReadRequest(Obj(fields)).Some? && ReadNotification(Obj(fields)).Some?)
    ensures !(ReadResponse(Obj(fields)).Some? && ReadNotification(Obj(fields)).Some?)
  {
    if Only(fields, {"jsonrpc", "result", "error", "id"}) {
      LookupOutside(fields, {"jsonrpc", "result", "error", "id"}, "method");
    }
    if Only(fields, {"jsonrpc", "method", "params"}) {
      LookupOutside(fields, {"jsonrpc", "method", "params"}, "id");
    }
  }
}
