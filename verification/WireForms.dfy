// The JSON forms of messages, key by key and element by element: which JSON is which
// message, and what each message is written as (src/message.rs; sections 4 and 5 of the
// JSON-RPC 2.0 specification).
module WireForms {
  import opened Wrappers
  import opened Json
  import opened Message

  // ---- Objects as sets of fields ---------------------------------------------------

  predicate NoKeyTwice(fields: seq<Field>) {
    forall i, j | 0 <= i < j < |fields| :: fields[i].key != fields[j].key
  }

  /** The object has these keys at most, none of them twice. */
  predicate KeysIn(fields: seq<Field>, keys: set<string>) {
    NoKeyTwice(fields) && forall f | f in fields :: f.key in keys
  }

  /** An optional field: null is as good as absent. */
  predicate MayHave(fields: seq<Field>, key: string, value: Option<Json>) {
    match value
    case Some(v) => v != Null && Field(key, v) in fields
    case None => forall f | f in fields && f.key == key :: f.value == Null
  }

  predicate Lacks(fields: seq<Field>, key: string) {
    forall f | f in fields :: f.key != key
  }

  /** An element of an array in the place of an optional field. */
  predicate MayBe(element: Json, value: Option<Json>) {
    value == if element == Null then None else Some(element)
  }

  // ---- The forms -------------------------------------------------------------------

  predicate IsRequest(j: Json, name: string, params: Option<Json>, id: Json) {
    match j
    case Obj(fields) =>
      && KeysIn(fields, {"jsonrpc", "method", "params", "id"})
      && Field("jsonrpc", Str("2.0")) in fields && Field("method", Str(name)) in fields
      && MayHave(fields, "params", params) && Field("id", id) in fields
    case Arr(items) =>
      |items| == 4 && items[0] == Str("2.0") && items[1] == Str(name) && MayBe(items[2], params) && items[3] == id
    case _ => false
  }

  predicate IsNotification(j: Json, name: string, params: Option<Json>) {
    match j
    case Obj(fields) =>
      && KeysIn(fields, {"jsonrpc", "method", "params"})
      && Field("jsonrpc", Str("2.0")) in fields && Field("method", Str(name)) in fields
      && MayHave(fields, "params", params)
    case Arr(items) =>
      |items| == 3 && items[0] == Str("2.0") && items[1] == Str(name) && MayBe(items[2], params)
    case _ => false
  }

  predicate IsError(j: Json, e: RpcError) {
    match j
    case Obj(fields) =>
      && KeysIn(fields, {"code", "message", "data"})
      && Field("code", Num(e.code)) in fields && Field("message", Str(e.message)) in fields
      && MayHave(fields, "data", e.data)
    case Arr(items) =>
      |items| == 3 && items[0] == Num(e.code) && items[1] == Str(e.message) && MayBe(items[2], e.data)
    case _ => false
  }

  /** Exactly one of result and error. */
  predicate HasOutcome(fields: seq<Field>, result: Result<Json, RpcError>) {
    match result
    case Ok(value) => Field("result", value) in fields && MayHave(fields, "error", None)
    case Err(e) => Lacks(fields, "result") && exists f :: f in fields && f.key == "error" && IsError(f.value, e)
  }

  /** The result may be null, a null error is none.  As an array a response always has
      a result, and is a request if that is a string. */
  predicate IsResponse(j: Json, response: Response) {
    match j
    case Obj(fields) =>
      && KeysIn(fields, {"jsonrpc", "result", "error", "id"})
      && Field("jsonrpc", Str("2.0")) in fields && Field("id", response.id) in fields
      && HasOutcome(fields, response.result)
    case Arr(items) =>
      |items| == 4 && items[0] == Str("2.0") && !items[1].Str? && items[2] == Null
      && response == Response(Ok(items[1]), items[3])
    case _ => false
  }

  // ---- Looking up ------------------------------------------------------------------

  lemma {:induction false} OnlyMeans(fields: seq<Field>, keys: set<string>)
    ensures Only(fields, keys) <==> KeysIn(fields, keys)
  {
    if fields != [] {
      var rest := keys - {fields[0].key};
      OnlyMeans(fields[1..], rest);
      if KeysIn(fields, keys) {
        forall f | f in fields[1..] ensures f.key in rest {
          var i :| 0 <= i < |fields| - 1 && fields[1..][i] == f;
          assert fields[0].key != fields[i + 1].key;
        }
      }
      if KeysIn(fields[1..], rest) && fields[0].key in keys {
        forall i, j | 0 <= i < j < |fields| ensures fields[i].key != fields[j].key {
          assert fields[j] == fields[1..][j - 1] && fields[j] in fields[1..];
          if i > 0 {
            assert fields[i] == fields[1..][i - 1];
          }
        }
        forall f | f in fields ensures f.key in keys {
          assert f == fields[0] || f in fields[1..];
        }
      }
    }
  }

  lemma {:induction false} LookupMeans(fields: seq<Field>, key: string)
    requires NoKeyTwice(fields)
    ensures match Lookup(fields, key)
            case Some(v) => Field(key, v) in fields && forall f | f in fields && f.key == key :: f.value == v
            case None => Lacks(fields, key)
  {
    if fields != [] {
      if fields[0].key == key {
        assert fields[0] == Field(key, fields[0].value);
        forall f | f in fields && f.key == key ensures f == fields[0] {
          var i :| 0 <= i < |fields| && fields[i] == f;
        }
      } else {
        LookupMeans(fields[1..], key);
        assert fields == [fields[0]] + fields[1..];
      }
    }
  }

  lemma OptionalMeans(fields: seq<Field>, key: string, value: Option<Json>)
    requires NoKeyTwice(fields)
    ensures Optional(Lookup(fields, key)) == value <==> MayHave(fields, key, value)
  {
    LookupMeans(fields, key);
  }

  lemma RequiredMeans(fields: seq<Field>, key: string, value: Json)
    requires NoKeyTwice(fields)
    ensures Lookup(fields, key) == Some(value) <==> Field(key, value) in fields
  {
    LookupMeans(fields, key);
  }

  // ---- Which JSON is which message -------------------------------------------------

  lemma ReadsRequest(j: Json, name: string, params: Option<Json>, id: Json)
    ensures ReadRequest(j) == Some(Request(name, params, id)) <==> IsRequest(j, name, params, id)
  {
    if j.Obj? {
      OnlyMeans(j.fields, {"jsonrpc", "method", "params", "id"});
      if NoKeyTwice(j.fields) {
        RequiredMeans(j.fields, "jsonrpc", Str("2.0"));
        RequiredMeans(j.fields, "method", Str(name));
        OptionalMeans(j.fields, "params", params);
        RequiredMeans(j.fields, "id", id);
      }
    }
  }

  lemma ReadsNotification(j: Json, name: string, params: Option<Json>)
    ensures ReadNotification(j) == Some(Notification(name, params)) <==> IsNotification(j, name, params)
  {
    if j.Obj? {
      OnlyMeans(j.fields, {"jsonrpc", "method", "params"});
      if NoKeyTwice(j.fields) {
        RequiredMeans(j.fields, "jsonrpc", Str("2.0"));
        RequiredMeans(j.fields, "method", Str(name));
        OptionalMeans(j.fields, "params", params);
      }
    }
  }

  lemma ReadsError(j: Json, e: RpcError)
    ensures ReadError(j) == Some(e) <==> IsError(j, e)
  {
    if j.Obj? {
      OnlyMeans(j.fields, {"code", "message", "data"});
      if NoKeyTwice(j.fields) {
        RequiredMeans(j.fields, "code", Num(e.code));
        RequiredMeans(j.fields, "message", Str(e.message));
        OptionalMeans(j.fields, "data", e.data);
      }
    }
  }

  lemma ReadsOutcome(fields: seq<Field>, response: Response)
    requires NoKeyTwice(fields)
    ensures FromWire(Lookup(fields, "result"), Lookup(fields, "error"), response.id) == Some(response)
            <==> HasOutcome(fields, response.result)
  {
    LookupMeans(fields, "result");
    LookupMeans(fields, "error");
    match response.result
    case Ok(value) =>
      RequiredMeans(fields, "result", value);
      OptionalMeans(fields, "error", None);
    case Err(e) =>
      if Lookup(fields, "error").Some? {
        ReadsError(Lookup(fields, "error").value, e);
        assert Field("error", Lookup(fields, "error").value) in fields;
      }
  }

  lemma ReadsResponse(j: Json, response: Response)
    ensures (ReadResponse(j) == Some(response) && ReadRequest(j).None?) <==> IsResponse(j, response)
  {
    match j
    case Obj(fields) =>
      ObjectFormsExclude(fields);
      OnlyMeans(fields, {"jsonrpc", "result", "error", "id"});
      if NoKeyTwice(fields) {
        RequiredMeans(fields, "jsonrpc", Str("2.0"));
        RequiredMeans(fields, "id", response.id);
        ReadsOutcome(fields, response);
      }
    case _ =>
  }

  /** Which JSON is which request: an object with exactly these keys and the version
      "2.0", or the same as an array; null params are none. */
  lemma RequestForm(j: Json, name: string, params: Option<Json>, id: Json)
    ensures Classify(j) == RequestMsg(Request(name, params, id)) <==> IsRequest(j, name, params, id)
  {
    ReadsRequest(j, name, params, id);
  }

  lemma ResponseForm(j: Json, response: Response)
    ensures Classify(j) == ResponseMsg(response) <==> IsResponse(j, response)
  {
    ReadsResponse(j, response);
  }

  lemma NotificationForm(j: Json, name: string, params: Option<Json>)
    ensures Classify(j) == NotificationMsg(Notification(name, params)) <==> IsNotification(j, name, params)
  {
    ReadsNotification(j, name, params);
    if j.Obj? {
      ObjectFormsExclude(j.fields);
    }
  }

  // ---- Everything else -------------------------------------------------------------

  ghost predicate HasForm(j: Json) {
    || (exists name, params, id :: IsRequest(j, name, params, id))
    || (exists response :: IsResponse(j, response))
    || (exists name, params :: IsNotification(j, name, params))
  }

  lemma FormsAreMessages(j: Json)
    ensures HasForm(j) <==> (Classify(j).RequestMsg? || Classify(j).ResponseMsg? || Classify(j).NotificationMsg?)
  {
    match Classify(j)
    case RequestMsg(r) => RequestForm(j, r.rpcMethod, r.params, r.id);
    case ResponseMsg(r) => ResponseForm(j, r);
    case NotificationMsg(n) => NotificationForm(j, n.rpcMethod, n.params);
    case _ =>
      forall name, params, id ensures !IsRequest(j, name, params, id) {
        RequestForm(j, name, params, id);
      }
      forall response ensures !IsResponse(j, response) {
        ResponseForm(j, response);
      }
      forall name, params ensures !IsNotification(j, name, params) {
        NotificationForm(j, name, params);
      }
  }

  lemma {:induction false} ClassifiedEach(items: seq<Json>, i: nat)
    requires i < |items|
    ensures ClassifyAll(items)[i] == Classify(items[i])
  {
    if i > 0 {
      ClassifiedEach(items[1..], i - 1);
    }
  }

  /** Everything else: an array is the batch of what its elements are, and other JSON is
      no message, which inside a batch is kept and at the top is an error. */
  lemma OtherForms(j: Json)
    ensures Parse(j).Ok? <==> HasForm(j) || j.Arr?
    ensures if Parse(j).Ok? then Parse(j) == Ok(Classify(j)) else Parse(j) == Err(Unmatched(j))
    ensures !HasForm(j) && j.Arr? ==>
              && Classify(j).Batch? && |Classify(j).messages| == |j.items|
              && forall i | 0 <= i < |j.items| :: Classify(j).messages[i] == Classify(j.items[i])
    ensures !HasForm(j) && !j.Arr? ==> Classify(j) == UnmatchedSub(j)
  {
    FormsAreMessages(j);
    if !HasForm(j) && j.Arr? {
      forall i | 0 <= i < |j.items| ensures Classify(j).messages[i] == Classify(j.items[i]) {
        ClassifiedEach(j.items, i);
      }
    }
  }

  // ---- What messages are written as ------------------------------------------------

  // The fields are written in this order, absent ones not at all.

  lemma WrittenRequest(name: string, p: Json, id: Json)
    ensures ToJson(RequestMsg(Request(name, None, id)))
         == Some(Obj([Field("jsonrpc", Str("2.0")), Field("method", Str(name)), Field("id", id)]))
    ensures ToJson(RequestMsg(Request(name, Some(p), id)))
         == Some(Obj([Field("jsonrpc", Str("2.0")), Field("method", Str(name)), Field("params", p), Field("id", id)]))
  {
    var head := [Field("jsonrpc", Str("2.0")), Field("method", Str(name))];
    assert head + [] + [Field("id", id)] == [head[0], head[1], Field("id", id)];
    assert head + [Field("params", p)] + [Field("id", id)] == [head[0], head[1], Field("params", p), Field("id", id)];
  }

  lemma WrittenNotification(name: string, p: Json)
    ensures ToJson(NotificationMsg(Notification(name, None)))
         == Some(Obj([Field("jsonrpc", Str("2.0")), Field("method", Str(name))]))
    ensures ToJson(NotificationMsg(Notification(name, Some(p))))
         == Some(Obj([Field("jsonrpc", Str("2.0")), Field("method", Str(name)), Field("params", p)]))
  {
    var head := [Field("jsonrpc", Str("2.0")), Field("method", Str(name))];
    assert head + [] == head;
    assert head + [Field("params", p)] == [head[0], head[1], Field("params", p)];
  }

  lemma WrittenError(code: I64, text: string, p: Json)
    ensures ErrorToJson(RpcError(code, text, None)) == Obj([Field("code", Num(code)), Field("message", Str(text))])
    ensures ErrorToJson(RpcError(code, text, Some(p)))
         == Obj([Field("code", Num(code)), Field("message", Str(text)), Field("data", p)])
  {
    var head := [Field("code", Num(code)), Field("message", Str(text))];
    assert head + [] == head;
    assert head + [Field("data", p)] == [head[0], head[1], Field("data", p)];
  }

  lemma WrittenResponse(value: Json, id: Json, code: I64, text: string, p: Json)
    ensures ToJson(ResponseMsg(Response(Ok(value), id)))
         == Some(Obj([Field("jsonrpc", Str("2.0")), Field("result", value), Field("id", id)]))
    ensures ToJson(ResponseMsg(Response(Err(RpcError(code, text, None)), id)))
         == Some(Obj([Field("jsonrpc", Str("2.0")),
                      Field("error", Obj([Field("code", Num(code)), Field("message", Str(text))])),
                      Field("id", id)]))
    ensures ToJson(ResponseMsg(Response(Err(RpcError(code, text, Some(p))), id)))
         == Some(Obj([Field("jsonrpc", Str("2.0")),
                      Field("error", Obj([Field("code", Num(code)), Field("message", Str(text)), Field("data", p)])),
                      Field("id", id)]))
  {
    WrittenError(code, text, p);
  }

  /** A batch is written as the array of what its members are written as. */
  lemma {:induction false} WrittenBatch(ms: seq<Message>, items: seq<Json>)
    ensures ToJson(Batch(ms)) == Some(Arr(items))
            <==> |items| == |ms| && forall i | 0 <= i < |ms| :: ToJson(ms[i]) == Some(items[i])
  {
    if ms != [] {
      if items != [] {
        WrittenBatch(ms[1..], items[1..]);
        assert items == [items[0]] + items[1..];
        assert forall i | 0 < i < |ms| :: ms[i] == ms[1..][i - 1];
        assert forall i | 0 < i < |items| :: items[i] == items[1..][i - 1];
        assert forall i | 0 <= i < |ms| - 1 :: ms[1..][i] == ms[i + 1];
        assert forall i | 0 <= i < |items| - 1 :: items[1..][i] == items[i + 1];
      }
    }
  }
}
