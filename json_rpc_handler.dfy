/**
 * The JSON-RPC 2.0 dispatcher: validates single requests and batches, routes
 * each request by its method name through a dispatch table, and turns every
 * failure into a JSON-RPC error object (section 5.1 of the JSON-RPC 2.0
 * specification for the codes, section 6 for batches).
 */
module JsonRpcHandler {
  import opened JsValues
  import ToolService

  /** How a method handler completes: it returns a result or throws an error with a message. */
  datatype HandlerOutcome<R> = Done(result: R) | Failed(message: string)

  /** A method handler, given the request's `params`. */
  type Handler<R> = Json -> HandlerOutcome<R>

  /** `{jsonrpc: "2.0", id, result}` or `{jsonrpc: "2.0", id, error: {code, message, data}}`. */
  datatype RpcResponse<R> =
    | RpcResult(id: Json, result: R)
    | RpcError(id: Json, code: int, message: string, data: Json)

  /** What `handleRequest` returns: `null`, one response, or an array of responses. */
  datatype Reply<R> = NoContent | Single(response: RpcResponse<R>) | Batch(responses: seq<RpcResponse<R>>)

  const InvalidRequest: int := -32600
  const MethodNotFound: int := -32601
  const InternalError: int := -32603

  const InvalidRequestMessage: string := "Invalid Request"
  const InternalErrorMessage: string := "Internal error"

  function MethodNotFoundMessage(m: string): string {
    "Method '" + m + "' not found."
  }

  /** The -32600 error for an envelope rejected before dispatch. */
  function InvalidRequestError<R>(id: Json, detail: string): RpcResponse<R> {
    RpcError(id, InvalidRequest, InvalidRequestMessage, JStr(detail))
  }

  /** The version check: `jsonrpc` is exactly the string "2.0". */
  predicate VersionOk(request: map<string, Json>) {
    Get(request, "jsonrpc") == JStr("2.0")
  }

  /** The request has an own `id` key whose value is not `undefined`. */
  predicate ExpectsReply(request: map<string, Json>) {
    "id" in request && request["id"] != JUndefined
  }

  /** `params || {}` */
  function HandlerInput(params: Json): (p: Json)
    ensures Truthy(params) ==> p == params
    ensures !Truthy(params) ==> p == JObj(map[])
  {
    if Truthy(params) then params else JObj(map[])
  }

  /**
   * The request passes every check before dispatch, under the table's own keys.
   * A plain object's property read would also find inherited names; see
   * `FoundAsWritten` below.
   */
  predicate Dispatches<R>(dispatch: map<string, Handler<R>>, request: map<string, Json>) {
    VersionOk(request) && Get(request, "method").JStr? && Get(request, "method").s in dispatch
  }

  /** The handler's outcome, for a request that passes the checks. */
  function Outcome<R>(dispatch: map<string, Handler<R>>, request: map<string, Json>): HandlerOutcome<R>
    requires Dispatches(dispatch, request)
  {
    dispatch[Get(request, "method").s](HandlerInput(Get(request, "params")))
  }

  /** `#handleSingleRequest(request)`: a response, or None (`null`). */
  function HandleSingle<R>(dispatch: map<string, Handler<R>>, production: bool, request: map<string, Json>): (r: Option<RpcResponse<R>>)
    // Every response echoes `id ?? null`.
    ensures r.Some? ==> r.value.id == Coalesce(Get(request, "id"), JNull)
    // Only a notification whose handler returned gets no response.
    ensures r.None? <==> Dispatches(dispatch, request) && Outcome(dispatch, request).Done? && !ExpectsReply(request)
    // The checks, in order.
    ensures !VersionOk(request) ==>
      r == Some(InvalidRequestError(Coalesce(Get(request, "id"), JNull), "Invalid JSON-RPC version."))
    ensures VersionOk(request) && !Get(request, "method").JStr? ==>
      r == Some(InvalidRequestError(Coalesce(Get(request, "id"), JNull), "Method must be a string."))
    ensures VersionOk(request) && Get(request, "method").JStr? && Get(request, "method").s !in dispatch ==>
      r == Some(RpcError(Coalesce(Get(request, "id"), JNull), MethodNotFound, MethodNotFoundMessage(Get(request, "method").s), JNull))
    // After dispatch.
    ensures Dispatches(dispatch, request) && Outcome(dispatch, request).Done? && ExpectsReply(request) ==>
      r == Some(RpcResult(request["id"], Outcome(dispatch, request).result))
    ensures Dispatches(dispatch, request) && Outcome(dispatch, request).Failed? ==>
      r == Some(RpcError(Coalesce(Get(request, "id"), JNull), InternalError, InternalErrorMessage,
                         if production then JNull else JStr(Outcome(dispatch, request).message)))
  {
    var id := Get(request, "id");
    var name := Get(request, "method");
    if !VersionOk(request) then
      Some(InvalidRequestError(Coalesce(id, JNull), "Invalid JSON-RPC version."))
    else if !name.JStr? then
      Some(InvalidRequestError(Coalesce(id, JNull), "Method must be a string."))
    else if name.s !in dispatch then
      Some(RpcError(Coalesce(id, JNull), MethodNotFound, MethodNotFoundMessage(name.s), JNull))
    else
      match dispatch[name.s](HandlerInput(Get(request, "params")))
      case Done(result) =>
        if ExpectsReply(request) then Some(RpcResult(id, result)) else None
      case Failed(message) =>
        Some(RpcError(Coalesce(id, JNull), InternalError, InternalErrorMessage, if production then JNull else JStr(message)))
  }

  /**
   * A request rejected before dispatch gets the same answer from any table with
   * the same method names: no handler runs.
   */
  lemma HandlerNotReached<R>(d1: map<string, Handler<R>>, d2: map<string, Handler<R>>, production: bool, request: map<string, Json>)
    requires d1.Keys == d2.Keys
    requires !Dispatches(d1, request)
    ensures HandleSingle(d1, production, request) == HandleSingle(d2, production, request)
  {
  }

  /** A response carries the request's `id`, even `null`, `0` or `""`; only its absence makes a notification. */
  lemma FalsyIdsAreEchoed<R>(dispatch: map<string, Handler<R>>, production: bool, request: map<string, Json>)
    requires Dispatches(dispatch, request) && Outcome(dispatch, request).Done?
    requires "id" in request && request["id"] in {JNull, JNum(0.0), JStr("")}
    ensures HandleSingle(dispatch, production, request) == Some(RpcResult(request["id"], Outcome(dispatch, request).result))
  {
  }

  /** The error for a batch entry that is not an object. */
  function EntryError<R>(): RpcResponse<R> {
    InvalidRequestError(JNull, "Batch entries must be objects.")
  }

  /** One batch entry: objects are handled as single requests, anything else is rejected on its own. */
  function HandleEntry<R>(dispatch: map<string, Handler<R>>, production: bool, entry: Json): (r: Option<RpcResponse<R>>)
    ensures !entry.JObj? ==> r == Some(EntryError())
    ensures entry.JObj? ==> r == HandleSingle(dispatch, production, entry.fields)
  {
    if entry.JObj? then HandleSingle(dispatch, production, entry.fields) else Some(EntryError())
  }

  /** `body.map(entry => …)`, one possible response per entry, in order. */
  function HandleEntries<R>(dispatch: map<string, Handler<R>>, production: bool, entries: seq<Json>): (rs: seq<Option<RpcResponse<R>>>)
    ensures |rs| == |entries|
    ensures forall i :: 0 <= i < |entries| ==> rs[i] == HandleEntry(dispatch, production, entries[i])
  {
    if entries == [] then [] else [HandleEntry(dispatch, production, entries[0])] + HandleEntries(dispatch, production, entries[1..])
  }

  /** `responses.filter(r => r !== null)`: the present responses, in order. */
  function Present<T>(rs: seq<Option<T>>): (out: seq<T>)
    ensures |out| <= |rs|
    ensures out == [] <==> forall i :: 0 <= i < |rs| ==> rs[i].None?
  {
    if rs == [] then []
    else if rs[0].None? then (assert rs == [rs[0]] + rs[1..]; Present(rs[1..]))
    else (assert rs == [rs[0]] + rs[1..]; [rs[0].value] + Present(rs[1..]))
  }

  /** Filtering distributes over concatenation: the responses keep the entries' order. */
  lemma {:induction false} PresentAppend<T>(a: seq<Option<T>>, b: seq<Option<T>>)
    ensures Present(a + b) == Present(a) + Present(b)
    decreases |a|
  {
    if a == [] {
      assert a + b == b;
    } else {
      assert (a + b)[1..] == a[1..] + b;
      PresentAppend(a[1..], b);
    }
  }

  const EmptyBatchDetail: string := "Batch request cannot be empty."
  const NotObjectDetail: string := "Request body must be a JSON object or array."

  /** `handleRequest(body)` */
  function HandleRequest<R>(dispatch: map<string, Handler<R>>, production: bool, body: Json): (r: Reply<R>)
    ensures body == JArr([]) ==> r == Single(InvalidRequestError(JNull, EmptyBatchDetail))
    ensures body.JArr? && body.items != [] ==>
      && (r.NoContent? <==> forall i :: 0 <= i < |body.items| ==> HandleEntry(dispatch, production, body.items[i]).None?)
      && (!r.NoContent? ==> r == Batch(Present(HandleEntries(dispatch, production, body.items))))
    ensures !body.JArr? && !body.JObj? ==> r == Single(InvalidRequestError(JNull, NotObjectDetail))
    ensures body.JObj? && HandleSingle(dispatch, production, body.fields).None? ==> r.NoContent?
    ensures body.JObj? && HandleSingle(dispatch, production, body.fields).Some? ==>
      r == Single(HandleSingle(dispatch, production, body.fields).value)
    ensures r.Batch? ==> body.JArr? && 0 < |r.responses| <= |body.items|
  {
    if body.JArr? then
      if body.items == [] then Single(InvalidRequestError(JNull, EmptyBatchDetail))
      else
        var responses := Present(HandleEntries(dispatch, production, body.items));
        if |responses| > 0 then Batch(responses) else NoContent
    else if !Truthy(body) || !body.JObj? then
      Single(InvalidRequestError(JNull, NotObjectDetail))
    else
      match HandleSingle(dispatch, production, body.fields)
      case None => NoContent
      case Some(response) => Single(response)
  }

  /** A one-entry batch answers as the single request would, wrapped in an array. */
  lemma SingletonBatch<R>(dispatch: map<string, Handler<R>>, production: bool, entry: Json)
    requires entry.JObj?
    ensures HandleRequest(dispatch, production, JArr([entry])) ==
      match HandleSingle(dispatch, production, entry.fields)
      case None => NoContent
      case Some(response) => Batch([response])
  {
    assert HandleEntries(dispatch, production, [entry]) == [HandleSingle(dispatch, production, entry.fields)];
  }

  /**
   * Adding entries to a batch leaves the responses of the earlier entries
   * untouched and appends those of the new ones.
   */
  lemma BatchExtends<R>(dispatch: map<string, Handler<R>>, production: bool, a: seq<Json>, b: seq<Json>)
    ensures Present(HandleEntries(dispatch, production, a + b)) ==
      Present(HandleEntries(dispatch, production, a)) + Present(HandleEntries(dispatch, production, b))
  {
    var ra, rb, rab := HandleEntries(dispatch, production, a), HandleEntries(dispatch, production, b), HandleEntries(dispatch, production, a + b);
    forall i | 0 <= i < |rab|
      ensures rab[i] == (ra + rb)[i]
    {
      if i < |a| {
        assert (a + b)[i] == a[i];
      } else {
        assert (a + b)[i] == b[i - |a|];
      }
    }
    assert rab == ra + rb;
    PresentAppend(HandleEntries(dispatch, production, a), HandleEntries(dispatch, production, b));
  }

  // ---------------------------------------------------------------------------
  // The dispatch table of the application.

  /** The constructor's table: `tools/call` is served by the tool service, which never throws. */
  function DispatchTable(svc: ToolService.Service): (d: map<string, Handler<ToolService.ToolCallResult>>)
    ensures d.Keys == {"tools/call"}
    ensures forall p :: d["tools/call"](p) == Done(ToolService.CallTool(svc, p))
  {
    map["tools/call" := (p: Json) => Done(ToolService.CallTool(svc, p))]
  }

  /** No response in `rs` is an internal error. */
  predicate NoInternalError<R>(rs: seq<RpcResponse<R>>) {
    forall i :: 0 <= i < |rs| ==> !(rs[i].RpcError? && rs[i].code == InternalError)
  }

  /** Filtering keeps no response that was not there. */
  lemma {:induction false} PresentNoInternalError<R>(rs: seq<Option<RpcResponse<R>>>)
    requires forall j :: 0 <= j < |rs| && rs[j].Some? ==> NoInternalError([rs[j].value])
    ensures NoInternalError(Present(rs))
  {
    if rs != [] {
      PresentNoInternalError(rs[1..]);
      if rs[0].Some? {
        assert Present(rs) == [rs[0].value] + Present(rs[1..]);
        assert NoInternalError([rs[0].value]);
      }
    }
  }

  /** The tool service never throws, so no single request gets a -32603 error. */
  lemma SingleNeverInternalError(svc: ToolService.Service, request: map<string, Json>)
    ensures var r := HandleSingle(DispatchTable(svc), svc.production, request);
      r.Some? ==> NoInternalError([r.value])
  {
    var d := DispatchTable(svc);
    if Dispatches(d, request) {
      assert Outcome(d, request).Done?;
    }
  }

  /**
   * With `tools/call` as the only method, a -32603 error never occurs: every
   * tool failure is reported inside a successful result.
   */
  lemma NeverInternalError(svc: ToolService.Service, body: Json)
    ensures var r := HandleRequest(DispatchTable(svc), svc.production, body);
      && (r.Single? ==> NoInternalError([r.response]))
      && (r.Batch? ==> NoInternalError(r.responses))
  {
    var d := DispatchTable(svc);
    if body.JObj? {
      SingleNeverInternalError(svc, body.fields);
    } else if body.JArr? && body.items != [] {
      var rs := HandleEntries(d, svc.production, body.items);
      forall j | 0 <= j < |rs| && rs[j].Some?
        ensures NoInternalError([rs[j].value])
      {
        if body.items[j].JObj? {
          SingleNeverInternalError(svc, body.items[j].fields);
        }
      }
      PresentNoInternalError(rs);
    }
  }

  /**
   * A mixed batch: a request that succeeds, a request for an unknown method and
   * a notification that succeeds give exactly two responses, the result and the
   * -32601 error, in the order of the requests.
   */
  lemma MixedBatch<R>(d: map<string, Handler<R>>, production: bool, call: map<string, Json>, unknown: map<string, Json>, notify: map<string, Json>)
    requires Dispatches(d, call) && Outcome(d, call).Done? && ExpectsReply(call)
    requires VersionOk(unknown) && Get(unknown, "method").JStr? && Get(unknown, "method").s !in d
    requires Dispatches(d, notify) && Outcome(d, notify).Done? && !ExpectsReply(notify)
    ensures HandleRequest(d, production, JArr([JObj(call), JObj(unknown), JObj(notify)])) ==
      Batch([RpcResult(call["id"], Outcome(d, call).result),
             RpcError(Coalesce(Get(unknown, "id"), JNull), MethodNotFound, MethodNotFoundMessage(Get(unknown, "method").s), JNull)])
  {
    var r0 := RpcResult(call["id"], Outcome(d, call).result);
    var r1 := RpcError(Coalesce(Get(unknown, "id"), JNull), MethodNotFound, MethodNotFoundMessage(Get(unknown, "method").s), JNull);
    var rs := HandleEntries(d, production, [JObj(call), JObj(unknown), JObj(notify)]);
    assert rs == [Some(r0), Some(r1), None];
    assert Present(rs) == [r0, r1] by {
      assert rs[1..] == [Some(r1), None] && rs[1..][1..] == [None];
      assert Present([None]) == Present<RpcResponse<R>>([]);
    }
  }

  // ---------------------------------------------------------------------------
  // The method lookup as written.

  /** The names every plain object inherits from `Object.prototype`. */
  const ObjectPrototypeKeys: set<string> := {
    "constructor", "hasOwnProperty", "isPrototypeOf", "propertyIsEnumerable",
    "toLocaleString", "toString", "valueOf", "__proto__",
    "__defineGetter__", "__defineSetter__", "__lookupGetter__", "__lookupSetter__"
  }

  /**
   * `this.dispatch[method]` is a property read on an object literal, so the
   * `!handlerMethod` check passes for the table's own keys and also for every
   * inherited name, whose value is a truthy function or object.
   */
  predicate FoundAsWritten<R>(dispatch: map<string, Handler<R>>, m: string) {
    m in dispatch || m in ObjectPrototypeKeys
  }

  /** The inherited names whose call always throws a TypeError. */
  const ThrowingInheritedKeys: set<string> := ObjectPrototypeKeys - {"toString", "constructor", "isPrototypeOf"}

  /**
   * Calling an inherited member as `handlerMethod(params || {})`, that is with
   * `this` undefined: `toString` answers "[object Undefined]", `constructor`
   * (the `Object` function) returns its argument, `isPrototypeOf` answers false
   * for a primitive argument, and every other call throws a TypeError
   * (`__proto__` because `Object.prototype` is not callable). `typeError` stands
   * for the engine's message.
   */
  function InheritedCall(m: string, params: Json, typeError: string -> string): (o: HandlerOutcome<Json>)
    requires m in ObjectPrototypeKeys
    ensures m == "toString" ==> o == Done(JStr("[object Undefined]"))
    ensures m == "constructor" ==> o == Done(HandlerInput(params))
    ensures m == "isPrototypeOf" ==> o == (if HandlerInput(params).JObj? || HandlerInput(params).JArr? then Failed(typeError(m)) else Done(JBool(false)))
    ensures m in ThrowingInheritedKeys ==> o == Failed(typeError(m))
  {
    if m == "toString" then Done(JStr("[object Undefined]"))
    else if m == "constructor" then Done(HandlerInput(params))
    else if m == "isPrototypeOf" && !(HandlerInput(params).JObj? || HandlerInput(params).JArr?) then Done(JBool(false))
    else Failed(typeError(m))
  }

  /** A result from the table's handler, or the value an inherited member returned. */
  datatype Answer<R> = FromTable(value: R) | FromPrototype(json: Json)

  /** A corrected handler's response, seen as an as-written one. */
  function Lift<R>(r: Option<RpcResponse<R>>): Option<RpcResponse<Answer<R>>> {
    match r
    case None => None
    case Some(RpcResult(id, result)) => Some(RpcResult(id, FromTable(result)))
    case Some(RpcError(id, code, message, data)) => Some(RpcError(id, code, message, data))
  }

  /** An inherited member is what the as-written lookup finds for this request. */
  predicate InheritedHit<R>(dispatch: map<string, Handler<R>>, request: map<string, Json>) {
    VersionOk(request) && Get(request, "method").JStr?
    && Get(request, "method").s !in dispatch && Get(request, "method").s in ObjectPrototypeKeys
  }

  /**
   * `#handleSingleRequest(request)` with the property read `this.dispatch[method]`
   * as written: inherited names reach a call instead of the -32601 error.
   */
  function HandleSingleAsWritten<R>(dispatch: map<string, Handler<R>>, production: bool, typeError: string -> string, request: map<string, Json>): (r: Option<RpcResponse<Answer<R>>>)
    // Away from inherited names it answers as the own-key lookup does.
    ensures !InheritedHit(dispatch, request) ==> r == Lift(HandleSingle(dispatch, production, request))
    // An inherited name is never reported as missing.
    ensures InheritedHit(dispatch, request) ==> r.None? || r.value.RpcResult? || r.value.code == InternalError
    ensures InheritedHit(dispatch, request) ==>
      var o := InheritedCall(Get(request, "method").s, Get(request, "params"), typeError);
      && (o.Done? && ExpectsReply(request) ==> r == Some(RpcResult(request["id"], FromPrototype(o.result))))
      && (o.Done? && !ExpectsReply(request) ==> r.None?)
      && (o.Failed? ==> r == Some(RpcError(Coalesce(Get(request, "id"), JNull), InternalError, InternalErrorMessage,
                                           if production then JNull else JStr(o.message))))
  {
    var id := Get(request, "id");
    var name := Get(request, "method");
    if !VersionOk(request) || !name.JStr? || name.s in dispatch || name.s !in ObjectPrototypeKeys then
      Lift(HandleSingle(dispatch, production, request))
    else
      match InheritedCall(name.s, Get(request, "params"), typeError)
      case Done(result) =>
        if ExpectsReply(request) then Some(RpcResult(id, FromPrototype(result))) else None
      case Failed(message) =>
        Some(RpcError(Coalesce(id, JNull), InternalError, InternalErrorMessage, if production then JNull else JStr(message)))
  }

  /**
   * As written, a request for method "toString" is answered with the result
   * "[object Undefined]"; the own-key lookup answers -32601.
   */
  lemma InheritedNameSkipsNotFound<R>(dispatch: map<string, Handler<R>>, production: bool, typeError: string -> string, request: map<string, Json>)
    requires VersionOk(request) && Get(request, "method") == JStr("toString") && ExpectsReply(request)
    requires "toString" !in dispatch
    ensures FoundAsWritten(dispatch, "toString")
    ensures HandleSingleAsWritten(dispatch, production, typeError, request) ==
      Some(RpcResult(request["id"], FromPrototype(JStr("[object Undefined]"))))
    ensures HandleSingle(dispatch, production, request) ==
      Some(RpcError(Coalesce(request["id"], JNull), MethodNotFound, MethodNotFoundMessage("toString"), JNull))
  {
    assert InheritedHit(dispatch, request);
  }

  /**
   * As written, the application's handler answers a request for `valueOf`,
   * `hasOwnProperty`, `__proto__` and the other throwing inherited names with
   * a -32603 error, which the own-key lookup never gives.
   */
  lemma InheritedNamesInternalError(svc: ToolService.Service, typeError: string -> string, request: map<string, Json>)
    requires VersionOk(request) && Get(request, "method").JStr? && Get(request, "method").s in ThrowingInheritedKeys
    ensures var r := HandleSingleAsWritten(DispatchTable(svc), svc.production, typeError, request);
      r == Some(RpcError(Coalesce(Get(request, "id"), JNull), InternalError, InternalErrorMessage,
                         if svc.production then JNull else JStr(typeError(Get(request, "method").s))))
    ensures var r := HandleSingle(DispatchTable(svc), svc.production, request);
      r.Some? && r.value.code == MethodNotFound
  {
    assert Get(request, "method").s != "tools/call";
    assert InheritedHit(DispatchTable(svc), request);
  }

  /** The own-key lookup reports -32601 for every name outside the table, inherited ones included. */
  lemma UnknownMethodsReported<R>(dispatch: map<string, Handler<R>>, production: bool, request: map<string, Json>)
    requires VersionOk(request) && Get(request, "method").JStr?
    requires !(Get(request, "method").s in dispatch)
    ensures HandleSingle(dispatch, production, request).Some?
    ensures HandleSingle(dispatch, production, request).value.code == MethodNotFound
  {
  }
}
