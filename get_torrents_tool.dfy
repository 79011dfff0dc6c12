/**
 * The `qbit/getTorrents` tool: two optional string arguments, forwarded to the
 * client, and a projection of each torrent record onto six fields.
 */
module GetTorrentsTool {
  import opened JsValues
  import opened QBit

  const Name: string := "qbit/getTorrents"

  /** The fields each output record keeps, in the source's order. */
  const Fields: seq<string> := ["name", "hash", "size", "progress", "state", "eta"]

  /** `z.string().optional()`: absent (undefined) or a string. */
  predicate OptionalString(v: Json) {
    v == JUndefined || v.JStr?
  }

  function AsOption(v: Json): Option<string> {
    if v.JStr? then Some(v.s) else None
  }

  /** The validated arguments: unknown keys are stripped. */
  datatype Args = Args(filter: Option<string>, status: Option<string>)

  /** `GetTorrentsInputSchema.parse(args)`, or None where zod throws. */
  function ParseArgs(args: map<string, Json>): (r: Option<Args>)
    ensures r.Some? <==> OptionalString(Get(args, "filter")) && OptionalString(Get(args, "status"))
    ensures r.Some? ==> Get(args, "filter") == (if r.value.filter.Some? then JStr(r.value.filter.value) else JUndefined)
    ensures r.Some? ==> Get(args, "status") == (if r.value.status.Some? then JStr(r.value.status.value) else JUndefined)
  {
    var filter, status := Get(args, "filter"), Get(args, "status");
    if OptionalString(filter) && OptionalString(status) then Some(Args(AsOption(filter), AsOption(status))) else None
  }

  /** A numeric `filter` is rejected. */
  lemma NumericFilterRejected(n: real)
    ensures ParseArgs(map["filter" := JNum(n)]).None?
  {
    assert Get(map["filter" := JNum(n)], "filter") == JNum(n);
  }

  /** `null` and `undefined`, whose property reads throw. */
  predicate Nullish(v: Json) {
    v == JNull || v == JUndefined
  }

  /** V8's TypeError message for reading `prop` of null or undefined. */
  function ReadError(v: Json, prop: string): string {
    "Cannot read properties of " + (if v == JNull then "null" else "undefined") + " (reading '" + prop + "')"
  }

  /** `t[key]` for a non-nullish value: own key of an object, undefined otherwise. */
  function Read(t: Json, key: string): Json {
    if t.JObj? then Get(t.fields, key) else JUndefined
  }

  /** The record `execute` builds from one torrent `t`. */
  function Project(t: Json): (r: Json)
    requires !Nullish(t)
    ensures r.JObj? && r.fields.Keys == set k | k in Fields
    ensures forall k :: k in Fields ==> r.fields[k] == Read(t, k)
  {
    JObj(map k | k in Fields :: Read(t, k))
  }

  /** `torrents.map(t => ({ … }))` on the items of an array: the first nullish item throws. */
  function ProjectAll(items: seq<Json>): (r: Result<seq<Json>, string>)
    ensures r.Ok? <==> forall i :: 0 <= i < |items| ==> !Nullish(items[i])
    ensures r.Ok? ==> |r.value| == |items| && forall i :: 0 <= i < |items| ==> r.value[i] == Project(items[i])
    // the first nullish item throws
    ensures r.Err? ==> exists i :: (0 <= i < |items| && Nullish(items[i]) && r.error == ReadError(items[i], "name")
      && forall j :: 0 <= j < i ==> !Nullish(items[j]))
  {
    if items == [] then Ok([])
    else if Nullish(items[0]) then Err(ReadError(items[0], "name"))
    else match ProjectAll(items[1..])
      case Err(e) => Err(e)
      case Ok(rest) => Ok([Project(items[0])] + rest)
  }

  /** How `execute` completes, given how `qbitClient.getTorrents` completed. */
  function ExecuteResult(listed: Result<Json, Failure>): (c: Completion)
    ensures c.Returned? ==> listed.Ok? && listed.value.JArr? && c.value.JArr?
    ensures c.Returned? ==> |c.value.items| == |listed.value.items|
    ensures c.Returned? ==> forall i :: 0 <= i < |c.value.items| ==>
      !Nullish(listed.value.items[i]) && c.value.items[i] == Project(listed.value.items[i])
    ensures listed.Ok? && listed.value.JArr? && (forall i :: 0 <= i < |listed.value.items| ==> !Nullish(listed.value.items[i])) ==>
      c == Returned(JArr(ProjectAll(listed.value.items).value))
    ensures listed.Ok? && Nullish(listed.value) ==> c == Threw(ErrorWithMessage(ReadError(listed.value, "map")))
    ensures listed.Ok? && !Nullish(listed.value) && !listed.value.JArr? ==> c == Threw(ErrorWithMessage("torrents.map is not a function"))
    ensures listed.Ok? && listed.value.JArr? && ProjectAll(listed.value.items).Err? ==>
      c == Threw(ErrorWithMessage(ProjectAll(listed.value.items).error))
    ensures listed.Err? ==> c == Threw(ErrorWithMessage(listed.error.message))
  {
    match listed
    case Err(f) => Threw(ErrorWithMessage(f.message))
    case Ok(data) =>
      if Nullish(data) then Threw(ErrorWithMessage(ReadError(data, "map")))
      else if !data.JArr? then Threw(ErrorWithMessage("torrents.map is not a function"))
      else match ProjectAll(data.items)
        case Err(e) => Threw(ErrorWithMessage(e))
        case Ok(records) => Returned(JArr(records))
  }

  /** `execute(args)`: forwards `filter` and `status` to `qbitClient.getTorrents`. */
  method Execute(client: QBitClient, net: Backend, args: Args) returns (c: Completion)
    modifies client`cookie, net
    ensures c == ExecuteResult(old(client.Planned(net, TorrentsInfo(args.filter))).result)
    ensures net.sent == old(net.sent) + old(client.Planned(net, TorrentsInfo(args.filter))).sent
    ensures forall k :: |old(net.sent)| <= k < |net.sent| ==> net.sent[k].call == TorrentsInfo(args.filter)
    ensures net.logins == old(net.logins) + old(client.Planned(net, TorrentsInfo(args.filter))).logins
    ensures client.cookie == old(client.Planned(net, TorrentsInfo(args.filter))).cookie
  {
    var listed := client.GetTorrents(net, args.filter, args.status);
    c := ExecuteResult(listed);
  }
}
