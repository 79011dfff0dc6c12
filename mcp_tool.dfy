/**
 * The MCP tool interface: a tool has a name, an input schema and an `execute`
 * operation. The two concrete tools form a closed family here, each holding the
 * client that was injected into it.
 */
module McpTool {
  import opened JsValues
  import opened QBit
  import AddTorrentTool
  import GetTorrentsTool

  datatype Tool = GetTorrents(client: QBitClient) | AddTorrent(client: QBitClient)
  {
    /** The `name` getter. */
    function Name(): (n: string)
      ensures GetTorrents? ==> n == GetTorrentsTool.Name
      ensures AddTorrent? ==> n == AddTorrentTool.Name
      ensures "qbit/" <= n
    {
      match this
      case GetTorrents(_) => GetTorrentsTool.Name
      case AddTorrent(_) => AddTorrentTool.Name
    }
  }

  /** The two tools answer to different names, so each name selects one kind of tool. */
  lemma NamesIdentifyKind(a: Tool, b: Tool)
    ensures a.Name() == b.Name() <==> (a.GetTorrents? <==> b.GetTorrents?)
  {
    if a.GetTorrents? != b.GetTorrents? {
      assert GetTorrentsTool.Name[5] != AddTorrentTool.Name[5];
    }
  }

  /** The arguments a tool's schema produces. */
  datatype Args = GetTorrentsArgs(query: GetTorrentsTool.Args) | AddTorrentArgs(url: string)

  /** The arguments were produced by this tool's own schema. */
  predicate Fits(tool: Tool, args: Args) {
    tool.GetTorrents? <==> args.GetTorrentsArgs?
  }

  /**
   * `tool.inputSchema.parse(args)`: the validated arguments, or None where zod
   * throws. `isUrl` stands for zod's URL check.
   */
  function ParseArgs(tool: Tool, args: map<string, Json>, isUrl: string -> bool): (r: Option<Args>)
    ensures r.Some? ==> Fits(tool, r.value)
    ensures tool.GetTorrents? ==> (r.Some? <==> GetTorrentsTool.ParseArgs(args).Some?)
    ensures tool.GetTorrents? && r.Some? ==> r.value.query == GetTorrentsTool.ParseArgs(args).value
    ensures tool.AddTorrent? ==> (r.Some? <==> AddTorrentTool.ParseArgs(args, isUrl).Some?)
    ensures tool.AddTorrent? && r.Some? ==> Get(args, "url") == JStr(r.value.url)
  {
    match tool
    case GetTorrents(_) =>
      (match GetTorrentsTool.ParseArgs(args)
       case Some(q) => Some(GetTorrentsArgs(q))
       case None => None)
    case AddTorrent(_) =>
      (match AddTorrentTool.ParseArgs(args, isUrl)
       case Some(u) => Some(AddTorrentArgs(u))
       case None => None)
  }

  /** The one backend call `execute` makes for these arguments. */
  function Call(args: Args): ApiCall {
    match args
    case GetTorrentsArgs(q) => TorrentsInfo(q.filter)
    case AddTorrentArgs(u) => TorrentsAdd(u)
  }

  /** How `execute` will complete, judged from the client's and the backend's present state. */
  function Planned(tool: Tool, net: Backend, args: Args): Completion
    requires Fits(tool, args)
    reads tool.client, net
  {
    var run := tool.client.Planned(net, Call(args));
    match args
    case GetTorrentsArgs(_) => GetTorrentsTool.ExecuteResult(run.result)
    case AddTorrentArgs(_) => AddTorrentTool.ExecuteResult(AddTorrentResult(run.result))
  }

  /** `tool.execute(args)` on validated arguments. */
  method Execute(tool: Tool, net: Backend, args: Args) returns (c: Completion)
    requires Fits(tool, args)
    modifies tool.client`cookie, net
    ensures c == old(Planned(tool, net, args))
    ensures net.sent == old(net.sent) + old(tool.client.Planned(net, Call(args))).sent
    ensures forall k :: |old(net.sent)| <= k < |net.sent| ==> net.sent[k].call == Call(args)
    ensures net.logins == old(net.logins) + old(tool.client.Planned(net, Call(args))).logins
    ensures tool.client.cookie == old(tool.client.Planned(net, Call(args))).cookie
  {
    match args
    case GetTorrentsArgs(q) =>
      c := GetTorrentsTool.Execute(tool.client, net, q);
    case AddTorrentArgs(u) =>
      c := AddTorrentTool.Execute(tool.client, net, u);
  }
}
