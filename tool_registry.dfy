/** The tool registry: a mutable map from tool names to tools. */
module ToolRegistry {
  import opened JsValues
  import opened McpTool
  import QBit
  import AddTorrentTool
  import GetTorrentsTool

  class ToolRegistry {
    var tools: map<string, Tool>

    /** Every tool is held under its own name. */
    ghost predicate Valid()
      reads this
    {
      forall n :: n in tools ==> tools[n].Name() == n
    }

    constructor ()
      ensures tools == map[]
      ensures Valid()
    {
      tools := map[];
    }

    /** `getTool(name)`: the registered tool, or None (`undefined`) for an unknown name. */
    function GetTool(name: string): (t: Option<Tool>)
      reads this
      ensures t.Some? <==> name in tools
      ensures t.Some? ==> t.value == tools[name]
      ensures Valid() && t.Some? ==> t.value.Name() == name
    {
      if name in tools then Some(tools[name]) else None
    }

    /**
     * `registerTool(t)`: stores `t` under its name, replacing any tool already
     * held there; every other name keeps its entry.
     */
    method RegisterTool(t: Tool)
      modifies this
      ensures tools == old(tools)[t.Name() := t]
      ensures GetTool(t.Name()) == Some(t)
      ensures forall n :: n != t.Name() ==> GetTool(n) == old(GetTool(n))
      ensures old(Valid()) ==> Valid()
    {
      tools := tools[t.Name() := t];
    }
  }

  /** The registry the application builds: both tools, sharing one client. */
  method Default(client: QBit.QBitClient) returns (r: ToolRegistry)
    ensures fresh(r) && r.Valid()
    ensures r.tools.Keys == {GetTorrentsTool.Name, AddTorrentTool.Name}
    ensures r.GetTool(GetTorrentsTool.Name) == Some(GetTorrents(client))
    ensures r.GetTool(AddTorrentTool.Name) == Some(AddTorrent(client))
  {
    r := new ToolRegistry();
    r.RegisterTool(GetTorrents(client));
    r.RegisterTool(AddTorrent(client));
  }
}
