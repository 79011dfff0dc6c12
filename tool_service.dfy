/**
 * The `tools/call` method: validate the call envelope, look the tool up,
 * validate the tool's own arguments, run the tool, and turn every outcome into
 * a tool-level result. `callTool` never throws.
 */
module ToolService {
  import opened JsValues
  import opened McpTool

  /**
   * The `data` of a tool error result: `null`, an error message, or the
   * formatted zod issues (kept opaque).
   */
  datatype ErrorData = NoData | Detail(text: string) | Issues

  /** `{isError: false, content}` or `{isError: true, message, data}`. */
  datatype ToolCallResult = ToolSuccess(content: Json) | ToolFailure(message: string, data: ErrorData)
  {
    predicate IsError() {
      ToolFailure?
    }
  }

  /**
   * What `callTool` works with: the tools registered at call time, the
   * production flag, zod's URL check and the tools' `execute` operation,
   * which runs against the backend and so is given from outside.
   */
  datatype Service = Service(
    tools: map<string, Tool>,
    production: bool,
    isUrl: string -> bool,
    execute: (Tool, Args) -> Completion)

  const InvalidParamsMessage: string := "Invalid 'tools/call' parameters."

  function NotFoundMessage(name: string): string {
    "Tool '" + name + "' not found."
  }

  function InvalidArgsMessage(name: string): string {
    "Invalid arguments for tool '" + name + "'."
  }

  function FailedMessage(name: string): string {
    "Tool '" + name + "' failed."
  }

  /** The call envelope after `ToolCallParamsSchema`. */
  datatype CallParams = CallParams(name: string, arguments: map<string, Json>)

  /**
   * `ToolCallParamsSchema.safeParse(params)`: an object whose `name` is a string
   * and whose `arguments` is an object (not null, not an array).
   */
  function ParseCallParams(params: Json): (r: Option<CallParams>)
    ensures r.Some? <==> params.JObj? && Get(params.fields, "name").JStr? && Get(params.fields, "arguments").JObj?
    ensures r.Some? ==> JStr(r.value.name) == Get(params.fields, "name")
    ensures r.Some? ==> JObj(r.value.arguments) == Get(params.fields, "arguments")
  {
    if params.JObj? then
      match (Get(params.fields, "name"), Get(params.fields, "arguments"))
      case (JStr(name), JObj(args)) => Some(CallParams(name, args))
      case _ => None
    else None
  }

  /** The tool and arguments that reach `execute`, when every check before it passes. */
  function Validated(svc: Service, params: Json): Option<(Tool, Args)> {
    match ParseCallParams(params)
    case None => None
    case Some(p) =>
      if p.name !in svc.tools then None
      else match ParseArgs(svc.tools[p.name], p.arguments, svc.isUrl)
        case None => None
        case Some(args) => Some((svc.tools[p.name], args))
  }

  /** The `data` for a failed execution: the message outside production, `null` in it. */
  function FailureData(production: bool, message: string): ErrorData {
    if production then NoData else Detail(message)
  }

  /** `callTool(params)` */
  function CallTool(svc: Service, params: Json): (r: ToolCallResult)
    ensures ParseCallParams(params).None? ==> r == ToolFailure(InvalidParamsMessage, Issues)
    ensures ParseCallParams(params).Some? && ParseCallParams(params).value.name !in svc.tools ==>
      r == ToolFailure(NotFoundMessage(ParseCallParams(params).value.name), NoData)
    ensures ParseCallParams(params).Some? && ParseCallParams(params).value.name in svc.tools && Validated(svc, params).None? ==>
      r == ToolFailure(InvalidArgsMessage(ParseCallParams(params).value.name), Issues)
    ensures !r.IsError() <==> Validated(svc, params).Some? && svc.execute(Validated(svc, params).value.0, Validated(svc, params).value.1).Returned?
    ensures !r.IsError() ==> r.content == svc.execute(Validated(svc, params).value.0, Validated(svc, params).value.1).value
    ensures Validated(svc, params).Some? ==>
      var name := ParseCallParams(params).value.name;
      var (tool, args) := Validated(svc, params).value;
      && tool == svc.tools[name]
      && Fits(tool, args)
      && (svc.execute(tool, args) == Threw(ZodError) ==> r == ToolFailure(InvalidArgsMessage(name), Issues))
      && (svc.execute(tool, args).Threw? && svc.execute(tool, args).error.ErrorWithMessage? ==>
            r == ToolFailure(FailedMessage(name), FailureData(svc.production, svc.execute(tool, args).error.message)))
  {
    match ParseCallParams(params)
    case None => ToolFailure(InvalidParamsMessage, Issues)
    case Some(p) =>
      if p.name !in svc.tools then ToolFailure(NotFoundMessage(p.name), NoData)
      else
        var tool := svc.tools[p.name];
        match ParseArgs(tool, p.arguments, svc.isUrl)
        case None =>
          FailedMessagesDiffer(p.name);
          ToolFailure(InvalidArgsMessage(p.name), Issues)
        case Some(args) =>
          match svc.execute(tool, args)
          case Returned(content) => ToolSuccess(content)
          case Threw(ZodError) => ToolFailure(InvalidArgsMessage(p.name), Issues)
          case Threw(ErrorWithMessage(m)) => ToolFailure(FailedMessage(p.name), FailureData(svc.production, m))
  }

  /** The execution-failure message is never the invalid-arguments message. */
  lemma FailedMessagesDiffer(name: string)
    ensures InvalidArgsMessage(name) != FailedMessage(name)
  {
    assert InvalidArgsMessage(name)[0] != FailedMessage(name)[0];
  }

  /**
   * When a check before execution fails, the result does not depend on
   * `execute`: the tool is never run.
   */
  lemma ExecuteNotReached(svc: Service, params: Json, other: (Tool, Args) -> Completion)
    requires Validated(svc, params).None?
    ensures CallTool(svc.(execute := other), params) == CallTool(svc, params)
  {
  }

  /**
   * An unknown tool name gets the not-found result whatever the arguments, the
   * URL check or the tools' behaviour.
   */
  lemma UnknownToolNotFound(svc: Service, name: string, args: map<string, Json>)
    requires name !in svc.tools
    ensures CallTool(svc, JObj(map["name" := JStr(name), "arguments" := JObj(args)])) == ToolFailure(NotFoundMessage(name), NoData)
  {
    var params := JObj(map["name" := JStr(name), "arguments" := JObj(args)]);
    assert Get(params.fields, "name") == JStr(name);
    assert Get(params.fields, "arguments") == JObj(args);
  }

  /**
   * The four failure messages are told apart by their endings, and each message
   * naming a tool names exactly one: a caller can recover the failed step and
   * the tool from the message alone.
   */
  lemma {:induction false} FailureMessagesIdentify(n1: string, n2: string)
    ensures NotFoundMessage(n1) != InvalidArgsMessage(n2)
    ensures NotFoundMessage(n1) != FailedMessage(n2)
    ensures InvalidArgsMessage(n1) != FailedMessage(n2)
    ensures InvalidParamsMessage != NotFoundMessage(n1)
    ensures InvalidParamsMessage != InvalidArgsMessage(n1)
    ensures InvalidParamsMessage != FailedMessage(n1)
    ensures NotFoundMessage(n1) == NotFoundMessage(n2) ==> n1 == n2
    ensures InvalidArgsMessage(n1) == InvalidArgsMessage(n2) ==> n1 == n2
    ensures FailedMessage(n1) == FailedMessage(n2) ==> n1 == n2
  {
    var a, b, c := NotFoundMessage(n1), InvalidArgsMessage(n1), FailedMessage(n1);
    var a2, b2, c2 := NotFoundMessage(n2), InvalidArgsMessage(n2), FailedMessage(n2);
    // Second-to-last characters: 'd' for not-found and failed, '\'' for invalid arguments.
    assert a[|a| - 2] == 'd' && c[|c| - 2] == 'd' && b[|b| - 2] == '\'';
    assert a2[|a2| - 2] == 'd' && c2[|c2| - 2] == 'd' && b2[|b2| - 2] == '\'';
    // Seventh character from the end: ' ' in " found.", 'f' in "failed.".
    assert a[|a| - 7] == ' ' && c2[|c2| - 7] == 'f';
    assert InvalidParamsMessage[|InvalidParamsMessage| - 2] == 's';
    if a == a2 {
      assert n1 == a[6..|a| - 12] && n2 == a2[6..|a2| - 12];
    }
    if b == b2 {
      assert n1 == b[28..|b| - 2] && n2 == b2[28..|b2| - 2];
    }
    if c == c2 {
      assert n1 == c[6..|c| - 9] && n2 == c2[6..|c2| - 9];
    }
  }
}
