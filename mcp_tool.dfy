/** `RemoteMCPTools` of src/tools/mcp_tool.py: wrapping MCP tool handles as
    StructuredTools, the argument building and error capture of the wrapped
    coroutine, the discovery loop, and the choice of how to close the
    client. The MCP client's calls are oracles. */
module McpTools {
  import opened PyValues
  import opened ToolModel

  /** What the MCP client object offers for closing: whether it has an
      `aclose` attribute and whether that is a coroutine function, and the
      same for `close`. */
  datatype CloseCaps = CloseCaps(hasAclose: bool, acloseIsCoroutine: bool, hasClose: bool, closeIsCoroutine: bool)

  /** An MCP client object, identified by `id`. */
  datatype McpClient = McpClient(id: nat, caps: CloseCaps)

  /** A `RemoteMCPTools` instance: it only holds its client. */
  datatype RemoteMcpTools = RemoteMcpTools(client: McpClient)

  /** How `RemoteMCPTools.aclose` closes the client. */
  datatype CloseCall = AwaitAclose | AwaitClose | CallClose | NoClose

  const DefaultDescription: string := "MCP tool"

  /** `RemoteMCPTools.async_init(mcp_client)` followed by `__init__`: the
      given client, or else the client that `MCPClient()` makes (the
      MCPClient class has neither a `create` nor a `connect` factory). */
  function AsyncInit(given: Option<McpClient>, created: McpClient): (r: RemoteMcpTools)
    ensures given.Some? ==> r.client == given.value
    ensures given.None? ==> r.client == created
  {
    if given.Some? then RemoteMcpTools(given.value) else RemoteMcpTools(created)
  }

  /** `_make_langchain_tool`: a StructuredTool with the MCP tool's own name,
      its description or "MCP tool" when that is empty, bound to the handle. */
  function MakeLangchainTool(m: McpTool): (t: Tool)
    ensures t.Structured? && t.remote == m
    ensures NameOf(t) == m.name
    ensures m.description != "" ==> DescriptionOf(t) == m.description
    ensures m.description == "" ==> DescriptionOf(t) == DefaultDescription
    ensures TypeNameOf(t) == "StructuredTool"
  {
    Structured(m.name, if m.description != "" then m.description else DefaultDescription, m)
  }

  /** The arguments `run_tool` sends: `{"query": query}` for a non-empty
      query, otherwise `{}`. */
  function RunToolArgs(query: string): (a: Args)
    ensures query != "" ==> a == map["query" := Str(query)]
    ensures query == "" ==> a == map[]
  {
    if query != "" then map["query" := Str(query)] else map[]
  }

  /** The coroutine `run_tool(query)` of a wrapped tool: it awaits the
      client's `run_tool` with the built arguments and returns its result;
      an exception is returned as the string "Error: <e>" and never raised. */
  function RunTool(client: McpClient, m: McpTool, query: string,
                   run: (McpClient, McpTool, Args) -> Outcome<Value>): (v: Value)
    ensures run(client, m, RunToolArgs(query)).Returned? ==> v == run(client, m, RunToolArgs(query)).value
    ensures run(client, m, RunToolArgs(query)).Raised? ==> v == Str("Error: " + run(client, m, RunToolArgs(query)).error)
  {
    match run(client, m, RunToolArgs(query))
    case Returned(result) => result
    case Raised(e) => Str("Error: " + e)
  }

  /** The `query` that `run_tool` is called with when the wrapped tool is
      invoked with `args`: the string under "query", or the default "" when
      there is none; None when the value under "query" is not a string,
      which the tool's argument schema rejects before `run_tool` runs. */
  function McpQuery(args: Args): (q: Option<string>)
    ensures "query" !in args ==> q == Some("")
    ensures "query" in args ==> (q.Some? <==> args["query"].Str?)
    ensures "query" in args && q.Some? ==> q.value == args["query"].s
  {
    if "query" !in args then Some("")
    else match args["query"]
      case Str(s) => Some(s)
      case _ => None
  }

  /** The conversion of a discovered list: one wrapped tool per MCP tool, in
      discovery order. */
  function Converted(ms: seq<McpTool>): (ts: seq<Tool>)
    ensures |ts| == |ms|
    ensures forall i :: 0 <= i < |ms| ==> ts[i] == MakeLangchainTool(ms[i])
  {
    if ms == [] then [] else [MakeLangchainTool(ms[0])] + Converted(ms[1..])
  }

  /** `load_tools`: awaits discovery, then appends one wrapped tool per
      discovered tool; if discovery raises, the result is `[]` and nothing
      is raised. */
  method LoadTools(remote: RemoteMcpTools, discover: McpClient -> Outcome<seq<McpTool>>) returns (tools: seq<Tool>)
    ensures discover(remote.client).Raised? ==> tools == []
    ensures discover(remote.client).Returned? ==> tools == Converted(discover(remote.client).value)
  {
    var found := discover(remote.client);
    if found.Raised? {
      return [];
    }
    var mcpTools := found.value;
    var langchainTools: seq<Tool> := [];
    var i := 0;
    while i < |mcpTools|
      invariant 0 <= i <= |mcpTools|
      invariant |langchainTools| == i
      invariant forall k :: 0 <= k < i ==> langchainTools[k] == MakeLangchainTool(mcpTools[k])
    {
      langchainTools := langchainTools + [MakeLangchainTool(mcpTools[i])];
      i := i + 1;
    }
    tools := langchainTools;
  }

  /** `RemoteMCPTools.aclose`: an `aclose` coroutine is preferred; otherwise a
      `close` attribute is awaited when it is a coroutine function and called
      when it is not; otherwise nothing is done. */
  function CloseAction(caps: CloseCaps): (c: CloseCall)
    ensures c == AwaitAclose <==> caps.hasAclose && caps.acloseIsCoroutine
    ensures c == AwaitClose <==> !(caps.hasAclose && caps.acloseIsCoroutine) && caps.hasClose && caps.closeIsCoroutine
    ensures c == CallClose <==> !(caps.hasAclose && caps.acloseIsCoroutine) && caps.hasClose && !caps.closeIsCoroutine
    ensures c == NoClose <==> !(caps.hasAclose && caps.acloseIsCoroutine) && !caps.hasClose
  {
    if caps.hasAclose && caps.acloseIsCoroutine then AwaitAclose
    else if caps.hasClose then (if caps.closeIsCoroutine then AwaitClose else CallClose)
    else NoClose
  }
}
