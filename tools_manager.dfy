/** `ToolsManager` of src/core/tools_manager.py: the fixed list of local
    tools, the optional remote MCP manager, the merged tool list and the
    idempotent close. */
module ToolsManagement {
  import opened PyValues
  import opened ToolModel
  import opened LocalTools
  import opened McpTools

  /** `[SearchTool().tool, StockPriceTool(), RAGTool()]`, the API key coming
      from the environment. */
  function LocalToolList(env: Option<string>): (ts: seq<Tool>)
    ensures |ts| == 3
    ensures NameOf(ts[0]) == SearchName && NameOf(ts[1]) == StockPriceName && NameOf(ts[2]) == RagName
    ensures ts[0] == Search && ts[1] == NewStockPriceTool(None, env) && ts[2] == Rag
  {
    [Search, NewStockPriceTool(None, env), Rag]
  }

  /** The merged list: the local tools, then (when MCP is enabled and a
      remote manager exists) the remote tools, each in its own order, with no
      removal of duplicate names. */
  function MergedTools(local: seq<Tool>, remote: seq<Tool>): (ts: seq<Tool>)
    ensures |ts| == |local| + |remote|
    ensures ts[..|local|] == local && ts[|local|..] == remote
  {
    local + remote
  }

  /** A local tool that shares its name with a remote tool wins the lookup. */
  lemma LocalWinsOnCollision(local: seq<Tool>, remote: seq<Tool>, name: string)
    requires exists i :: 0 <= i < |local| && NameOf(local[i]) == name
    ensures FindTool(local, name).Some?
    ensures FindTool(MergedTools(local, remote), name).Some?
    ensures FindTool(MergedTools(local, remote), name).value < |local|
    ensures MergedTools(local, remote)[FindTool(MergedTools(local, remote), name).value]
            == local[FindTool(local, name).value]
  {
    FindToolIsFirstMatch(local, name);
    FindToolInConcat(local, remote, name);
  }

  /** The merged list keeps both tools of a colliding name: nothing is
      deduplicated. */
  lemma {:induction false} CollisionKeepsBoth(local: seq<Tool>, remote: seq<Tool>, i: nat, j: nat)
    requires i < |local| && j < |remote| && NameOf(local[i]) == NameOf(remote[j])
    ensures MergedTools(local, remote)[i] == local[i]
    ensures MergedTools(local, remote)[|local| + j] == remote[j]
    ensures NameOf(MergedTools(local, remote)[i]) == NameOf(MergedTools(local, remote)[|local| + j])
  {
    var ts := MergedTools(local, remote);
    assert ts[..|local|][i] == local[i];
    assert ts[|local|..][j] == remote[j];
  }

  class ToolsManager {
    var enableMcp: bool
    var localTools: seq<Tool>
    var mcpClient: Option<McpClient>
    var remoteMgr: Option<RemoteMcpTools>

    /** `ToolsManager(enable_mcp, mcp_client)`: no remote manager yet. */
    constructor (enableMcp: bool, mcpClient: Option<McpClient>, env: Option<string>)
      ensures this.enableMcp == enableMcp && this.mcpClient == mcpClient
      ensures localTools == LocalToolList(env)
      ensures remoteMgr.None?
    {
      this.enableMcp := enableMcp;
      this.localTools := LocalToolList(env);
      this.mcpClient := mcpClient;
      this.remoteMgr := None;
    }

    /** `ToolsManager.create`: the remote manager is set exactly when MCP is
        enabled. `created` is the client `MCPClient()` would make. */
    static method Create(enableMcp: bool, mcpClient: Option<McpClient>, env: Option<string>, created: McpClient)
      returns (inst: ToolsManager)
      ensures fresh(inst)
      ensures inst.enableMcp == enableMcp && inst.mcpClient == mcpClient
      ensures inst.localTools == LocalToolList(env)
      ensures enableMcp ==> inst.remoteMgr == Some(AsyncInit(mcpClient, created))
      ensures !enableMcp ==> inst.remoteMgr.None?
    {
      inst := new ToolsManager(enableMcp, mcpClient, env);
      if enableMcp {
        inst.remoteMgr := Some(AsyncInit(mcpClient, created));
      }
    }

    /** The remote tools `get_all_tools` adds to the local ones. */
    function RemoteTools(discover: McpClient -> Outcome<seq<McpTool>>): (ts: seq<Tool>)
      reads this
      ensures !enableMcp || remoteMgr.None? ==> ts == []
      ensures enableMcp && remoteMgr.Some? && discover(remoteMgr.value.client).Raised? ==> ts == []
      ensures enableMcp && remoteMgr.Some? && discover(remoteMgr.value.client).Returned? ==>
                ts == Converted(discover(remoteMgr.value.client).value)
    {
      if enableMcp && remoteMgr.Some? then
        match discover(remoteMgr.value.client)
        case Raised(_) => []
        case Returned(ms) => Converted(ms)
      else []
    }

    /** `get_all_tools`: a copy of the local tools extended with the remote
        ones. It changes nothing, never raises, and a failed discovery leaves
        exactly the local tools. */
    method GetAllTools(discover: McpClient -> Outcome<seq<McpTool>>) returns (tools: seq<Tool>)
      ensures tools == MergedTools(localTools, RemoteTools(discover))
      ensures !enableMcp || remoteMgr.None? ==> tools == localTools
      ensures remoteMgr.Some? && discover(remoteMgr.value.client).Raised? ==> tools == localTools
    {
      tools := localTools;
      if enableMcp && remoteMgr.Some? {
        var mcpTools := LoadTools(remoteMgr.value, discover);
        tools := tools + mcpTools;
      }
    }

    /** `aclose`: with a remote manager, close its client as `CloseAction`
        says; if that raises, the exception propagates and the manager is
        kept, otherwise it is dropped. Without one, nothing happens, so a
        second `aclose` after a successful one is a no-op. `performed` is the
        close dispatch that ran, `error` the exception raised. */
    method Aclose(close: (McpClient, CloseCall) -> Outcome<()>) returns (performed: Option<CloseCall>, error: Option<string>)
      modifies this
      ensures enableMcp == old(enableMcp) && localTools == old(localTools) && mcpClient == old(mcpClient)
      ensures old(remoteMgr).None? ==> remoteMgr.None? && performed.None? && error.None?
      ensures old(remoteMgr).Some? ==> performed == Some(CloseAction(old(remoteMgr).value.client.caps))
      ensures old(remoteMgr).Some? && error.None? ==> remoteMgr.None?
      ensures error.Some? ==> remoteMgr == old(remoteMgr)
      ensures error.Some? <==>
                old(remoteMgr).Some? && CloseAction(old(remoteMgr).value.client.caps) != NoClose
                && close(old(remoteMgr).value.client, CloseAction(old(remoteMgr).value.client.caps)).Raised?
    {
      performed, error := None, None;
      if remoteMgr.Some? {
        var client := remoteMgr.value.client;
        var action := CloseAction(client.caps);
        performed := Some(action);
        if action != NoClose {
          var outcome := close(client, action);
          if outcome.Raised? {
            error := Some(outcome.error);
            return;
          }
        }
        remoteMgr := None;
      }
    }
  }

  /** Two `aclose` calls in a row: when the first does not raise, the second
      performs nothing and changes nothing. */
  method AcloseTwice(m: ToolsManager, close: (McpClient, CloseCall) -> Outcome<()>)
    returns (first: Option<CloseCall>, second: Option<CloseCall>, error: Option<string>)
    modifies m
    ensures error.None? ==> m.remoteMgr.None? && second.None?
    ensures m.localTools == old(m.localTools)
    ensures m.enableMcp == old(m.enableMcp) && m.mcpClient == old(m.mcpClient)
  {
    first, error := m.Aclose(close);
    if error.None? {
      var again: Option<string>;
      second, again := m.Aclose(close);
      assert again.None?;
    } else {
      second := None;
    }
  }
}
