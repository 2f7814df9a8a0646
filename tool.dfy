/** The tools the agent can call, as the registry holds them: the three local
    tools of src/tools/local_tools.py and the StructuredTool wrappers of MCP
    tools built in src/tools/mcp_tool.py, with their `name`, `description`
    and Python class name, and the first-match lookup by name. */
module ToolModel {
  import opened PyValues

  /** A tool handle as an MCP server describes it: its name, its description
      (None or "" when it has none) and the server that serves it. */
  datatype McpTool = McpTool(name: string, description: string, server: string)

  /** A registered tool.
      - Search: langchain_community's DuckDuckGoSearchRun;
      - StockPrice: the Alpha Vantage quote tool, with its `api_key`;
      - Rag: the document retrieval tool;
      - Structured: a StructuredTool wrapping a remote MCP tool. */
  datatype Tool =
    | Search
    | StockPrice(apiKey: Option<string>)
    | Rag
    | Structured(name: string, description: string, remote: McpTool)

  const SearchName: string := "duckduckgo_search"
  const StockPriceName: string := "stock_price"
  const RagName: string := "rag_tool"

  /** The description DuckDuckGoSearchRun declares (library text). */
  const SearchDescription: string :=
    "A wrapper around DuckDuckGo Search. Useful for when you need to answer questions about current events. Input should be a search query."
  const StockPriceDescription: string :=
    "Fetch latest stock price for a given ticker symbol using Alpha Vantage. "
    + "Input: a ticker symbol string (e.g. 'AAPL'). Output: JSON response from Alpha Vantage."
  const RagDescription: string :=
    "Retrieve relevant information from the pdf document. "
    + "Use this tool when the user asks factual/conceptual questions "
    + "that might be answered from the stored documents."

  /** The tool's `name` attribute. */
  function NameOf(t: Tool): string
  {
    match t
    case Search => SearchName
    case StockPrice(_) => StockPriceName
    case Rag => RagName
    case Structured(n, _, _) => n
  }

  /** The tool's `description` attribute. */
  function DescriptionOf(t: Tool): string
  {
    match t
    case Search => SearchDescription
    case StockPrice(_) => StockPriceDescription
    case Rag => RagDescription
    case Structured(_, d, _) => d
  }

  /** `type(tool).__name__`. */
  function TypeNameOf(t: Tool): string
  {
    match t
    case Search => "DuckDuckGoSearchRun"
    case StockPrice(_) => "StockPriceTool"
    case Rag => "RAGTool"
    case Structured(_, _, _) => "StructuredTool"
  }

  /** `next((t for t in tools if t.name == name), None)`, as an index: the
      position of the first tool whose name equals `name` exactly, or None
      when no tool has that name. */
  function FindTool(tools: seq<Tool>, name: string): (r: Option<nat>)
    ensures r.Some? ==> r.value < |tools| && NameOf(tools[r.value]) == name
  {
    if tools == [] then None
    else if NameOf(tools[0]) == name then Some(0)
    else
      match FindTool(tools[1..], name)
      case None => None
      case Some(k) => Some(k + 1)
  }

  /** The lookup returns the first match: no earlier tool has the name, and
      None exactly when no tool has it. */
  lemma {:induction false} FindToolIsFirstMatch(tools: seq<Tool>, name: string)
    ensures FindTool(tools, name).Some? ==>
              forall j :: 0 <= j < FindTool(tools, name).value ==> NameOf(tools[j]) != name
    ensures FindTool(tools, name).None? <==> forall j :: 0 <= j < |tools| ==> NameOf(tools[j]) != name
    decreases |tools|
  {
    if tools != [] && NameOf(tools[0]) != name {
      FindToolIsFirstMatch(tools[1..], name);
      assert forall j :: 1 <= j < |tools| ==> tools[j] == tools[1..][j - 1];
    }
  }

  /** Lookup over a merged list `first + second`: a name that `first` has is
      resolved inside `first` (so on a name collision the earlier list wins),
      and a name `first` lacks is resolved inside `second`. */
  lemma {:induction false} FindToolInConcat(first: seq<Tool>, second: seq<Tool>, name: string)
    ensures FindTool(first, name).Some? ==> FindTool(first + second, name) == FindTool(first, name)
    ensures FindTool(first, name).None? && FindTool(second, name).None? ==> FindTool(first + second, name).None?
    ensures FindTool(first, name).None? && FindTool(second, name).Some? ==>
              FindTool(first + second, name) == Some(|first| + FindTool(second, name).value)
    decreases |first|
  {
    if first == [] {
      assert first + second == second;
    } else {
      assert (first + second)[0] == first[0];
      assert (first + second)[1..] == first[1..] + second;
      FindToolInConcat(first[1..], second, name);
    }
  }
}
