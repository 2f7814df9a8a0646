/** The behaviour of the local tools of src/tools/local_tools.py that does not
    depend on the network: the shaping of the document retrieval tool's
    result, the stock tool's API key fallback, its argument check and the
    quote URL it requests. The retriever and the HTTP request are oracles. */
module LocalTools {
  import opened PyValues
  import opened ToolModel

  /** A retrieved passage (`langchain_core.documents.Document`). */
  datatype Document = Document(pageContent: string, metadata: map<string, Value>)

  /** An opaque retriever handle; what it returns for a query is given by an
      oracle. */
  datatype Retriever = Retriever(handle: nat)

  /** `[doc.page_content for doc in result]` */
  function Contexts(docs: seq<Document>): (r: seq<Value>)
    ensures |r| == |docs|
    ensures forall i :: 0 <= i < |docs| ==> r[i] == Str(docs[i].pageContent)
  {
    if docs == [] then [] else [Str(docs[0].pageContent)] + Contexts(docs[1..])
  }

  /** `[doc.metadata for doc in result]` */
  function Metadatas(docs: seq<Document>): (r: seq<Value>)
    ensures |r| == |docs|
    ensures forall i :: 0 <= i < |docs| ==> r[i] == Dict(docs[i].metadata)
  {
    if docs == [] then [] else [Dict(docs[0].metadata)] + Metadatas(docs[1..])
  }

  /** The dict both `RAGTool._run` and `RAGTool._arun` return for the
      retrieved documents: the query unchanged under 'query', and under
      'context' and 'metadata' two lists aligned index by index with the
      documents. */
  function RagShape(query: Value, docs: seq<Document>): (r: Value)
    ensures r.Dict? && r.entries.Keys == {"query", "context", "metadata"}
    ensures r.entries["query"] == query
    ensures r.entries["context"].List? && |r.entries["context"].items| == |docs|
    ensures r.entries["metadata"].List? && |r.entries["metadata"].items| == |docs|
    ensures forall i :: 0 <= i < |docs| ==>
              && r.entries["context"].items[i] == Str(docs[i].pageContent)
              && r.entries["metadata"].items[i] == Dict(docs[i].metadata)
  {
    Dict(map["query" := query, "context" := List(Contexts(docs)), "metadata" := List(Metadatas(docs))])
  }

  /** `RAGTool._run(query, retriever=...)`: `retriever.invoke(query)`, then the
      shaping; an exception of the retriever propagates. */
  function RagRun(query: Value, invoke: Value -> Outcome<seq<Document>>): (r: Outcome<Value>)
    ensures invoke(query).Raised? ==> r == Raised(invoke(query).error)
    ensures invoke(query).Returned? ==> r == Returned(RagShape(query, invoke(query).value))
  {
    match invoke(query)
    case Raised(e) => Raised(e)
    case Returned(docs) => Returned(RagShape(query, docs))
  }

  /** `RAGTool._arun(query, retriever=...)`: `await retriever.ainvoke(query)`,
      then the same shaping. */
  function RagArun(query: Value, ainvoke: Value -> Outcome<seq<Document>>): (r: Outcome<Value>)
    ensures ainvoke(query).Raised? ==> r == Raised(ainvoke(query).error)
    ensures ainvoke(query).Returned? ==> r == Returned(RagShape(query, ainvoke(query).value))
  {
    match ainvoke(query)
    case Raised(e) => Raised(e)
    case Returned(docs) => Returned(RagShape(query, docs))
  }

  /** The synchronous and the asynchronous RAG paths give the same result
      whenever the retriever gives both the same documents. */
  lemma RagRunAgreesWithArun(query: Value, invoke: Value -> Outcome<seq<Document>>, ainvoke: Value -> Outcome<seq<Document>>)
    requires invoke(query) == ainvoke(query)
    ensures RagRun(query, invoke) == RagArun(query, ainvoke)
  {
  }

  /** `model_post_init`: `self.api_key or os.environ.get("ALPHAVANTAGE_API_KEY")`.
      A given non-empty key is kept; a missing or empty one is replaced by
      the environment's value (which may itself be missing). */
  function ResolveApiKey(given: Option<string>, env: Option<string>): (key: Option<string>)
    ensures given.Some? && given.value != "" ==> key == given
    ensures given.None? || given.value == "" ==> key == env
  {
    if given.Some? && given.value != "" then given else env
  }

  /** `StockPriceTool(api_key=given)`: pydantic runs `model_post_init` while
      constructing it. */
  function NewStockPriceTool(given: Option<string>, env: Option<string>): (t: Tool)
    ensures t.StockPrice? && t.apiKey == ResolveApiKey(given, env)
    ensures NameOf(t) == StockPriceName
  {
    StockPrice(ResolveApiKey(given, env))
  }

  const QuoteBase: string := "https://www.alphavantage.co/query?function=GLOBAL_QUOTE&symbol="
  const ApiKeyParam: string := "&apikey="
  /** `str(e)` of the ValueError `_run` raises for a bad symbol. */
  const SymbolError: string := "symbol must be a non-empty string"

  /** The f-string rendering of `self.api_key`: a missing key prints as "None". */
  function KeyText(apiKey: Option<string>): string
  {
    if apiKey.Some? then apiKey.value else "None"
  }

  /** `if not symbol or not isinstance(symbol, str)`: only a non-empty str
      passes. */
  predicate ValidSymbol(symbol: Value)
  {
    symbol.Str? && symbol.s != ""
  }

  /** What `StockPriceTool._run` does before and at the network: the request
      it sends (if any) and its result. */
  datatype Fetch = Fetch(result: Outcome<Value>, request: Option<string>)

  /** `StockPriceTool._run(symbol)` (and `_arun`, which calls it): a symbol
      that is not a non-empty string raises ValueError before any request is
      built; otherwise it requests the GLOBAL_QUOTE URL that embeds the symbol
      and the API key, and returns what `get` (request, status check, JSON
      decoding) gives. */
  function StockRun(symbol: Value, apiKey: Option<string>, get: string -> Outcome<Value>): (f: Fetch)
    ensures !ValidSymbol(symbol) ==> f == Fetch(Raised(SymbolError), None)
    ensures ValidSymbol(symbol) ==> f.request.Some? && f.result == get(f.request.value)
    ensures ValidSymbol(symbol) ==>
              var url := f.request.value;
              && |url| == |QuoteBase| + |symbol.s| + |ApiKeyParam| + |KeyText(apiKey)|
              && url[..|QuoteBase|] == QuoteBase
              && url[|QuoteBase|..|QuoteBase| + |symbol.s|] == symbol.s
              && url[|QuoteBase| + |symbol.s|..] == ApiKeyParam + KeyText(apiKey)
  {
    if !ValidSymbol(symbol) then Fetch(Raised(SymbolError), None)
    else
      var url := QuoteBase + symbol.s + ApiKeyParam + KeyText(apiKey);
      assert url[|QuoteBase|..|QuoteBase| + |symbol.s|] == symbol.s;
      Fetch(get(url), Some(url))
  }
}
