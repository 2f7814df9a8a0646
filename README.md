# Agent turn engine of the multiple-tool chatbot, in Dafny

This project models the core of a LangGraph chatbot backend that answers a
user's message with an OpenAI chat model and a set of tools: a DuckDuckGo
search, an Alpha Vantage stock quote, retrieval over a PDF attached to the
conversation thread (`rag_tool`), and tools discovered on MCP servers.

The model covers:

- the two-node graph (`agent` → `tools` → `agent` … → END), with its
  append-only message log and its routing rule;
- the normalisation of whatever the model backend returns into one message;
- the tool node: first-match lookup by name, the per-thread retriever
  injection for `rag_tool`, one tool message per call, and error absorption
  or propagation;
- the per-thread retriever and metadata tables;
- the registry: three local tools followed by the wrapped MCP tools, the
  MCP wrapping, the discovery loop, and the idempotent close;
- the HTTP layer: the 503 guard when no chatbot exists, the refusal of blank
  messages, the tool listing and its counts, the chat endpoints, the PDF
  upload, and the SSE frames of the streaming endpoint.

The model treats the language model, the tools' own work, the retriever and
the MCP client as oracles: function-typed parameters (the `World` datatype in
`manager.dfy`) that give a call's outcome, `Returned(value)` or
`Raised(error)`. Every call into a tool is recorded as an `Invocation`. That
makes "nothing was called" a statement about the model.

Files, one module each:

- `values.dfy` (`PyValues`): Python values, call outcomes, `dict.get`/`pop`.
- `messages.dfy` (`Messages`): messages, the state reducer, routing, response normalisation.
- `tool.dfy` (`ToolModel`): the tool variants, their names, and first-match lookup.
- `local_tools.dfy` (`LocalTools`): RAG result shaping, stock tool key and URL.
- `mcp_tool.dfy` (`McpTools`): `RemoteMCPTools`.
- `tools_manager.dfy` (`ToolsManagement`): the `ToolsManager` class.
- `sse.dfy` (`Sse`): `json.dumps({"content": c})` as Python writes it (ASCII
  output, `\uXXXX` escapes and surrogate pairs), the SSE frame, and a
  decoder proved to invert it.
- `manager.dfy` (`Manager`): the tool node, the graph run, and the `ChatbotManager` class.
- `api.dfy` (`Api`): the FastAPI endpoints of `main.py`.

## Model

| member | source | states |
|---|---|---|
| Messages.Reduce | src/backend/manager.py:23 | the merged log is the old log followed by the new messages: the old part is unchanged and the new part is exactly what the node returned |
| Messages.Apply | src/backend/manager.py:19-24 | applying an update keeps the thread id; the old log is a prefix of the new one, and the added suffix is the update's messages |
| Messages.ApplyTwice | src/backend/manager.py:23 | two updates applied in turn equal one update with their concatenation (the log is append-only and order-preserving) |
| Messages.ShouldContinue | src/backend/manager.py:134-140 | goes to `tools` exactly when the last message is an AI message with non-empty `tool_calls`, to END exactly when its `tool_calls` is empty, and raises exactly when the log is empty (`list index out of range`) or the last message is not an AI message (`'<class>' object has no attribute 'tool_calls'`); an exception is its `str(e)`, without the class name |
| Messages.CallsOf | src/backend/manager.py:185-190 | the calls read from the last message: an AI message's `tool_calls`, and none for any other message |
| Messages.Normalize | src/backend/manager.py:162-175 | the response's first carried value (the message itself, else `.message` whenever that attribute is present, even when it is `None`, else the first of a non-empty `.messages`, else the first list element), whether or not it is a message; with none, a HumanMessage holding the response's string form |
| Messages.ModelUpdate | src/backend/manager.py:177 | the agent node returns exactly one log entry, either one the response carries (a message or any other object, such as `None`) or the string-form fallback |
| Messages.MessageAttributeTakenAsIs | src/backend/manager.py:166-167 | a wrapper's `.message` is appended as it is, whatever `.messages` holds, and routing raises on it unless it is an AI message |
| Messages.NoneMessageAttributeRaises | src/backend/manager.py:166-167 | `.message = None` appends `None`, and routing raises `'NoneType' object has no attribute 'tool_calls'` |
| Messages.ClassName | src/backend/manager.py:138 | the class name that the AttributeError reports: a langchain class name ending in `Message`, or the foreign object's own class |
| Messages.NoToolCalls | src/backend/manager.py:138 | `str(e)` of that AttributeError: the class name in single quotes, then `object has no attribute 'tool_calls'` |
| Messages.FallbackThenRoutingRaises | src/backend/manager.py:138-175 | a response that carries no message makes the routing step raise `'HumanMessage' object has no attribute 'tool_calls'`, since the HumanMessage fallback has no `tool_calls` |
| PyValues.GetOrNull | src/backend/manager.py:216 | `tc_args.get("query")`: the stored value, or None when the key is absent |
| PyValues.Without | src/backend/manager.py:224-225 | `tc_args.pop('thread_id', None)`: the key is removed and every other entry is kept |
| ToolModel.FindTool | src/backend/manager.py:200 | a found index is in range, and the tool there has exactly the requested name |
| ToolModel.FindToolIsFirstMatch | src/backend/manager.py:200 | no earlier tool has the name, and the result is None exactly when no tool has it |
| ToolModel.FindToolInConcat | src/backend/manager.py:200 | on `first + second`, a name found in `first` resolves to the same place; a name only in `second` resolves to its place there shifted by the length of `first`; a name in neither resolves to None |
| LocalTools.Contexts | src/tools/local_tools.py:86-88 | one context per document, in order, holding its `page_content` |
| LocalTools.Metadatas | src/tools/local_tools.py:86-89 | one metadata entry per document, in order, holding its metadata |
| LocalTools.RagShape | src/tools/local_tools.py:83-95 | the result dict has exactly the keys query/context/metadata; the query is echoed unchanged; context and metadata follow the documents index by index |
| LocalTools.RagRun | src/tools/local_tools.py:70-81 | the retriever's exception propagates; otherwise the result is the shaped dict of the documents it returned |
| LocalTools.RagArun | src/tools/local_tools.py:83-95 | the same, for the awaited retriever call |
| LocalTools.RagRunAgreesWithArun | src/tools/local_tools.py:70-95 | the sync and async paths give the same result when the retriever gives both the same documents |
| LocalTools.ResolveApiKey | src/tools/local_tools.py:33-35 | a given non-empty key is kept; a missing or empty one is replaced by the environment's value |
| LocalTools.NewStockPriceTool | src/tools/local_tools.py:20-35 | the constructed tool is named `stock_price` and holds the resolved key |
| LocalTools.StockRun | src/tools/local_tools.py:37-47 | a symbol that is not a non-empty string raises ValueError, whose text is the message `_run` gives it, and no request is built; otherwise the request URL is the GLOBAL_QUOTE base, then the symbol, then `&apikey=` and the key (`None` when missing), and the result is that request's outcome |
| McpTools.AsyncInit | src/tools/mcp_tool.py:10-30 | the given client is kept; with none, the client `MCPClient()` creates is used |
| McpTools.MakeLangchainTool | src/tools/mcp_tool.py:32-60 | a StructuredTool bound to the MCP handle, keeping its name, with its description or "MCP tool" when that is empty |
| McpTools.RunToolArgs | src/tools/mcp_tool.py:49 | `{"query": q}` for a non-empty query, `{}` for an empty one |
| McpTools.RunTool | src/tools/mcp_tool.py:41-54 | the client's result is returned; an exception is returned as the string "Error: <e>" and never raised |
| McpTools.Converted | src/tools/mcp_tool.py:69-72 | one wrapped tool per MCP tool, in discovery order |
| McpTools.LoadTools | src/tools/mcp_tool.py:62-77 | the loop builds exactly `Converted` of the discovered tools; a failed discovery gives `[]` without raising |
| McpTools.CloseAction | src/tools/mcp_tool.py:83-92 | awaits `aclose` exactly when it is a coroutine; otherwise awaits or calls `close` according to whether that is a coroutine; with neither, does nothing (each case as an if-and-only-if) |
| ToolsManagement.LocalToolList | src/core/tools_manager.py:16 | exactly three local tools, in this order: the search tool `duckduckgo_search`, the stock tool `stock_price` with no explicit key, and `rag_tool` |
| ToolsManagement.MergedTools | src/core/tools_manager.py:41-45 | the local tools, then the remote ones, each in its own order (nothing is removed) |
| ToolsManagement.LocalWinsOnCollision | src/core/tools_manager.py:41-45 | when a local tool has the name, lookup in the merged list picks that local tool |
| ToolsManagement.CollisionKeepsBoth | src/core/tools_manager.py:41-45 | a local and a remote tool with the same name both stay in the merged list |
| ToolsManagement.ToolsManager.constructor | src/core/tools_manager.py:9-18 | the flag and client are stored, the local list is built, and there is no remote manager |
| ToolsManagement.ToolsManager.Create | src/core/tools_manager.py:20-28 | a remote manager is set exactly when MCP is enabled |
| ToolsManagement.ToolsManager.RemoteTools | src/core/tools_manager.py:42-47 | no remote tools when MCP is off, when there is no remote manager, or when discovery raises; otherwise the converted discovered tools |
| ToolsManagement.ToolsManager.GetAllTools | src/core/tools_manager.py:39-48 | the merge of the local and remote tools; it changes no field, never raises, and gives the local tools when MCP is off or discovery fails |
| ToolsManagement.ToolsManager.Aclose | src/core/tools_manager.py:58-62 | with a remote manager, runs its close dispatch and drops the manager unless the close raised; without one, does nothing |
| ToolsManagement.AcloseTwice | src/core/tools_manager.py:58-62 | after an `aclose` that did not raise, a second one performs nothing; the local tools, the MCP flag and the configured client stay the same |
| Sse.Hex4RoundTrip | src/backend/manager.py:284 | the four hex digits of a `\u` escape decode back to the code unit |
| Sse.DecodeEscapeChar | src/backend/manager.py:284 | each character's JSON escape (short escape, `\uXXXX`, or surrogate pair) decodes back to that character |
| Sse.EscapeChar | src/backend/manager.py:284 | `json.dumps` keeps a character exactly when it is printable ASCII other than `"` and `\`, and otherwise writes an escape starting with a backslash |
| Sse.JsonEscape | src/backend/manager.py:284 | the escaped text is never shorter than the chunk, and empty only for an empty chunk |
| Sse.JsonEscapeKeepsPlain | src/backend/manager.py:284 | a chunk of plain printable ASCII is written unchanged |
| Sse.UnescapeJsonEscape | src/backend/manager.py:284 | the JSON string encoding of any text decodes back to that text |
| Sse.Frame | src/backend/manager.py:284-285 | a frame is `data: {"content": "`, then the escaped text, then `"}` and a blank line |
| Sse.FrameRoundTrip | src/backend/manager.py:284-285 | parsing a frame gives back the chunk it carries |
| Sse.JsonEscapePrintable | src/backend/manager.py:284 | the escaped text is printable ASCII only |
| Sse.FrameSingleLine | src/backend/manager.py:284-285 | no line break occurs inside a frame before its closing blank line, so a chunk cannot break the SSE framing |
| Manager.NotFound | src/backend/manager.py:203-204 | the output for an unknown tool is the error text `Error: Tool '<name>' not found.`: the prefix, then the requested name, then the suffix |
| Manager.ArunOf | src/backend/manager.py:216 | RAGTool's `_arun` with the thread's retriever gives the shaped retrieval result, or the retriever's exception; another tool's `_arun` is its oracle |
| Manager.Cleaned | src/backend/manager.py:224-225 | a `rag_tool` call's arguments lose exactly `thread_id`; other calls' arguments are untouched |
| Manager.DispatchOne | src/backend/manager.py:199-221 | an unknown name gives the not-found text, and a `rag_tool` call on a thread with no retriever gives the no-document error dict; nothing is called exactly in these two cases; an escaping exception implies a tool was called |
| Manager.DispatchOneCalls | src/backend/manager.py:199-221 | every call goes to the first tool with the name; a non-rag call is one `ainvoke(args)` whose outcome is the output; a rag call first runs `_arun(query, retriever)` and, when that raises, falls back to `ainvoke(args, retriever)` |
| Manager.DispatchAll | src/backend/manager.py:192-231 | one argument set per call |
| Manager.DispatchAllKeepsArgs | src/backend/manager.py:224-225 | a call other than `rag_tool` keeps its arguments, whether the node returns or raises |
| Manager.DispatchAllAnswersEach | src/backend/manager.py:193-231 | when the node returns, it gives one tool message per call, in order, carrying that call's output, id and name, and every call's arguments are cleaned |
| Manager.DispatchAllReturnsIff | src/backend/manager.py:193-231 | the node returns exactly when no call's handling raises |
| Manager.DispatchAllRaises | src/backend/manager.py:193-221 | a raising node raises the first raising call's exception, after the calls of the calls before it and of that call only |
| Manager.DispatchAllInvoked | src/backend/manager.py:193-221 | a returning node has made exactly the calls of its calls, one after the other |
| Manager.NothingInvokedForUnresolved | src/backend/manager.py:200-210 | when every call is unknown or asks `rag_tool` without a document, the node returns and calls nothing |
| Manager.InvokedAreResolved | src/backend/manager.py:200 | every tool called is the first registered tool bearing one call's name |
| Manager.DocumentEnablesRag | src/backend/manager.py:207-216 | once a thread has a retriever, a `rag_tool` call on it reaches the tool with that retriever and the call's query |
| Manager.RetrieverIsPerThread | src/backend/manager.py:208 | setting one thread's retriever changes nothing for a call on another thread |
| McpTools.McpQuery | src/tools/mcp_tool.py:41 | the query `run_tool` receives: the string argument, or `""` when there is none; a non-string query is refused |
| Manager.McpCallAnswered | src/tools/mcp_tool.py:47-54 | a call resolved to a wrapped MCP tool is answered by `run_tool`: the client's result, or `Error: <e>` when the client raises |
| Manager.McpRoundNeverRaises | src/tools/mcp_tool.py:47-54 | a tool round made only of MCP calls (or unknown names) never raises, whatever the MCP server does |
| Manager.ToolsStep | src/backend/manager.py:185 | an empty log raises IndexError, whose text is `list index out of range`, and calls nothing |
| Manager.AgentStep | src/backend/manager.py:142-177 | the model's exception escapes; otherwise the log grows by exactly the normalised message |
| Manager.RunGraph | src/backend/manager.py:107-140 | a finished run ends with an AI message without tool calls; an unfinished one ends with an AI message with tool calls; both only append to the log and keep the thread id |
| Manager.ToolRoundAnswersCalls | src/backend/manager.py:193-231 | a tool round answers the routing AI message's calls: one tool message each, in order, with matching id and name |
| Manager.DirectAnswer | src/backend/manager.py:134-140 | a model answer without tool calls ends the run after one step, with that answer appended |
| Manager.UnknownToolRound | src/backend/manager.py:200-204 | a round through an unknown tool ends with the log question, call, not-found message, answer |
| Manager.UnknownToolAnswered | src/backend/manager.py:200-204 | a single unknown call is answered with the not-found text |
| Manager.StreamedChunks | src/backend/manager.py:278-282 | only non-empty chunks are forwarded, never more than there are events |
| Manager.StreamFrames | src/backend/manager.py:278-285 | one frame per forwarded chunk, in order |
| Manager.StreamFramesDecode | src/backend/manager.py:278-285 | each frame decodes back to its chunk, so a client recovers the chunks exactly and in order |
| Manager.StreamedChunksFrom | src/backend/manager.py:279-282 | every forwarded chunk came from a chat model stream event |
| Manager.StreamedChunksOne | src/backend/manager.py:278-282 | one event yields its content exactly when it is a chat model stream chunk with non-empty content, and nothing otherwise |
| Manager.StreamedChunksAppend | src/backend/manager.py:278-282 | the chunks of two runs of events, one after the other, are the chunks of the first followed by those of the second, so chunks keep event order |
| Manager.StreamedChunksIncludes | src/backend/manager.py:279-282 | every non-empty chat model stream chunk among the events is forwarded |
| Manager.StreamFramesSnoc | src/backend/manager.py:278-285 | one more event adds one frame exactly when it is a non-empty chat model stream chunk, and none otherwise |
| Manager.AsWrittenAdd | src/backend/manager.py:100-101 | as written, adding a document never returns and never raises FileNotFoundError |
| Manager.ChatbotManager.constructor | src/backend/manager.py:32-56 | with a tools manager, its local tools; without, the fallback list RAG, stock price, search; both tables empty |
| Manager.ChatbotManager.Create | src/backend/manager.py:64-94 | the tools manager is built with no explicit MCP client, holding a remote manager on the created client exactly when MCP is enabled; the tools are the local tools, followed by the discovered MCP tools when MCP is enabled and discovery succeeds |
| Manager.ChatbotManager.AddDocumentToThread | src/backend/manager.py:96-105 | as written: ends in `AsWrittenAdd` and changes neither table |
| Manager.ChatbotManager.AddDocumentFromPath | src/backend/manager.py:96-105 | on success, overwrites the thread's retriever and `{"filename": path}` metadata and keeps every other thread's entries; a missing file or other failure changes nothing |
| Manager.ChatbotManager.CallTool | src/backend/manager.py:179-231 | the loop computes `ToolsStep` on the manager's tools and retriever table |
| Manager.ChatbotManager.Invoke | src/backend/manager.py:244-262 | the run starts from the human message alone; a reply is the content of the final AI message; a raised run gives its exception |
| Manager.ChatbotManager.Stream | src/backend/manager.py:264-285 | the generator loop yields exactly `StreamFrames` of the events emitted before the run ended, and then raises the exception that ended it, if any |
| Manager.ChatbotManager.Aclose | src/backend/manager.py:233-236 | closes the tools manager when there is one, otherwise does nothing; an error is reported exactly when the close call performed raised; the manager's local tools, MCP flag and client stay unchanged |
| Api.TrimStart | main.py:121 | removes exactly the leading whitespace |
| Api.TrimEnd | main.py:121 | removes exactly the trailing whitespace |
| Api.StripIsTrimmedSlice | main.py:121-126 | `strip()` keeps a contiguous slice with non-whitespace ends, and removes only whitespace around it |
| Api.Strip | main.py:121 | `strip()` is no longer than the message and neither starts nor ends with whitespace |
| Api.Blank | main.py:121 | the empty-message guard holds exactly when every character is whitespace |
| Api.StripEmptyIff | main.py:121-122 | a message strips to nothing exactly when all of it is whitespace |
| Api.StripIdempotent | main.py:121 | a property of the `strip()` helper, which the endpoints apply once: its result has nothing left to strip |
| Api.Health | main.py:63-72 | 503 exactly when there is no chatbot; otherwise healthy, with the number of tools |
| Api.EntryIsMcpIff | main.py:85-86 | a tool is listed as MCP exactly when it is a StructuredTool wrapper |
| Api.Contains | main.py:86 | a match needs `p` no longer than `s`, and a prefix equal to `p` is a match |
| Api.ContainsIffOccurs | main.py:86 | the search agrees with `p in s`: found exactly when `p` occurs at some index |
| Api.EntryOf | main.py:83-92 | an entry shows the tool's name, description and class name, and is MCP exactly when the class name contains `StructuredTool` |
| Api.CountLocal | main.py:95 | the local count is at most the number of entries, and zero exactly when every entry is MCP |
| Api.CountMcp | main.py:96 | the MCP count is at most the number of entries, and zero exactly when no entry is MCP |
| Api.CountsAddUp | main.py:95-96 | the local and MCP counts add up to the number of entries |
| Api.McpCountIsStructured | main.py:96 | the MCP count is the number of StructuredTool wrappers |
| Api.ListTools | main.py:75-103 | 503 without a chatbot; otherwise one entry per tool in order, a total equal to the number of tools, and local + MCP equal to the total |
| Api.ChatStream | main.py:106-130 | 503 without a chatbot, 400 for a blank message before anything runs; otherwise status 200 with the frames of a turn on the stripped message, even when the turn raises part-way (the stream is then cut short and no 500 is sent) |
| Api.ChatInvoke | main.py:133-160 | 503 without a chatbot, 400 for a blank message; a finished turn on the stripped message answers with the final AI content and echoes the unstripped message; a raised turn gives 500 "Error: <e>" |
| Api.FallbackAnswersServerError | main.py:133-160 | a model response that carries no message makes `POST /chat` answer 500 `Error: 'HumanMessage' object has no attribute 'tool_calls'` |
| Api.UploadReply | main.py:178-189 | success alone gives the confirmation; FileNotFoundError gives 404 with its text; any other exception gives 500 "Error: <e>" |
| Api.UploadAsWrittenNeverSucceeds | main.py:178-189 | as written, every upload answers 500 |
| Api.UploadPdf | main.py:163-189 | as written: 503 without a chatbot, otherwise the reply for `AsWrittenAdd`, with both tables, the tools and the tools manager unchanged |
| Api.UploadPdfIntended | main.py:163-189 | as intended: success sets the thread's retriever and metadata and confirms; a missing file gives 404 and another failure 500, and both leave both tables unchanged; the tools never change |

## Left out

- Async execution, the event loop, LangGraph's compilation and scheduling: each await is an ordinary call, and the graph is the recursive `Manager.RunGraph`.
- Sse.EscapeChar: a Python `str` can hold a lone surrogate, which `json.dumps` writes as a single `\udXXX` escape. A Dafny `char` cannot hold one, so that case is not modelled.
- Manager.RunGraph: a `fuel` parameter bounds the number of tool rounds. The source has no cap, and LangGraph's `recursion_limit` is library behaviour that is not modelled. A run that needs more rounds is `Unfinished`.
- Api.ChatInvoke: gives `None` for an `Unfinished` run. That is an artefact of the fuel bound, not a behaviour of the endpoint.
- The checkpointer: `main.py` creates the chatbot without one, so each turn starts from the new human message alone. No earlier turn is restored.
- The language model, the tools' own work (`ainvoke`/`_arun`), the retriever, and the MCP client's discovery, call and close: all are oracles.
- `bind_tools` and the debug logging in `_call_model` (src/backend/manager.py:147-154) are not modelled.
- `str(output)` of a tool message: the message keeps the output value. Python's `repr` of dicts and lists is not modelled.
- The in-place `pop('thread_id')` on the AI message's own argument dict: the model reports the arguments after each call (`argsAfter`). It does not model that the log's AI message sees this change through aliasing.
- The `getattr` fallbacks for calls given as objects (src/backend/manager.py:195-197) are not modelled: calls are records with id, name and arguments.
- `tc_args or {}`: an empty argument dict and `{}` coincide.
- The Alpha Vantage request, its status check and JSON decoding are the oracle `get`. The API key comes from the environment, which is a parameter.
- LocalTools.StockRun: the check `isinstance(symbol, str)` is modelled on the `Value` type, and pydantic's argument parsing before `_run` is not modelled.
- The name/description `getattr` fallbacks of the tool listing (main.py:83-84) never apply: every modelled tool has both attributes.
- `ChatModelProvider` and the FastAPI lifespan that creates the chatbot are not modelled: they read configuration and build OpenAI clients. The chatbot is a parameter that may be null.
- Manager.ChatbotManager.Stream: the events of `astream_events` and the exception that ends them early are an oracle. The oracle is not tied to `Manager.RunGraph`, so the model does not prove that the streamed run is the same run `invoke` performs.
- Messages.Normalize / Messages.ModelUpdate: a wrapper's `.messages` is taken to be a sequence, and a value that is not a langchain message is kept only as its class name (`Foreign`). Indexing a `.messages` that is not a sequence is not modelled, and neither are the contents of a foreign object.
- Manager.Event: a chunk's content is a string. Chunk content given as a list of content blocks is not modelled.
- Manager.AinvokeRunsMcp: `StructuredTool.ainvoke` itself (argument parsing, callbacks) is library code. The model states it as this assumption about the `World` oracle, and the lemmas about MCP calls take it as a precondition.
- `vector_store.py` is not part of this model: PDF loading, splitting, embeddings and FAISS are the `Ingest` oracle of the corrected upload.
- `mcp_client.py`, `llm_provider.py`, `logger.py`, `utils/list_tools.py` and the Streamlit frontend are not part of this model.
- The synchronous wrappers (`create_sync`, `get_all_tools_sync`, `load_tools_sync`, `close`) and the `__aenter__`/`__aexit__` context managers are not modelled.
- A model response's `tool_calls` may in principle be present on its wrapper objects. The model follows langchain's classes, where only an AI message has `tool_calls`, so routing on any other last message raises AttributeError.
- Behaviours of the code that the model keeps, though a reader might not expect them:
  - the response fallback builds a HumanMessage, on which routing then raises;
  - exceptions of tools other than `rag_tool` escape the tool node;
  - the merged tool list is not deduplicated;
  - the agent/tools cycle has no cap.

## Findings

| source | as written | input that shows it | evidently intended | confidence | as-written member | corrected member |
|---|---|---|---|---|---|---|
| src/backend/manager.py:100-104, main.py:179 | `add_document_to_thread` calls `VectorStoreManager.create_from_upload`, which the class does not define, and `upload_pdf` passes a path string where an upload with `.filename` is expected; every upload raises AttributeError and answers 500 | `POST /upload-pdf/t1?pdf_path=doc.pdf` on a running chatbot, whatever the file | index the PDF at the path, set the thread's retriever and `{"filename": path}` metadata, and answer 404 for a missing file | not executed | Api.UploadAsWrittenNeverSucceeds | Api.UploadPdfIntended |
