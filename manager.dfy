/** `ChatbotManager` of src/backend/manager.py: the tool node's dispatch of
    the model's tool calls, the agent/tools graph run, the per-thread
    retriever and metadata tables, the non-streaming and streaming entry
    points and the lifecycle. The language model, the tools, the retrievers
    and the PDF indexing are oracles. */
module Manager {
  import opened PyValues
  import opened Messages
  import opened ToolModel
  import opened LocalTools
  import opened McpTools
  import opened ToolsManagement
  import opened Sse

  /** What the engine calls outside itself, as deterministic oracles:
      - llm: the tool-bound model's `ainvoke` on the bound tools and the log;
      - ainvoke: a tool's `ainvoke(args)`, with the retriever keyword when one
        is passed;
      - arun: the `_arun(query, retriever=...)` coroutine of a tool other
        than RAGTool;
      - retrieve: a retriever's `ainvoke(query)`. */
  datatype World = World(
    llm: (seq<Tool>, seq<Message>) -> Outcome<Response>,
    ainvoke: (Tool, Args, Option<Retriever>) -> Outcome<Value>,
    arun: (Tool, Value, Retriever) -> Outcome<Value>,
    retrieve: (Retriever, Value) -> Outcome<seq<Document>>)

  /** One call into a tool made by the tool node. */
  datatype Invocation =
    | Ainvoke(tool: Tool, args: Args, retriever: Option<Retriever>)
    | Arun(tool: Tool, query: Value, using: Retriever)

  const NoDocumentMessage: string := "No document indexed for this chat. Upload a PDF first."

  /** The output for a `rag_tool` call on a thread without a document. */
  const NoDocumentError: Value := Dict(map["error" := Str(NoDocumentMessage)])

  /** The output for a call whose name no registered tool has: an error
      text that carries the requested name. */
  function NotFound(name: string): (v: Value)
    ensures v.Str? && |v.s| == |name| + 25
    ensures v.s[..13] == "Error: Tool '" && v.s[13..13 + |name|] == name
    ensures v.s[13 + |name|..] == "' not found."
  {
    Str("Error: Tool '" + name + "' not found.")
  }

  /** `str(e)` of the IndexError of `state["messages"][-1]` on an empty log. */
  const IndexErrorMessage: string := "list index out of range"

  /** `tool._arun(query, retriever=r)`: RAGTool's own coroutine, or the
      tool's coroutine for any other tool that is registered as "rag_tool". */
  function ArunOf(t: Tool, query: Value, r: Retriever, w: World): (o: Outcome<Value>)
    ensures t.Rag? && w.retrieve(r, query).Raised? ==> o == Raised(w.retrieve(r, query).error)
    ensures t.Rag? && w.retrieve(r, query).Returned? ==> o == Returned(RagShape(query, w.retrieve(r, query).value))
    ensures !t.Rag? ==> o == w.arun(t, query, r)
  {
    if t.Rag? then RagArun(query, q => w.retrieve(r, q)) else w.arun(t, query, r)
  }

  // ---------------------------------------------------------------- one call

  /** What handling one tool call gives: the output (or the exception that
      escapes the tool node) and the calls into tools it made, in order. */
  datatype Step = Step(output: Outcome<Value>, invoked: seq<Invocation>)

  /** The body of the loop of `_call_tool` for one call: the first registered
      tool with the call's name is resolved; an unknown name and a
      `rag_tool` call on a thread with no retriever give an error output
      without calling anything; a `rag_tool` call otherwise awaits the
      tool's `_arun` with the query and the thread's retriever, and if that
      raises, `ainvoke` with the arguments and the retriever (whose own
      exception escapes); any other call awaits `ainvoke(args)`, whose
      exception escapes. */
  function DispatchOne(tools: seq<Tool>, retrievers: map<string, Retriever>, threadId: string,
                       call: ToolCall, w: World): (st: Step)
    ensures FindTool(tools, call.name).None? ==> st == Step(Returned(NotFound(call.name)), [])
    ensures FindTool(tools, call.name).Some? && call.name == RagName && threadId !in retrievers ==>
              st == Step(Returned(NoDocumentError), [])
    ensures st.invoked == [] <==>
              FindTool(tools, call.name).None? || (call.name == RagName && threadId !in retrievers)
    ensures st.output.Raised? ==> st.invoked != []
  {
    match FindTool(tools, call.name)
    case None => Step(Returned(NotFound(call.name)), [])
    case Some(k) =>
      var t := tools[k];
      if call.name == RagName then
        if threadId !in retrievers then Step(Returned(NoDocumentError), [])
        else
          var r := retrievers[threadId];
          var query := GetOrNull(call.args, "query");
          match ArunOf(t, query, r, w)
          case Returned(v) => Step(Returned(v), [Arun(t, query, r)])
          case Raised(_) => Step(w.ainvoke(t, call.args, Some(r)), [Arun(t, query, r), Ainvoke(t, call.args, Some(r))])
      else
        Step(w.ainvoke(t, call.args, None), [Ainvoke(t, call.args, None)])
  }

  /** Which calls handling one call makes: all go to the first registered
      tool with the call's name; a call other than `rag_tool` is one
      `ainvoke(args)` whose result is the output; a `rag_tool` call on a
      thread with a retriever first awaits `_arun` with the call's query and
      the thread's retriever, whose result is the output when it returns,
      and otherwise falls back to `ainvoke(args, retriever=...)`. */
  lemma DispatchOneCalls(tools: seq<Tool>, retrievers: map<string, Retriever>, threadId: string,
                         call: ToolCall, w: World)
    requires FindTool(tools, call.name).Some?
    ensures var st := DispatchOne(tools, retrievers, threadId, call, w);
            var t := tools[FindTool(tools, call.name).value];
            && (forall k :: 0 <= k < |st.invoked| ==> st.invoked[k].tool == t)
            && (call.name != RagName ==>
                  st.invoked == [Ainvoke(t, call.args, None)] && st.output == w.ainvoke(t, call.args, None))
            && (call.name == RagName && threadId in retrievers ==>
                  var r := retrievers[threadId];
                  var query := GetOrNull(call.args, "query");
                  var direct := ArunOf(t, query, r, w);
                  && st.invoked[0] == Arun(t, query, r)
                  && (direct.Returned? ==> st == Step(direct, [Arun(t, query, r)]))
                  && (direct.Raised? ==>
                        st.invoked == [Arun(t, query, r), Ainvoke(t, call.args, Some(r))]
                        && st.output == w.ainvoke(t, call.args, Some(r))))
  {
  }

  /** A call's arguments after the loop body: `tc_args.pop('thread_id', None)`
      for a `rag_tool` call, untouched otherwise. */
  function Cleaned(call: ToolCall): (a: Args)
    ensures call.name == RagName ==>
              && "thread_id" !in a
              && a.Keys == call.args.Keys - {"thread_id"}
              && forall k :: k in a ==> a[k] == call.args[k]
    ensures call.name != RagName ==> a == call.args
  {
    if call.name == RagName then Without(call.args, "thread_id") else call.args
  }

  /** The arguments of the calls, as the model requested them. */
  function ArgsOf(calls: seq<ToolCall>): (r: seq<Args>)
    ensures |r| == |calls|
    ensures forall i :: 0 <= i < |calls| ==> r[i] == calls[i].args
  {
    if calls == [] then [] else [calls[0].args] + ArgsOf(calls[1..])
  }

  // ---------------------------------------------------------------- the tool node

  /** What the tool node gives for a list of calls: the tool messages (or
      the exception that escapes), the calls into tools made, and each
      call's arguments afterwards. */
  datatype ToolNodeResult = ToolNodeResult(outcome: Outcome<seq<Message>>, invoked: seq<Invocation>, argsAfter: seq<Args>)

  /** The results of already handled calls put in front of the result for
      the remaining ones. */
  function Prepend(outputs: seq<Message>, invoked: seq<Invocation>, argsAfter: seq<Args>, rest: ToolNodeResult): ToolNodeResult
  {
    ToolNodeResult(
      match rest.outcome
      case Returned(ms) => Returned(outputs + ms)
      case Raised(e) => Raised(e),
      invoked + rest.invoked,
      argsAfter + rest.argsAfter)
  }

  lemma PrependPrepend(o1: seq<Message>, i1: seq<Invocation>, a1: seq<Args>,
                       o2: seq<Message>, i2: seq<Invocation>, a2: seq<Args>, rest: ToolNodeResult)
    ensures Prepend(o1, i1, a1, Prepend(o2, i2, a2, rest)) == Prepend(o1 + o2, i1 + i2, a1 + a2, rest)
  {
    assert i1 + (i2 + rest.invoked) == (i1 + i2) + rest.invoked;
    assert a1 + (a2 + rest.argsAfter) == (a1 + a2) + rest.argsAfter;
    if rest.outcome.Returned? {
      assert o1 + (o2 + rest.outcome.value) == (o1 + o2) + rest.outcome.value;
    }
  }

  /** The loop of `_call_tool` over the calls, in order: each handled call
      adds one tool message carrying its output, its id and its name, and
      leaves its arguments cleaned; the first exception stops the loop and
      escapes, leaving the calls from that one on with their arguments as
      requested. */
  function DispatchAll(tools: seq<Tool>, retrievers: map<string, Retriever>, threadId: string,
                       calls: seq<ToolCall>, w: World): (r: ToolNodeResult)
    ensures |r.argsAfter| == |calls|
    decreases |calls|
  {
    if calls == [] then ToolNodeResult(Returned([]), [], [])
    else
      var c := calls[0];
      var one := DispatchOne(tools, retrievers, threadId, c, w);
      match one.output
      case Raised(e) => ToolNodeResult(Raised(e), one.invoked, ArgsOf(calls))
      case Returned(v) =>
        var rest := DispatchAll(tools, retrievers, threadId, calls[1..], w);
        Prepend([ToolResult(v, c.id, c.name)], one.invoked, [Cleaned(c)], rest)
  }

  /** A call other than `rag_tool` keeps its arguments, whether the tool
      node returns or raises. */
  lemma {:induction false} DispatchAllKeepsArgs(tools: seq<Tool>, retrievers: map<string, Retriever>, threadId: string,
                                                calls: seq<ToolCall>, w: World)
    ensures forall i :: 0 <= i < |calls| && calls[i].name != RagName ==>
              DispatchAll(tools, retrievers, threadId, calls, w).argsAfter[i] == calls[i].args
    decreases |calls|
  {
    if calls != [] && DispatchOne(tools, retrievers, threadId, calls[0], w).output.Returned? {
      DispatchAllKeepsArgs(tools, retrievers, threadId, calls[1..], w);
      assert forall i :: 1 <= i < |calls| ==> calls[i] == calls[1..][i - 1];
    }
  }

  /** When the tool node returns, it has one tool message per call, in
      order, carrying that call's output, id and name, and every call's
      arguments are the cleaned ones. */
  lemma {:induction false} DispatchAllAnswersEach(tools: seq<Tool>, retrievers: map<string, Retriever>, threadId: string,
                                                  calls: seq<ToolCall>, w: World)
    requires DispatchAll(tools, retrievers, threadId, calls, w).outcome.Returned?
    ensures var r := DispatchAll(tools, retrievers, threadId, calls, w);
            && |r.outcome.value| == |calls|
            && forall i :: 0 <= i < |calls| ==>
                 && DispatchOne(tools, retrievers, threadId, calls[i], w).output.Returned?
                 && r.outcome.value[i] == ToolResult(DispatchOne(tools, retrievers, threadId, calls[i], w).output.value,
                                                     calls[i].id, calls[i].name)
                 && r.argsAfter[i] == Cleaned(calls[i])
    decreases |calls|
  {
    if calls != [] {
      DispatchAllAnswersEach(tools, retrievers, threadId, calls[1..], w);
      assert forall i :: 1 <= i < |calls| ==> calls[i] == calls[1..][i - 1];
    }
  }

  /** One step of the loop: the result for a non-empty list of calls, in
      terms of the first call and the result for the others. */
  lemma DispatchAllUnfold(tools: seq<Tool>, retrievers: map<string, Retriever>, threadId: string,
                          calls: seq<ToolCall>, w: World)
    requires calls != []
    ensures var one := DispatchOne(tools, retrievers, threadId, calls[0], w);
            DispatchAll(tools, retrievers, threadId, calls, w)
            == if one.output.Raised? then ToolNodeResult(Raised(one.output.error), one.invoked, ArgsOf(calls))
               else Prepend([ToolResult(one.output.value, calls[0].id, calls[0].name)], one.invoked, [Cleaned(calls[0])],
                            DispatchAll(tools, retrievers, threadId, calls[1..], w))
  {
  }

  /** `DispatchAllUnfold` for the suffix of the calls from `i` on. */
  lemma DispatchAllSuffixUnfold(tools: seq<Tool>, retrievers: map<string, Retriever>, threadId: string,
                                calls: seq<ToolCall>, i: nat, w: World)
    requires i < |calls|
    ensures var one := DispatchOne(tools, retrievers, threadId, calls[i], w);
            DispatchAll(tools, retrievers, threadId, calls[i..], w)
            == if one.output.Raised? then ToolNodeResult(Raised(one.output.error), one.invoked, ArgsOf(calls[i..]))
               else Prepend([ToolResult(one.output.value, calls[i].id, calls[i].name)], one.invoked, [Cleaned(calls[i])],
                            DispatchAll(tools, retrievers, threadId, calls[i + 1..], w))
  {
    assert calls[i..][0] == calls[i] && calls[i..][1..] == calls[i + 1..];
    DispatchAllUnfold(tools, retrievers, threadId, calls[i..], w);
  }

  /** The tool node returns its messages exactly when no call's handling
      raises. */
  lemma {:induction false} DispatchAllReturnsIff(tools: seq<Tool>, retrievers: map<string, Retriever>, threadId: string,
                                                 calls: seq<ToolCall>, w: World)
    ensures DispatchAll(tools, retrievers, threadId, calls, w).outcome.Returned? <==>
              forall i :: 0 <= i < |calls| ==> DispatchOne(tools, retrievers, threadId, calls[i], w).output.Returned?
  {
    if calls != [] {
      DispatchAllReturnsIff(tools, retrievers, threadId, calls[1..], w);
      assert forall i :: 1 <= i < |calls| ==> calls[1..][i - 1] == calls[i];
    }
  }

  /** When the tool node raises, the exception is the one of the first call
      whose handling raised, and the tools called are exactly those of the
      calls up to and including it. */
  lemma {:induction false} DispatchAllRaises(tools: seq<Tool>, retrievers: map<string, Retriever>, threadId: string,
                                             calls: seq<ToolCall>, w: World) returns (j: nat)
    requires DispatchAll(tools, retrievers, threadId, calls, w).outcome.Raised?
    ensures j < |calls|
    ensures forall i :: 0 <= i < j ==> DispatchOne(tools, retrievers, threadId, calls[i], w).output.Returned?
    ensures DispatchOne(tools, retrievers, threadId, calls[j], w).output
            == Raised(DispatchAll(tools, retrievers, threadId, calls, w).outcome.error)
    ensures DispatchAll(tools, retrievers, threadId, calls, w).invoked == InvokedBy(tools, retrievers, threadId, calls[..j + 1], w)
  {
    var one := DispatchOne(tools, retrievers, threadId, calls[0], w);
    var all := DispatchAll(tools, retrievers, threadId, calls, w);
    if one.output.Raised? {
      j := 0;
      assert all == ToolNodeResult(Raised(one.output.error), one.invoked, ArgsOf(calls));
      var prefix := calls[..1];
      assert prefix == [calls[0]] && prefix[1..] == [];
      assert InvokedBy(tools, retrievers, threadId, prefix, w) == one.invoked + [];
    } else {
      var rest := DispatchAll(tools, retrievers, threadId, calls[1..], w);
      assert all == Prepend([ToolResult(one.output.value, calls[0].id, calls[0].name)], one.invoked, [Cleaned(calls[0])], rest);
      var k := DispatchAllRaises(tools, retrievers, threadId, calls[1..], w);
      j := k + 1;
      assert all.outcome.error == rest.outcome.error;
      assert all.invoked == one.invoked + rest.invoked;
      forall i | 1 <= i < j
        ensures DispatchOne(tools, retrievers, threadId, calls[i], w).output.Returned?
      {
        assert calls[1..][i - 1] == calls[i];
      }
      assert calls[1..][k] == calls[j];
      InvokedByPrefix(tools, retrievers, threadId, calls, j + 1, w);
    }
  }

  /** `InvokedBy` of a non-empty prefix, unfolded once. */
  lemma InvokedByPrefix(tools: seq<Tool>, retrievers: map<string, Retriever>, threadId: string,
                        calls: seq<ToolCall>, n: nat, w: World)
    requires 0 < n <= |calls|
    ensures InvokedBy(tools, retrievers, threadId, calls[..n], w)
            == DispatchOne(tools, retrievers, threadId, calls[0], w).invoked + InvokedBy(tools, retrievers, threadId, calls[1..][..n - 1], w)
  {
    var prefix := calls[..n];
    assert prefix[0] == calls[0];
    assert prefix[1..] == calls[1..][..n - 1];
  }

  /** The calls into tools that handling `calls` one after the other makes. */
  function InvokedBy(tools: seq<Tool>, retrievers: map<string, Retriever>, threadId: string,
                     calls: seq<ToolCall>, w: World): seq<Invocation>
  {
    if calls == [] then [] else DispatchOne(tools, retrievers, threadId, calls[0], w).invoked + InvokedBy(tools, retrievers, threadId, calls[1..], w)
  }

  /** A tool node that returns has made exactly the calls into tools of its
      calls, one after the other. */
  lemma {:induction false} DispatchAllInvoked(tools: seq<Tool>, retrievers: map<string, Retriever>, threadId: string,
                                              calls: seq<ToolCall>, w: World)
    requires DispatchAll(tools, retrievers, threadId, calls, w).outcome.Returned?
    ensures DispatchAll(tools, retrievers, threadId, calls, w).invoked == InvokedBy(tools, retrievers, threadId, calls, w)
  {
    if calls != [] {
      DispatchAllInvoked(tools, retrievers, threadId, calls[1..], w);
    }
  }

  /** When every call names no registered tool or asks `rag_tool` on a
      thread with no document, the node returns and no tool at all is
      called. */
  lemma {:induction false} NothingInvokedForUnresolved(tools: seq<Tool>, retrievers: map<string, Retriever>, threadId: string,
                                                       calls: seq<ToolCall>, w: World)
    requires forall i :: 0 <= i < |calls| ==>
               FindTool(tools, calls[i].name).None? || (calls[i].name == RagName && threadId !in retrievers)
    ensures DispatchAll(tools, retrievers, threadId, calls, w).outcome.Returned?
    ensures DispatchAll(tools, retrievers, threadId, calls, w).invoked == []
  {
    if calls != [] {
      assert forall i :: 0 <= i < |calls| - 1 ==> calls[1..][i] == calls[i + 1];
      NothingInvokedForUnresolved(tools, retrievers, threadId, calls[1..], w);
    }
  }

  /** Every tool the node calls is the first registered tool with the name
      of one of the calls. */
  lemma {:induction false} InvokedAreResolved(tools: seq<Tool>, retrievers: map<string, Retriever>, threadId: string,
                                              calls: seq<ToolCall>, w: World, k: nat)
    requires k < |InvokedBy(tools, retrievers, threadId, calls, w)|
    ensures exists i :: 0 <= i < |calls| && FindTool(tools, calls[i].name).Some?
              && InvokedBy(tools, retrievers, threadId, calls, w)[k].tool == tools[FindTool(tools, calls[i].name).value]
  {
    var first := DispatchOne(tools, retrievers, threadId, calls[0], w).invoked;
    var rest := InvokedBy(tools, retrievers, threadId, calls[1..], w);
    if k < |first| {
      assert InvokedBy(tools, retrievers, threadId, calls, w)[k] == first[k];
      assert FindTool(tools, calls[0].name).Some?;
      DispatchOneCalls(tools, retrievers, threadId, calls[0], w);
    } else {
      InvokedAreResolved(tools, retrievers, threadId, calls[1..], w, k - |first|);
      var i :| 0 <= i < |calls| - 1 && FindTool(tools, calls[1..][i].name).Some?
               && rest[k - |first|].tool == tools[FindTool(tools, calls[1..][i].name).value];
      assert calls[1..][i] == calls[i + 1];
      assert InvokedBy(tools, retrievers, threadId, calls, w)[k] == rest[k - |first|];
    }
  }

  /** Once a thread has a retriever, a `rag_tool` call on that thread reaches
      the resolved tool with that retriever and the call's query. */
  lemma DocumentEnablesRag(tools: seq<Tool>, retrievers: map<string, Retriever>, threadId: string, r: Retriever,
                           call: ToolCall, w: World)
    requires call.name == RagName && FindTool(tools, RagName).Some?
    ensures var st := DispatchOne(tools, retrievers[threadId := r], threadId, call, w);
            st.invoked != [] && st.invoked[0] == Arun(tools[FindTool(tools, RagName).value], GetOrNull(call.args, "query"), r)
  {
    DispatchOneCalls(tools, retrievers[threadId := r], threadId, call, w);
  }

  /** A thread's retriever is used by that thread only: giving one thread a
      retriever changes nothing for a call on another thread. */
  lemma RetrieverIsPerThread(tools: seq<Tool>, retrievers: map<string, Retriever>, threadId: string, r: Retriever,
                             other: string, call: ToolCall, w: World)
    requires other != threadId
    ensures DispatchOne(tools, retrievers[threadId := r], other, call, w) == DispatchOne(tools, retrievers, other, call, w)
  {
  }

  /** The wrapped MCP tools are the ones `load_tools` built on `client`:
      awaiting `ainvoke` on one of them with arguments its schema accepts
      returns what its `run_tool` coroutine returns. */
  ghost predicate AinvokeRunsMcp(w: World, client: McpClient, run: (McpClient, McpTool, Args) -> Outcome<Value>)
  {
    forall t: Tool, args: Args, r: Option<Retriever> | t.Structured? && McpQuery(args).Some? ::
      w.ainvoke(t, args, r) == Returned(RunTool(client, t.remote, McpQuery(args).value, run))
  }

  /** A call, other than `rag_tool`, whose name is unknown or resolves to a
      wrapped MCP tool, with arguments that tool's schema accepts. */
  predicate McpCall(tools: seq<Tool>, call: ToolCall)
  {
    && call.name != RagName
    && McpQuery(call.args).Some?
    && (FindTool(tools, call.name).Some? ==> tools[FindTool(tools, call.name).value].Structured?)
  }

  /** A call that resolves to a wrapped MCP tool is answered with what
      `run_tool` gives: the client's result, or "Error: <e>" when the client
      raises; the client's exception never escapes the tool node. */
  lemma McpCallAnswered(tools: seq<Tool>, retrievers: map<string, Retriever>, threadId: string,
                        call: ToolCall, w: World, client: McpClient, run: (McpClient, McpTool, Args) -> Outcome<Value>)
    requires AinvokeRunsMcp(w, client, run)
    requires McpCall(tools, call) && FindTool(tools, call.name).Some?
    ensures var m := tools[FindTool(tools, call.name).value].remote;
            var q := McpQuery(call.args).value;
            && DispatchOne(tools, retrievers, threadId, call, w).output == Returned(RunTool(client, m, q, run))
            && (run(client, m, RunToolArgs(q)).Raised? ==>
                  DispatchOne(tools, retrievers, threadId, call, w).output
                  == Returned(Str("Error: " + run(client, m, RunToolArgs(q)).error)))
  {
    DispatchOneCalls(tools, retrievers, threadId, call, w);
  }

  /** A tool round whose every call is an MCP call (or names no tool) never
      raises, whatever the MCP server does. */
  lemma McpRoundNeverRaises(tools: seq<Tool>, retrievers: map<string, Retriever>, threadId: string,
                            calls: seq<ToolCall>, w: World, client: McpClient, run: (McpClient, McpTool, Args) -> Outcome<Value>)
    requires AinvokeRunsMcp(w, client, run)
    requires forall i :: 0 <= i < |calls| ==> McpCall(tools, calls[i])
    ensures DispatchAll(tools, retrievers, threadId, calls, w).outcome.Returned?
  {
    forall i | 0 <= i < |calls|
      ensures DispatchOne(tools, retrievers, threadId, calls[i], w).output.Returned?
    {
      if FindTool(tools, calls[i].name).Some? {
        McpCallAnswered(tools, retrievers, threadId, calls[i], w, client, run);
      }
    }
    DispatchAllReturnsIff(tools, retrievers, threadId, calls, w);
  }

  /** `_call_tool` on a state: the last message's tool calls (none for a
      message other than an AI message); an empty log raises IndexError. */
  function ToolsStep(tools: seq<Tool>, retrievers: map<string, Retriever>, s: AgentState, w: World): (r: ToolNodeResult)
    ensures |s.messages| == 0 ==> r == ToolNodeResult(Raised(IndexErrorMessage), [], [])
  {
    if |s.messages| == 0 then ToolNodeResult(Raised(IndexErrorMessage), [], [])
    else DispatchAll(tools, retrievers, s.threadId, CallsOf(s.messages[|s.messages| - 1]), w)
  }

  // ---------------------------------------------------------------- the graph

  /** The `agent` node: the model's response, normalised to one message and
      appended to the log; an exception of the model escapes. */
  function AgentStep(tools: seq<Tool>, s: AgentState, w: World): (r: Outcome<AgentState>)
    ensures w.llm(tools, s.messages).Raised? ==> r == Raised(w.llm(tools, s.messages).error)
    ensures w.llm(tools, s.messages).Returned? ==>
              r.Returned? && r.value.threadId == s.threadId
              && r.value.messages == s.messages + [Normalize(w.llm(tools, s.messages).value)]
  {
    match w.llm(tools, s.messages)
    case Raised(e) => Raised(e)
    case Returned(resp) => Returned(Apply(s, ModelUpdate(resp)))
  }

  /** How a run of the graph ends: at END with the final state, with an
      exception that escaped a node or the routing, or (only in the model)
      still wanting tools after the allowed number of tool rounds. */
  datatype GraphRun = Finished(state: AgentState) | Failed(error: string) | Unfinished(state: AgentState)

  function Last(s: AgentState): Message
    requires |s.messages| > 0
  {
    s.messages[|s.messages| - 1]
  }

  /** The compiled graph from its entry point `agent`: after `agent` the
      routing goes to END or to `tools`, and `tools` always goes back to
      `agent`; every node's output is merged with the reducer. `fuel` bounds
      the number of tool rounds. A finished run ends in an AI message with
      no tool calls, an unfinished one in an AI message with tool calls,
      and both only ever added messages to the log. */
  function RunGraph(tools: seq<Tool>, retrievers: map<string, Retriever>, fuel: nat, s: AgentState, w: World): (g: GraphRun)
    ensures g.Finished? || g.Unfinished? ==>
              && IsPrefix(s.messages, g.state.messages)
              && |g.state.messages| > |s.messages|
              && g.state.threadId == s.threadId
              && Last(g.state).Ai?
    ensures g.Finished? ==> Last(g.state).toolCalls == []
    ensures g.Unfinished? ==> Last(g.state).toolCalls != []
    decreases fuel
  {
    match AgentStep(tools, s, w)
    case Raised(e) => Failed(e)
    case Returned(s1) =>
      match ShouldContinue(s1)
      case Raised(e) => Failed(e)
      case Returned(ToEnd) => Finished(s1)
      case Returned(ToTools) =>
        if fuel == 0 then Unfinished(s1)
        else
          match ToolsStep(tools, retrievers, s1, w).outcome
          case Raised(e) => Failed(e)
          case Returned(ms) =>
            var s2 := Apply(s1, Update(ms));
            var g := RunGraph(tools, retrievers, fuel - 1, s2, w);
            if g.Failed? then g
            else
              PrefixTransitive(s.messages, s1.messages, s2.messages);
              PrefixTransitive(s.messages, s2.messages, g.state.messages);
              g
  }

  /** Each tool round of a run answers the calls of the AI message that
      asked for it: one tool message per call, in order, each carrying the
      call's id and name. */
  lemma ToolRoundAnswersCalls(tools: seq<Tool>, retrievers: map<string, Retriever>, s1: AgentState, w: World)
    requires ShouldContinue(s1) == Returned(ToTools)
    requires ToolsStep(tools, retrievers, s1, w).outcome.Returned?
    ensures var calls := Last(s1).toolCalls;
            var ms := ToolsStep(tools, retrievers, s1, w).outcome.value;
            && |ms| == |calls| > 0
            && forall i :: 0 <= i < |calls| ==>
                 ms[i].ToolResult? && ms[i].toolCallId == calls[i].id && ms[i].name == calls[i].name
  {
    DispatchAllAnswersEach(tools, retrievers, s1.threadId, CallsOf(s1.messages[|s1.messages| - 1]), w);
  }

  /** A model that answers without tool calls ends the run after one step,
      with its answer appended. */
  lemma DirectAnswer(tools: seq<Tool>, retrievers: map<string, Retriever>, fuel: nat, s: AgentState, w: World, answer: string)
    requires w.llm(tools, s.messages) == Returned(MessageResponse(Ai(answer, [])))
    ensures RunGraph(tools, retrievers, fuel, s, w) == Finished(AgentState(s.messages + [Ai(answer, [])], s.threadId))
  {
  }

  /** One round through an unknown tool: the model asks for a tool no one
      registered, the node answers with the not-found error without calling
      anything, and the model's next answer ends the turn; the log is the
      question followed by these three messages. */
  lemma UnknownToolRound(tools: seq<Tool>, retrievers: map<string, Retriever>, fuel: nat, s: AgentState, w: World,
                         call: ToolCall, answer: string)
    requires fuel > 0
    requires FindTool(tools, call.name).None?
    requires w.llm(tools, s.messages) == Returned(MessageResponse(Ai("", [call])))
    requires w.llm(tools, s.messages + [Ai("", [call]), ToolResult(NotFound(call.name), call.id, call.name)])
             == Returned(MessageResponse(Ai(answer, [])))
    ensures RunGraph(tools, retrievers, fuel, s, w)
            == Finished(AgentState(s.messages + [Ai("", [call]), ToolResult(NotFound(call.name), call.id, call.name), Ai(answer, [])],
                                   s.threadId))
  {
    var s1 := AgentState(s.messages + [Ai("", [call])], s.threadId);
    var out := ToolResult(NotFound(call.name), call.id, call.name);
    assert AgentStep(tools, s, w) == Returned(s1);
    UnknownToolAnswered(tools, retrievers, s1, call, w);
    var s2 := AgentState(s1.messages + [out], s.threadId);
    assert s2.messages == s.messages + [Ai("", [call]), out];
    DirectAnswer(tools, retrievers, fuel - 1, s2, w, answer);
    assert s2.messages + [Ai(answer, [])] == s.messages + [Ai("", [call]), out, Ai(answer, [])];
  }

  /** A tool round on a single call whose name no tool has answers it with
      the not-found error. */
  lemma UnknownToolAnswered(tools: seq<Tool>, retrievers: map<string, Retriever>, s1: AgentState, call: ToolCall, w: World)
    requires |s1.messages| > 0 && Last(s1) == Ai("", [call])
    requires FindTool(tools, call.name).None?
    ensures ToolsStep(tools, retrievers, s1, w).outcome == Returned([ToolResult(NotFound(call.name), call.id, call.name)])
  {
    var out := ToolResult(NotFound(call.name), call.id, call.name);
    assert CallsOf(Last(s1)) == [call];
    assert DispatchOne(tools, retrievers, s1.threadId, call, w).output == Returned(NotFound(call.name));
    assert [call][1..] == [];
    assert DispatchAll(tools, retrievers, s1.threadId, [call][1..], w) == ToolNodeResult(Returned([]), [], []);
    assert [out] + [] == [out];
  }

  // ---------------------------------------------------------------- entry points

  /** What `invoke` gives: the content of the final message, the exception
      that escaped, or (only in the model) no answer within the allowed
      number of tool rounds. */
  datatype TurnResult = Reply(content: string) | TurnRaised(error: string) | TurnUnfinished

  /** One event of `astream_events`: its kind and, for a chat model stream
      event, the content of its chunk. */
  datatype Event = Event(kind: string, chunkContent: string)

  const ChatModelStream: string := "on_chat_model_stream"

  /** What iterating `astream_events` gives for a start state: the events
      emitted, in order, and the exception that ended the iteration early,
      if one was raised inside the graph (a node, the routing or the model). */
  datatype EventRun = EventRun(events: seq<Event>, raised: Option<string>)

  /** The chunks `stream` forwards: the contents of the chat model stream
      events that are not empty, in order. */
  function StreamedChunks(events: seq<Event>): (cs: seq<string>)
    ensures |cs| <= |events|
    ensures forall i :: 0 <= i < |cs| ==> cs[i] != ""
  {
    if events == [] then []
    else if events[0].kind == ChatModelStream && events[0].chunkContent != "" then
      [events[0].chunkContent] + StreamedChunks(events[1..])
    else StreamedChunks(events[1..])
  }

  /** The chunks of one event: its content if it is a non-empty chat model
      stream chunk, and nothing otherwise. */
  lemma StreamedChunksOne(e: Event)
    ensures StreamedChunks([e]) == if e.kind == ChatModelStream && e.chunkContent != "" then [e.chunkContent] else []
  {
    assert [e][1..] == [];
  }

  /** The filter works event by event: the chunks of two runs of events one
      after the other are the chunks of the first followed by those of the
      second, so chunks keep the order of their events. */
  lemma {:induction false} StreamedChunksAppend(a: seq<Event>, b: seq<Event>)
    ensures StreamedChunks(a + b) == StreamedChunks(a) + StreamedChunks(b)
    decreases |a|
  {
    if a == [] {
      assert a + b == b;
    } else {
      assert (a + b)[0] == a[0];
      assert (a + b)[1..] == a[1..] + b;
      StreamedChunksAppend(a[1..], b);
    }
  }

  /** Every non-empty chunk of a chat model stream event is forwarded. */
  lemma StreamedChunksIncludes(events: seq<Event>, i: nat)
    requires i < |events| && events[i].kind == ChatModelStream && events[i].chunkContent != ""
    ensures events[i].chunkContent in StreamedChunks(events)
  {
    assert events == events[..i] + [events[i]] + events[i + 1..];
    StreamedChunksAppend(events[..i] + [events[i]], events[i + 1..]);
    StreamedChunksAppend(events[..i], [events[i]]);
    StreamedChunksOne(events[i]);
  }

  /** The frames of a sequence of chunks, one per chunk, in order. */
  function Frames(cs: seq<string>): (fs: seq<string>)
    ensures |fs| == |cs|
    ensures forall i :: 0 <= i < |cs| ==> fs[i] == Frame(cs[i])
  {
    if cs == [] then [] else [Frame(cs[0])] + Frames(cs[1..])
  }

  lemma {:induction false} FramesAppend(a: seq<string>, b: seq<string>)
    ensures Frames(a + b) == Frames(a) + Frames(b)
    decreases |a|
  {
    if a == [] {
      assert a + b == b;
    } else {
      assert (a + b)[0] == a[0];
      assert (a + b)[1..] == a[1..] + b;
      FramesAppend(a[1..], b);
    }
  }

  /** The frames of one more event: one more frame exactly when it is a
      non-empty chat model stream chunk. */
  lemma StreamFramesSnoc(events: seq<Event>, e: Event)
    ensures StreamFrames(events + [e]) ==
              StreamFrames(events) + if e.kind == ChatModelStream && e.chunkContent != "" then [Frame(e.chunkContent)] else []
  {
    StreamedChunksAppend(events, [e]);
    StreamedChunksOne(e);
    FramesAppend(StreamedChunks(events), StreamedChunks([e]));
    assert Frames([]) == [];
    assert [e.chunkContent][1..] == [];
  }

  /** `StreamFramesSnoc` for the prefixes of one sequence of events. */
  lemma StreamFramesStep(events: seq<Event>, i: nat)
    requires i < |events|
    ensures StreamFrames(events[..i + 1]) ==
              StreamFrames(events[..i]) + if events[i].kind == ChatModelStream && events[i].chunkContent != "" then [Frame(events[i].chunkContent)] else []
  {
    assert events[..i + 1] == events[..i] + [events[i]];
    StreamFramesSnoc(events[..i], events[i]);
  }

  /** What `stream` yields: one frame per forwarded chunk, in order. */
  function StreamFrames(events: seq<Event>): (fs: seq<string>)
    ensures |fs| == |StreamedChunks(events)|
    ensures forall i :: 0 <= i < |fs| ==> fs[i] == Frame(StreamedChunks(events)[i])
  {
    Frames(StreamedChunks(events))
  }

  /** Every yielded frame decodes back to the chunk it carries, so a client
      reading the stream gets the model's output chunks exactly and in
      order. */
  lemma StreamFramesDecode(events: seq<Event>)
    ensures forall i :: 0 <= i < |StreamFrames(events)| ==> ParseFrame(StreamFrames(events)[i]) == Some(StreamedChunks(events)[i])
  {
    forall i | 0 <= i < |StreamFrames(events)|
      ensures ParseFrame(StreamFrames(events)[i]) == Some(StreamedChunks(events)[i])
    {
      FrameRoundTrip(StreamedChunks(events)[i]);
    }
  }

  /** A forwarded chunk is one a chat model stream event carried, and the
      events that are not of that kind contribute nothing. */
  lemma {:induction false} StreamedChunksFrom(events: seq<Event>)
    ensures forall c :: c in StreamedChunks(events) ==> exists i :: 0 <= i < |events| && events[i].kind == ChatModelStream && events[i].chunkContent == c
  {
    if events != [] {
      StreamedChunksFrom(events[1..]);
      assert forall i :: 0 <= i < |events| - 1 ==> events[1..][i] == events[i + 1];
    }
  }

  /** The AttributeError raised by calling `create_from_upload`, which
      `VectorStoreManager` does not define (the class has `create_from_pdf`). */
  const NoCreateFromUpload: string := "'VectorStoreManager' object has no attribute 'create_from_upload'"

  /** What indexing a PDF path gives: `create_from_pdf` either returns a
      retriever, raises FileNotFoundError for a path that does not exist, or
      raises another exception (embeddings, PDF parsing, FAISS). */
  datatype Ingest = Indexed(retriever: Retriever) | FileMissing | IngestFailed(message: string)

  /** How `add_document_to_thread` ends: it returns, raises
      FileNotFoundError, or raises another exception. */
  datatype AddResult = Added | NotFoundError(message: string) | OtherError(message: string)

  /** The end of `add_document_to_thread` as written: the exception of the
      `VectorStoreManager` constructor, or else the AttributeError of the
      missing `create_from_upload`; it never returns normally and never
      raises FileNotFoundError. */
  function AsWrittenAdd(vectorStoreInit: Outcome<()>): (r: AddResult)
    ensures r.OtherError?
    ensures vectorStoreInit.Raised? ==> r.message == vectorStoreInit.error
    ensures vectorStoreInit.Returned? ==> r.message == NoCreateFromUpload
  {
    if vectorStoreInit.Raised? then OtherError(vectorStoreInit.error) else OtherError(NoCreateFromUpload)
  }

  class ChatbotManager {
    var tools: seq<Tool>
    var toolsManager: ToolsManager?
    var threadRetrievers: map<string, Retriever>
    var threadMetadata: map<string, map<string, Value>>

    /** `ChatbotManager(tools_manager=...)`: a copy of the manager's local
        tools, or without a manager the fallback list RAG, stock price,
        search; both tables empty. `env` is ALPHAVANTAGE_API_KEY. */
    constructor (toolsManager: ToolsManager?, env: Option<string>)
      ensures this.toolsManager == toolsManager
      ensures toolsManager != null ==> tools == toolsManager.localTools
      ensures toolsManager == null ==> tools == [Rag, NewStockPriceTool(None, env), Search]
      ensures threadRetrievers == map[] && threadMetadata == map[]
    {
      this.toolsManager := toolsManager;
      this.threadRetrievers := map[];
      this.threadMetadata := map[];
      if toolsManager != null {
        this.tools := toolsManager.localTools;
      } else {
        this.tools := [Rag, NewStockPriceTool(None, env), Search];
      }
    }

    /** `ChatbotManager.create(enable_mcp)`: a tools manager without a given
        MCP client, and the tools it merges, local ones first. `created` is
        the client `MCPClient()` makes. */
    static method Create(enableMcp: bool, env: Option<string>, created: McpClient,
                         discover: McpClient -> Outcome<seq<McpTool>>) returns (inst: ChatbotManager)
      ensures fresh(inst) && fresh(inst.toolsManager)
      ensures inst.toolsManager != null && inst.toolsManager.enableMcp == enableMcp
      ensures inst.toolsManager.localTools == LocalToolList(env)
      ensures inst.toolsManager.mcpClient == None
      ensures enableMcp ==> inst.toolsManager.remoteMgr == Some(AsyncInit(None, created))
      ensures !enableMcp ==> inst.toolsManager.remoteMgr.None?
      ensures !enableMcp || discover(created).Raised? ==> inst.tools == LocalToolList(env)
      ensures enableMcp && discover(created).Returned? ==> inst.tools == LocalToolList(env) + Converted(discover(created).value)
      ensures inst.threadRetrievers == map[] && inst.threadMetadata == map[]
    {
      var tm := ToolsManager.Create(enableMcp, None, env, created);
      var allTools := tm.GetAllTools(discover);
      inst := new ChatbotManager(tm, env);
      inst.tools := allTools;
    }

    /** `add_document_to_thread` as written: it ends in `AsWrittenAdd` and
        changes neither table. `vectorStoreInit` is what constructing the
        `VectorStoreManager` does. */
    method AddDocumentToThread(threadId: string, pdfPath: string, vectorStoreInit: Outcome<()>) returns (r: AddResult)
      modifies this
      ensures r == AsWrittenAdd(vectorStoreInit)
      ensures threadRetrievers == old(threadRetrievers) && threadMetadata == old(threadMetadata)
      ensures tools == old(tools) && toolsManager == old(toolsManager)
    {
      if vectorStoreInit.Raised? {
        return OtherError(vectorStoreInit.error);
      }
      r := OtherError(NoCreateFromUpload);
    }

    /** `add_document_to_thread` as evidently intended: index the PDF at the
        path; on success the thread's retriever and its metadata
        `{"filename": path}` are overwritten and every other thread's entries
        are kept; on failure nothing changes. */
    method AddDocumentFromPath(threadId: string, pdfPath: string, ingest: string -> Ingest) returns (r: AddResult)
      modifies this
      ensures ingest(pdfPath).Indexed? ==>
                && r == Added
                && threadRetrievers == old(threadRetrievers)[threadId := ingest(pdfPath).retriever]
                && threadMetadata == old(threadMetadata)[threadId := map["filename" := Str(pdfPath)]]
      ensures ingest(pdfPath).FileMissing? ==> r == NotFoundError("PDF file not found at " + pdfPath)
      ensures ingest(pdfPath).IngestFailed? ==> r == OtherError(ingest(pdfPath).message)
      ensures !ingest(pdfPath).Indexed? ==> threadRetrievers == old(threadRetrievers) && threadMetadata == old(threadMetadata)
      ensures forall t :: t != threadId ==>
                (t in threadRetrievers <==> t in old(threadRetrievers))
                && (t in threadRetrievers ==> threadRetrievers[t] == old(threadRetrievers)[t])
                && (t in threadMetadata <==> t in old(threadMetadata))
                && (t in threadMetadata ==> threadMetadata[t] == old(threadMetadata)[t])
      ensures tools == old(tools) && toolsManager == old(toolsManager)
    {
      match ingest(pdfPath)
      case FileMissing =>
        r := NotFoundError("PDF file not found at " + pdfPath);
      case IngestFailed(m) =>
        r := OtherError(m);
      case Indexed(retriever) =>
        threadRetrievers := threadRetrievers[threadId := retriever];
        threadMetadata := threadMetadata[threadId := map["filename" := Str(pdfPath)]];
        r := Added;
    }

    /** `_call_tool`: the loop over the last message's tool calls, proved to
        compute `ToolsStep` on the manager's tools and retriever table. */
    method CallTool(state: AgentState, w: World) returns (r: ToolNodeResult)
      ensures r == ToolsStep(tools, threadRetrievers, state, w)
    {
      if |state.messages| == 0 {
        return ToolNodeResult(Raised(IndexErrorMessage), [], []);
      }
      var calls := CallsOf(state.messages[|state.messages| - 1]);
      var outputs: seq<Message> := [];
      var invoked: seq<Invocation> := [];
      var argsAfter: seq<Args> := [];
      var i := 0;
      ghost var all := DispatchAll(tools, threadRetrievers, state.threadId, calls, w);
      assert calls[0..] == calls;
      assert [] + all.invoked == all.invoked && [] + all.argsAfter == all.argsAfter;
      assert all.outcome.Returned? ==> [] + all.outcome.value == all.outcome.value;
      while i < |calls|
        invariant 0 <= i <= |calls|
        invariant DispatchAll(tools, threadRetrievers, state.threadId, calls, w)
                  == Prepend(outputs, invoked, argsAfter, DispatchAll(tools, threadRetrievers, state.threadId, calls[i..], w))
      {
        var c := calls[i];
        var one := DispatchOne(tools, threadRetrievers, state.threadId, c, w);
        DispatchAllSuffixUnfold(tools, threadRetrievers, state.threadId, calls, i, w);
        if one.output.Raised? {
          return ToolNodeResult(Raised(one.output.error), invoked + one.invoked, argsAfter + ArgsOf(calls[i..]));
        }
        PrependPrepend(outputs, invoked, argsAfter, [ToolResult(one.output.value, c.id, c.name)], one.invoked, [Cleaned(c)],
                       DispatchAll(tools, threadRetrievers, state.threadId, calls[i + 1..], w));
        outputs := outputs + [ToolResult(one.output.value, c.id, c.name)];
        invoked := invoked + one.invoked;
        argsAfter := argsAfter + [Cleaned(c)];
        i := i + 1;
      }
      assert calls[i..] == [];
      assert outputs + [] == outputs && invoked + [] == invoked && argsAfter + [] == argsAfter;
      r := ToolNodeResult(Returned(outputs), invoked, argsAfter);
    }

    /** `invoke(thread_id, message)`: a run from a log holding only the new
        human message (no checkpointer is configured, so nothing of earlier
        turns is restored), answered by the content of the final message. */
    function Invoke(threadId: string, message: string, fuel: nat, w: World): (r: TurnResult)
      reads this
      ensures var g := RunGraph(tools, threadRetrievers, fuel, AgentState([Human(message)], threadId), w);
              && (r.Reply? <==> g.Finished?)
              && (r.TurnRaised? <==> g.Failed?)
              && (g.Finished? ==> |g.state.messages| >= 2 && g.state.messages[0] == Human(message)
                                  && Last(g.state) == Ai(r.content, []))
              && (g.Failed? ==> r.error == g.error)
    {
      var g := RunGraph(tools, threadRetrievers, fuel, AgentState([Human(message)], threadId), w);
      match g
      case Finished(st) =>
        assert st.messages[..1] == [Human(message)];
        assert st.messages[0] == st.messages[..1][0];
        Reply(Last(st).content)
      case Failed(e) => TurnRaised(e)
      case Unfinished(_) => TurnUnfinished
    }

    /** `stream(thread_id, message)`: the generator loop over the events of a
        run from the new human message, proved to yield `StreamFrames` of
        them. `events` gives what `astream_events` produces for a start
        state; an exception raised during the iteration propagates out of the
        generator after the frames yielded so far, which stay yielded. */
    method Stream(threadId: string, message: string, events: AgentState -> EventRun)
      returns (frames: seq<string>, raised: Option<string>)
      ensures frames == StreamFrames(events(AgentState([Human(message)], threadId)).events)
      ensures raised == events(AgentState([Human(message)], threadId)).raised
    {
      var run := events(AgentState([Human(message)], threadId));
      var evs := run.events;
      frames := [];
      var i := 0;
      while i < |evs|
        invariant 0 <= i <= |evs|
        invariant frames == StreamFrames(evs[..i])
      {
        StreamFramesStep(evs, i);
        var kind := evs[i].kind;
        if kind == ChatModelStream {
          var content := evs[i].chunkContent;
          if content != "" {
            frames := frames + [Frame(content)];
          }
        }
        i := i + 1;
      }
      assert evs[..i] == evs;
      raised := run.raised;
    }

    /** `aclose`: closes the tools manager when there is one. */
    method Aclose(close: (McpClient, CloseCall) -> Outcome<()>) returns (performed: Option<CloseCall>, error: Option<string>)
      modifies toolsManager
      ensures toolsManager == null ==> performed.None? && error.None?
      ensures toolsManager != null ==>
                && (old(toolsManager.remoteMgr).None? ==> performed.None? && error.None?)
                && (old(toolsManager.remoteMgr).Some? ==> performed == Some(CloseAction(old(toolsManager.remoteMgr).value.client.caps)))
                && (error.None? ==> toolsManager.remoteMgr.None?)
                && (error.Some? ==> toolsManager.remoteMgr == old(toolsManager.remoteMgr))
                && (error.Some? <==>
                      old(toolsManager.remoteMgr).Some?
                      && CloseAction(old(toolsManager.remoteMgr).value.client.caps) != NoClose
                      && close(old(toolsManager.remoteMgr).value.client,
                               CloseAction(old(toolsManager.remoteMgr).value.client.caps)).Raised?)
                && toolsManager.localTools == old(toolsManager.localTools)
                && toolsManager.enableMcp == old(toolsManager.enableMcp)
                && toolsManager.mcpClient == old(toolsManager.mcpClient)
    {
      performed, error := None, None;
      if toolsManager != null {
        performed, error := toolsManager.Aclose(close);
      }
    }
  }
}
