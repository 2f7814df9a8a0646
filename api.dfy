/** The HTTP endpoints of main.py over the global chatbot: the 503 guard
    when no chatbot exists, the rejection of an empty or whitespace-only
    message, the tool listing with its classification and counts, the
    streaming and non-streaming chat, and the PDF upload. */
module Api {
  import opened PyValues
  import opened Messages
  import opened ToolModel
  import opened Manager

  /** An endpoint's answer: a body, or an HTTPException with its status and
      detail. */
  datatype Http<+T> = Ok(body: T) | HttpError(status: nat, detail: string)

  const NotInitialized: string := "Chatbot not initialized"
  const EmptyMessage: string := "Message cannot be empty"

  // ---------------------------------------------------------------- str.strip()

  /** The characters Python's `str.isspace()` accepts, which `str.strip()`
      removes from both ends. */
  predicate IsSpace(c: char)
  {
    var n := c as int;
    (0x09 <= n <= 0x0D) || (0x1C <= n <= 0x20) || n == 0x85 || n == 0xA0 || n == 0x1680
    || (0x2000 <= n <= 0x200A) || n == 0x2028 || n == 0x2029 || n == 0x202F || n == 0x205F || n == 0x3000
  }

  /** `s.lstrip()`: the longest suffix of `s` that does not start with
      whitespace. */
  function TrimStart(s: string): (r: string)
    ensures |r| <= |s| && r == s[|s| - |r|..]
    ensures forall i :: 0 <= i < |s| - |r| ==> IsSpace(s[i])
    ensures r == [] || !IsSpace(r[0])
  {
    if s == [] || !IsSpace(s[0]) then s else TrimStart(s[1..])
  }

  /** `s.rstrip()`: the longest prefix of `s` that does not end with
      whitespace. */
  function TrimEnd(s: string): (r: string)
    ensures |r| <= |s| && r == s[..|r|]
    ensures forall i :: |r| <= i < |s| ==> IsSpace(s[i])
    ensures r == [] || !IsSpace(r[|r| - 1])
  {
    if s == [] || !IsSpace(s[|s| - 1]) then s else TrimEnd(s[..|s| - 1])
  }

  /** `s.strip()`: no longer than `s`, and neither starts nor ends with
      whitespace. */
  function Strip(s: string): (r: string)
    ensures |r| <= |s|
    ensures r == [] || (!IsSpace(r[0]) && !IsSpace(r[|r| - 1]))
  {
    var t := TrimStart(s);
    var u := TrimEnd(t);
    assert u != [] ==> u[0] == t[0];
    u
  }

  /** `strip` leaves a contiguous piece of `s` whose ends are not whitespace
      and removes only whitespace around it. */
  lemma StripIsTrimmedSlice(s: string) returns (lo: nat, hi: nat)
    ensures lo <= hi <= |s| && Strip(s) == s[lo..hi]
    ensures forall i :: 0 <= i < lo ==> IsSpace(s[i])
    ensures forall i :: hi <= i < |s| ==> IsSpace(s[i])
    ensures Strip(s) == [] || (!IsSpace(Strip(s)[0]) && !IsSpace(Strip(s)[|Strip(s)| - 1]))
  {
    var t := TrimStart(s);
    var u := TrimEnd(t);
    lo := |s| - |t|;
    hi := lo + |u|;
    assert t == s[lo..];
    assert u == t[..|u|];
    assert s[lo..][..|u|] == s[lo..hi];
    forall i | hi <= i < |s| ensures IsSpace(s[i]) {
      assert s[i] == t[i - lo];
    }
    if u != [] {
      assert u[0] == t[0];
    }
  }

  /** A message strips to nothing exactly when every character of it is
      whitespace. */
  lemma StripEmptyIff(s: string)
    ensures Strip(s) == "" <==> forall i :: 0 <= i < |s| ==> IsSpace(s[i])
  {
  }

  /** Stripping twice is stripping once. */
  lemma StripIdempotent(s: string)
    ensures Strip(Strip(s)) == Strip(s)
  {
    var r := Strip(s);
    if r != [] {
      assert TrimStart(r) == r;
    }
  }

  /** `not message or not message.strip()`: the message is empty or all
      whitespace. */
  predicate Blank(message: string): (b: bool)
    ensures b <==> forall i :: 0 <= i < |message| ==> IsSpace(message[i])
  {
    message == "" || Strip(message) == ""
  }

  // ---------------------------------------------------------------- /health

  datatype HealthBody = HealthBody(status: string, tools: nat, ready: bool)

  /** `GET /health`. */
  function Health(bot: ChatbotManager?): (r: Http<HealthBody>)
    reads bot
    ensures bot == null <==> r == HttpError(503, NotInitialized)
    ensures bot != null ==> r.Ok? && r.body.status == "healthy" && r.body.tools == |bot.tools| && r.body.ready
  {
    if bot == null then HttpError(503, NotInitialized) else Ok(HealthBody("healthy", |bot.tools|, true))
  }

  // ---------------------------------------------------------------- /tools

  /** One entry of the tool listing. */
  datatype ToolEntry = ToolEntry(name: string, description: string, typeName: string, isMcp: bool)

  /** The listing: the counts and the entries. */
  datatype Listing = Listing(total: nat, local: nat, mcp: nat, tools: seq<ToolEntry>)

  /** `p in s` on strings: `p` occurs in `s` at some position. */
  predicate Contains(s: string, p: string): (b: bool)
    ensures b ==> |p| <= |s|
    ensures |p| <= |s| && s[..|p|] == p ==> b
    decreases |s|
  {
    |p| <= |s| && (s[..|p|] == p || Contains(s[1..], p))
  }

  /** `p` occurs in `s` starting at index `k`. */
  predicate OccursAt(s: string, p: string, k: nat)
  {
    k + |p| <= |s| && s[k..k + |p|] == p
  }

  /** An occurrence in `s` after its first character is an occurrence in
      `s[1..]`, one index earlier. */
  lemma OccursShift(s: string, p: string, k: nat)
    requires |s| > 0
    ensures OccursAt(s, p, k + 1) <==> OccursAt(s[1..], p, k)
  {
    if k + 1 + |p| <= |s| {
      assert s[1..][k..k + |p|] == s[k + 1..k + 1 + |p|];
    }
  }

  /** The search agrees with the definition of `in`: `p` is found exactly
      when it occurs in `s` at some index. */
  lemma {:induction false} ContainsIffOccurs(s: string, p: string)
    ensures Contains(s, p) <==> exists k: nat :: OccursAt(s, p, k)
    decreases |s|
  {
    if |p| <= |s| {
      if s[..|p|] == p {
        assert OccursAt(s, p, 0);
      } else {
        ContainsIffOccurs(s[1..], p);
        if Contains(s[1..], p) {
          var k: nat :| OccursAt(s[1..], p, k);
          OccursShift(s, p, k);
        } else if exists k: nat :: OccursAt(s, p, k) {
          var k: nat :| OccursAt(s, p, k);
          assert k != 0;
          OccursShift(s, p, k - 1);
          assert false;
        }
      }
    }
  }

  const StructuredToolName: string := "StructuredTool"

  /** The entry for one tool: its name, its description, its class name, and
      whether that class name contains "StructuredTool". */
  function EntryOf(t: Tool): (e: ToolEntry)
    ensures e.name == NameOf(t) && e.description == DescriptionOf(t) && e.typeName == TypeNameOf(t)
    ensures e.isMcp <==> Contains(TypeNameOf(t), StructuredToolName)
  {
    ToolEntry(NameOf(t), DescriptionOf(t), TypeNameOf(t), Contains(TypeNameOf(t), StructuredToolName))
  }

  /** A string in which some character of `p` never occurs does not
      contain `p`. */
  lemma {:induction false} MissingCharNotContained(s: string, p: string, k: nat)
    requires k < |p|
    requires forall i :: 0 <= i < |s| ==> s[i] != p[k]
    ensures !Contains(s, p)
    decreases |s|
  {
    if |p| <= |s| {
      assert s[..|p|][k] == s[k];
      MissingCharNotContained(s[1..], p, k);
    }
  }

  /** A tool is listed as an MCP tool exactly when it is a StructuredTool
      wrapper: the local tools' class names have no lower-case "d", which
      "StructuredTool" has at index 9. */
  lemma EntryIsMcpIff(t: Tool)
    ensures EntryOf(t).isMcp <==> t.Structured?
  {
    var n := TypeNameOf(t);
    assert StructuredToolName[9] == 'd';
    if t.Structured? {
      assert n[..|StructuredToolName|] == StructuredToolName;
    } else {
      assert n == "DuckDuckGoSearchRun" || n == "StockPriceTool" || n == "RAGTool";
      MissingCharNotContained(n, StructuredToolName, 9);
    }
  }

  /** `sum(1 for t in tools if not t["is_mcp"])`: at most the number of
      entries, and zero exactly when every entry is an MCP one. */
  function CountLocal(entries: seq<ToolEntry>): (n: nat)
    ensures n <= |entries|
    ensures n == 0 <==> forall i :: 0 <= i < |entries| ==> entries[i].isMcp
  {
    if entries == [] then 0 else (if entries[0].isMcp then 0 else 1) + CountLocal(entries[1..])
  }

  /** `sum(1 for t in tools if t["is_mcp"])`: at most the number of
      entries, and zero exactly when no entry is an MCP one. */
  function CountMcp(entries: seq<ToolEntry>): (n: nat)
    ensures n <= |entries|
    ensures n == 0 <==> forall i :: 0 <= i < |entries| ==> !entries[i].isMcp
  {
    if entries == [] then 0 else (if entries[0].isMcp then 1 else 0) + CountMcp(entries[1..])
  }

  /** The number of StructuredTool wrappers among the tools. */
  function CountStructured(tools: seq<Tool>): nat
  {
    if tools == [] then 0 else (if tools[0].Structured? then 1 else 0) + CountStructured(tools[1..])
  }

  /** Every tool is counted once, as local or as MCP. */
  lemma {:induction false} CountsAddUp(entries: seq<ToolEntry>)
    ensures CountLocal(entries) + CountMcp(entries) == |entries|
  {
    if entries != [] {
      CountsAddUp(entries[1..]);
    }
  }

  /** The MCP count of a listing is the number of StructuredTool wrappers
      registered. */
  lemma {:induction false} McpCountIsStructured(tools: seq<Tool>, entries: seq<ToolEntry>)
    requires |entries| == |tools|
    requires forall i :: 0 <= i < |tools| ==> entries[i] == EntryOf(tools[i])
    ensures CountMcp(entries) == CountStructured(tools)
  {
    if tools != [] {
      EntryIsMcpIff(tools[0]);
      McpCountIsStructured(tools[1..], entries[1..]);
    }
  }

  /** `GET /tools`: the loop that builds one entry per registered tool, in
      order, then the counts; local and MCP counts add up to the total,
      which is the number of tools, and the MCP count is the number of
      StructuredTool wrappers. */
  method ListTools(bot: ChatbotManager?) returns (r: Http<Listing>)
    ensures bot == null ==> r == HttpError(503, NotInitialized)
    ensures bot != null ==>
              && r.Ok?
              && |r.body.tools| == |bot.tools| == r.body.total
              && (forall i :: 0 <= i < |bot.tools| ==> r.body.tools[i] == EntryOf(bot.tools[i]))
              && r.body.local + r.body.mcp == r.body.total
              && r.body.mcp == CountStructured(bot.tools)
              && r.body.local == CountLocal(r.body.tools)
  {
    if bot == null {
      return HttpError(503, NotInitialized);
    }
    var entries: seq<ToolEntry> := [];
    var i := 0;
    while i < |bot.tools|
      invariant 0 <= i <= |bot.tools|
      invariant |entries| == i
      invariant forall k :: 0 <= k < i ==> entries[k] == EntryOf(bot.tools[k])
    {
      var tool := bot.tools[i];
      var typeName := TypeNameOf(tool);
      entries := entries + [ToolEntry(NameOf(tool), DescriptionOf(tool), typeName, Contains(typeName, StructuredToolName))];
      i := i + 1;
    }
    CountsAddUp(entries);
    McpCountIsStructured(bot.tools, entries);
    r := Ok(Listing(|entries|, CountLocal(entries), CountMcp(entries), entries));
  }

  // ---------------------------------------------------------------- /chat

  /** A streamed answer: status 200 and the frames sent, and the exception
      that cut the stream short, if any. The exception arises while the
      response body is being sent, after `StreamingResponse` was returned
      from the `try`, so it never becomes an HTTP error. */
  datatype StreamReply = StreamReply(frames: seq<string>, aborted: Option<string>)

  /** `GET /chat/{thread_id}`: the SSE frames of a turn on the stripped
      message; a blank message is refused with 400 before anything runs. */
  method ChatStream(bot: ChatbotManager?, threadId: string, message: string, events: AgentState -> EventRun)
    returns (r: Http<StreamReply>)
    ensures bot == null ==> r == HttpError(503, NotInitialized)
    ensures bot != null && Blank(message) ==> r == HttpError(400, EmptyMessage)
    ensures bot != null && !Blank(message) ==>
              var run := events(AgentState([Human(Strip(message))], threadId));
              r == Ok(StreamReply(StreamFrames(run.events), run.raised))
  {
    if bot == null {
      return HttpError(503, NotInitialized);
    }
    if message == "" || Strip(message) == "" {
      return HttpError(400, EmptyMessage);
    }
    var frames, raised := bot.Stream(threadId, Strip(message), events);
    r := Ok(StreamReply(frames, raised));
  }

  /** The body of a non-streaming answer: the original (unstripped) message
      is echoed. */
  datatype InvokeBody = InvokeBody(threadId: string, message: string, response: string, toolsAvailable: nat)

  /** `POST /chat/{thread_id}`: a turn on the stripped message. A blank
      message is refused with 400 before anything runs; an exception of the
      turn becomes 500 "Error: <e>"; otherwise the body carries the final
      answer. `None` stands for a run still wanting tools after `fuel`
      rounds. */
  function ChatInvoke(bot: ChatbotManager?, threadId: string, message: string, fuel: nat, w: World): (r: Option<Http<InvokeBody>>)
    reads bot
    ensures bot == null ==> r == Some(HttpError(503, NotInitialized))
    ensures bot != null && Blank(message) ==> r == Some(HttpError(400, EmptyMessage))
    ensures bot != null && !Blank(message) ==>
              var g := RunGraph(bot.tools, bot.threadRetrievers, fuel, AgentState([Human(Strip(message))], threadId), w);
              && (g.Finished? ==> r == Some(Ok(InvokeBody(threadId, message, Last(g.state).content, |bot.tools|))))
              && (g.Finished? ==> Last(g.state) == Ai(r.value.body.response, []))
              && (g.Failed? ==> r == Some(HttpError(500, "Error: " + g.error)))
              && (g.Unfinished? ==> r.None?)
  {
    if bot == null then Some(HttpError(503, NotInitialized))
    else if message == "" || Strip(message) == "" then Some(HttpError(400, EmptyMessage))
    else
      match bot.Invoke(threadId, Strip(message), fuel, w)
      case Reply(c) => Some(Ok(InvokeBody(threadId, message, c, |bot.tools|)))
      case TurnRaised(e) => Some(HttpError(500, "Error: " + e))
      case TurnUnfinished => None
  }

  /** A model response that carries no message ends the turn in the routing
      step's AttributeError, which the endpoint reports as 500 with the
      exception's text. */
  lemma FallbackAnswersServerError(bot: ChatbotManager, threadId: string, message: string, fuel: nat, w: World, shown: string)
    requires Strip(message) != ""
    requires w.llm(bot.tools, [Human(Strip(message))]) == Returned(ObjectResponse(None, None, shown))
    ensures ChatInvoke(bot, threadId, message, fuel, w)
            == Some(HttpError(500, "Error: " + NoToolCalls(Human(shown))))
    ensures ChatInvoke(bot, threadId, message, fuel, w).value.detail
            == "Error: " + ("'" + "HumanMessage" + "' object has no attribute 'tool_calls'")
  {
    var s := AgentState([Human(Strip(message))], threadId);
    var resp := ObjectResponse(None, None, shown);
    assert Carried(resp) == [];
    FallbackThenRoutingRaises(s, resp);
    var s1 := Apply(s, ModelUpdate(resp));
    assert AgentStep(bot.tools, s, w) == Returned(s1);
    var g := RunGraph(bot.tools, bot.threadRetrievers, fuel, s, w);
    assert g == Failed(ShouldContinue(s1).error);
  }

  // ---------------------------------------------------------------- /upload-pdf

  datatype UploadBody = UploadBody(threadId: string, pdfPath: string, status: string, message: string)

  /** The `try`/`except` of `upload_pdf` around `add_document_to_thread`:
      success gives the confirmation, FileNotFoundError 404 with its text,
      any other exception 500 "Error: <e>". */
  function UploadReply(threadId: string, pdfPath: string, added: AddResult): (r: Http<UploadBody>)
    ensures added == Added <==> r.Ok?
    ensures r.Ok? ==> r.body == UploadBody(threadId, pdfPath, "success", "PDF associated with thread " + threadId)
    ensures added.NotFoundError? ==> r == HttpError(404, added.message)
    ensures added.OtherError? ==> r == HttpError(500, "Error: " + added.message)
  {
    match added
    case Added => Ok(UploadBody(threadId, pdfPath, "success", "PDF associated with thread " + threadId))
    case NotFoundError(m) => HttpError(404, m)
    case OtherError(m) => HttpError(500, "Error: " + m)
  }

  /** As written, an upload never succeeds and never reports a missing file:
      every call answers 500. */
  lemma UploadAsWrittenNeverSucceeds(threadId: string, pdfPath: string, vectorStoreInit: Outcome<()>)
    ensures UploadReply(threadId, pdfPath, AsWrittenAdd(vectorStoreInit)).HttpError?
    ensures UploadReply(threadId, pdfPath, AsWrittenAdd(vectorStoreInit)).status == 500
    ensures vectorStoreInit.Returned? ==>
              UploadReply(threadId, pdfPath, AsWrittenAdd(vectorStoreInit)).detail == "Error: " + NoCreateFromUpload
  {
  }

  /** `POST /upload-pdf/{thread_id}` as written. */
  method UploadPdf(bot: ChatbotManager?, threadId: string, pdfPath: string, vectorStoreInit: Outcome<()>)
    returns (r: Http<UploadBody>)
    modifies bot
    ensures bot == null ==> r == HttpError(503, NotInitialized)
    ensures bot != null ==> r == UploadReply(threadId, pdfPath, AsWrittenAdd(vectorStoreInit))
    ensures bot != null ==> bot.threadRetrievers == old(bot.threadRetrievers) && bot.threadMetadata == old(bot.threadMetadata)
    ensures bot != null ==> bot.tools == old(bot.tools) && bot.toolsManager == old(bot.toolsManager)
  {
    if bot == null {
      return HttpError(503, NotInitialized);
    }
    var added := bot.AddDocumentToThread(threadId, pdfPath, vectorStoreInit);
    r := UploadReply(threadId, pdfPath, added);
  }

  /** `POST /upload-pdf/{thread_id}` as evidently intended: the PDF at the
      path is indexed; on success the thread's retriever and metadata are
      set and it answers with the confirmation, a missing file answers 404,
      any other failure 500; other threads are untouched. */
  method UploadPdfIntended(bot: ChatbotManager?, threadId: string, pdfPath: string, ingest: string -> Ingest)
    returns (r: Http<UploadBody>)
    modifies bot
    ensures bot == null ==> r == HttpError(503, NotInitialized)
    ensures bot != null && ingest(pdfPath).Indexed? ==>
              && r == Ok(UploadBody(threadId, pdfPath, "success", "PDF associated with thread " + threadId))
              && bot.threadRetrievers == old(bot.threadRetrievers)[threadId := ingest(pdfPath).retriever]
              && bot.threadMetadata == old(bot.threadMetadata)[threadId := map["filename" := Str(pdfPath)]]
    ensures bot != null && ingest(pdfPath).FileMissing? ==>
              && r == HttpError(404, "PDF file not found at " + pdfPath)
              && bot.threadRetrievers == old(bot.threadRetrievers)
              && bot.threadMetadata == old(bot.threadMetadata)
    ensures bot != null && ingest(pdfPath).IngestFailed? ==>
              && r == HttpError(500, "Error: " + ingest(pdfPath).message)
              && bot.threadRetrievers == old(bot.threadRetrievers)
              && bot.threadMetadata == old(bot.threadMetadata)
    ensures bot != null ==> bot.tools == old(bot.tools) && bot.toolsManager == old(bot.toolsManager)
  {
    if bot == null {
      return HttpError(503, NotInitialized);
    }
    var added := bot.AddDocumentFromPath(threadId, pdfPath, ingest);
    r := UploadReply(threadId, pdfPath, added);
  }
}
