/** The conversation log of the agent graph (`AgentState` in
    src/backend/manager.py), the reducer that merges a node's output into it,
    the routing rule after the `agent` node, and the normalisation of a
    model backend's response into exactly one message. */
module Messages {
  import opened PyValues

  /** One tool call requested by the model: its id, the tool's name and the
      keyword arguments. */
  datatype ToolCall = ToolCall(id: string, name: string, args: Args)

  /** An entry of the message log. The message classes of langchain_core
      that the agent handles: only an AI message carries `tool_calls`; a tool
      message carries the tool's output (its text is `str(output)`), the id
      of the call it answers and the tool's name. The reducer does not check
      types, so an entry can also be any other Python object a model
      backend's wrapper held, such as `None`; `Foreign` keeps only its class
      name. */
  datatype Message =
    | Human(content: string)
    | Ai(content: string, toolCalls: seq<ToolCall>)
    | ToolResult(output: Value, toolCallId: string, name: string)
    | System(content: string)
    | Foreign(className: string)

  /** The graph state: the message log and the conversation's thread id. */
  datatype AgentState = AgentState(messages: seq<Message>, threadId: string)

  /** What a node returns: `{"messages": [...]}`. */
  datatype Update = Update(messages: seq<Message>)

  /** The Python class name of a message, as an AttributeError reports it. */
  function ClassName(m: Message): (c: string)
    ensures m.Foreign? ==> c == m.className
    ensures !m.Foreign? ==> |c| > 7 && c[|c| - 7..] == "Message"
  {
    match m
    case Human(_) => "HumanMessage"
    case Ai(_, _) => "AIMessage"
    case ToolResult(_, _, _) => "ToolMessage"
    case System(_) => "SystemMessage"
    case Foreign(c) => c
  }

  /** `str(e)` of the AttributeError raised by reading `tool_calls` from a
      message of a class that has no such attribute: the class name in
      single quotes, then the attribute's name. */
  function NoToolCalls(m: Message): (e: string)
    ensures |e| == |ClassName(m)| + 39 && e[0] == '\''
    ensures e[1..|ClassName(m)| + 1] == ClassName(m)
    ensures e[|ClassName(m)| + 1..] == "' object has no attribute 'tool_calls'"
  {
    "'" + ClassName(m) + "' object has no attribute 'tool_calls'"
  }

  /** The reducer annotated on `messages`: the old log followed by the new
      messages. */
  function Reduce(log: seq<Message>, added: seq<Message>): (r: seq<Message>)
    ensures |r| == |log| + |added|
    ensures r[..|log|] == log
    ensures r[|log|..] == added
  {
    log + added
  }

  /** Merging a node's update into the state: only the log changes, and it
      grows at its end. */
  function Apply(s: AgentState, u: Update): (r: AgentState)
    ensures r.threadId == s.threadId
    ensures IsPrefix(s.messages, r.messages)
    ensures r.messages[|s.messages|..] == u.messages
  {
    AgentState(Reduce(s.messages, u.messages), s.threadId)
  }

  predicate IsPrefix(a: seq<Message>, b: seq<Message>)
  {
    |a| <= |b| && b[..|a|] == a
  }

  /** Applying two updates one after the other is applying their
      concatenation: the log is append-only and order-preserving. */
  lemma ApplyTwice(s: AgentState, u1: Update, u2: Update)
    ensures Apply(Apply(s, u1), u2) == Apply(s, Update(u1.messages + u2.messages))
  {
    assert s.messages + u1.messages + u2.messages == s.messages + (u1.messages + u2.messages);
  }

  lemma {:induction false} PrefixTransitive(a: seq<Message>, b: seq<Message>, c: seq<Message>)
    requires IsPrefix(a, b) && IsPrefix(b, c)
    ensures IsPrefix(a, c)
  {
    assert c[..|a|] == c[..|b|][..|a|];
  }

  /** Where the graph goes after the `agent` node. */
  datatype Route = ToTools | ToEnd

  /** `_should_continue`: reads `state["messages"][-1].tool_calls`. An empty
      log raises IndexError; a last message other than an AI message has no
      `tool_calls` attribute and raises AttributeError. An exception is kept
      as `str(e)`, without its class name. */
  function ShouldContinue(s: AgentState): (r: Outcome<Route>)
    ensures r == Returned(ToTools) <==>
              |s.messages| > 0 && s.messages[|s.messages| - 1].Ai? && |s.messages[|s.messages| - 1].toolCalls| > 0
    ensures r == Returned(ToEnd) <==>
              |s.messages| > 0 && s.messages[|s.messages| - 1].Ai? && s.messages[|s.messages| - 1].toolCalls == []
    ensures r.Raised? <==> |s.messages| == 0 || !s.messages[|s.messages| - 1].Ai?
    ensures |s.messages| == 0 ==> r == Raised("list index out of range")
    ensures |s.messages| > 0 && !s.messages[|s.messages| - 1].Ai? ==>
              r == Raised(NoToolCalls(s.messages[|s.messages| - 1]))
  {
    if |s.messages| == 0 then Raised("list index out of range")
    else
      match s.messages[|s.messages| - 1]
      case Ai(_, calls) => if |calls| > 0 then Returned(ToTools) else Returned(ToEnd)
      case m => Raised(NoToolCalls(m))
  }

  /** The tool calls `_call_tool` reads from a message: the AI message's
      `tool_calls`, and none for any other message. */
  function CallsOf(m: Message): (calls: seq<ToolCall>)
    ensures m.Ai? ==> calls == m.toolCalls
    ensures !m.Ai? ==> calls == []
  {
    if m.Ai? then m.toolCalls else []
  }

  /** The shapes a model backend may return from `ainvoke`:
      - a message object itself (`isinstance(response, BaseMessage)`);
      - any other object, with or without a `.message` attribute and with or
        without a `.messages` attribute, whose string form is `shown`; an
        attribute that is present holds whatever it holds (`Some(Foreign(
        "NoneType"))` for `.message = None`), an absent one is `None`;
      - a Python list, of messages or of other objects.
      A `MessageResponse(Foreign(c))` stands for a message of another
      `BaseMessage` subclass, such as `ChatMessage`: `Normalize` takes it as
      it is, and routing then raises `NoToolCalls(Foreign(c))`. */
  datatype Response =
    | MessageResponse(msg: Message)
    | ObjectResponse(messageAttr: Option<Message>, messagesAttr: Option<seq<Message>>, shown: string)
    | ListResponse(items: seq<Message>)

  /** `str(response)` for the shapes that reach the fallback. */
  function StringForm(r: Response): string
  {
    match r
    case MessageResponse(_) => ""
    case ObjectResponse(_, _, shown) => shown
    case ListResponse(items) => if items == [] then "[]" else ""
  }

  /** The messages a response carries, in the order in which the
      normalisation looks for them. */
  function Carried(r: Response): seq<Message>
  {
    match r
    case MessageResponse(m) => [m]
    case ObjectResponse(a, ms, _) =>
      (if a.Some? then [a.value] else []) + (if ms.Some? then ms.value else [])
    case ListResponse(items) => items
  }

  /** The response normalisation of `_call_model`: the response itself if it
      is a message; otherwise its `.message`; otherwise the first of a
      non-empty `.messages`; otherwise the first element of a non-empty list;
      otherwise a HumanMessage holding the response's string form. */
  function Normalize(r: Response): (m: Message)
    ensures Carried(r) != [] ==> m == Carried(r)[0]
    ensures Carried(r) == [] ==> m == Human(StringForm(r))
  {
    match r
    case MessageResponse(msg) => msg
    case ObjectResponse(a, ms, shown) =>
      if a.Some? then a.value
      else if ms.Some? && |ms.value| > 0 then ms.value[0]
      else Human(shown)
    case ListResponse(items) =>
      if |items| > 0 then items[0] else Human("[]")
  }

  /** What the `agent` node returns for a response: exactly one message, and
      that message is one the response carries, or else the string-form
      fallback. */
  function ModelUpdate(r: Response): (u: Update)
    ensures |u.messages| == 1
    ensures u.messages[0] in Carried(r) || (Carried(r) == [] && u.messages[0] == Human(StringForm(r)))
  {
    Update([Normalize(r)])
  }

  /** A response that does not carry a message becomes a HumanMessage, which
      the routing step then cannot read `tool_calls` from: the turn raises. */
  lemma FallbackThenRoutingRaises(s: AgentState, r: Response)
    requires Carried(r) == []
    ensures ShouldContinue(Apply(s, ModelUpdate(r))).Raised?
    ensures ShouldContinue(Apply(s, ModelUpdate(r))).error == "'" + "HumanMessage" + "' object has no attribute 'tool_calls'"
  {
    var s1 := Apply(s, ModelUpdate(r));
    assert s1.messages[|s1.messages| - 1] == Human(StringForm(r));
  }

  /** A wrapper's `.message` is taken as it is, whatever `.messages` holds:
      the log gains exactly that value, and if it is not an AI message the
      routing step raises reading `tool_calls` from it. */
  lemma MessageAttributeTakenAsIs(s: AgentState, x: Message, ms: Option<seq<Message>>, shown: string)
    ensures Apply(s, ModelUpdate(ObjectResponse(Some(x), ms, shown))).messages == s.messages + [x]
    ensures !x.Ai? ==> ShouldContinue(Apply(s, ModelUpdate(ObjectResponse(Some(x), ms, shown)))) == Raised(NoToolCalls(x))
  {
    var s1 := Apply(s, ModelUpdate(ObjectResponse(Some(x), ms, shown)));
    assert s1.messages[|s1.messages| - 1] == x;
  }

  /** `.message = None` on a wrapper: `None` is appended to the log, and
      routing raises the AttributeError of `NoneType`. */
  lemma NoneMessageAttributeRaises(s: AgentState, ms: Option<seq<Message>>, shown: string)
    ensures ShouldContinue(Apply(s, ModelUpdate(ObjectResponse(Some(Foreign("NoneType")), ms, shown)))).error
            == "'" + "NoneType" + "' object has no attribute 'tool_calls'"
  {
    MessageAttributeTakenAsIs(s, Foreign("NoneType"), ms, shown);
  }
}
