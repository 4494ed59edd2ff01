/** The `ChatOpenAI` wrapper: its append-only message log, one `chat`
    turn around the stream assembler, `append_tool_result` and the tool
    schema list sent to the model. */
module Chat {
  import opened Common
  import opened Assembler

  /** A tool as a client lists it; its JSON-schema input is kept as its text. */
  datatype Tool = Tool(name: string, description: string, inputSchema: string)

  /** The OpenAI-format schema entry for one tool. */
  datatype FunctionDefinition = FunctionDefinition(name: string, description: string, parameters: string)
  datatype ToolDefinition = ToolDefinition(kind: string, definition: FunctionDefinition)

  /** A tool call as recorded in an assistant message. */
  datatype WireFunction = WireFunction(name: string, arguments: string)
  datatype WireToolCall = WireToolCall(id: string, kind: string, call: WireFunction)

  /** The role-tagged entries of the log. An assistant message keeps the
      content as the list of streamed chunks. */
  datatype Message =
    | System(content: string)
    | User(content: string)
    | Assistant(chunks: seq<string>, toolCalls: seq<WireToolCall>)
    | ToolResult(content: string, toolCallId: string)

  /** The state of one `ChatOpenAI` object. */
  datatype ChatOpenAI = ChatOpenAI(model: string, tools: seq<Tool>, messages: seq<Message>)

  /** The state after a call, and what the call returned or raised. */
  datatype Turn<+T> = Turn(llm: ChatOpenAI, result: Result<T>)

  const FunctionKind := "function"

  /** The log starts with the system prompt, then the context as a user
      message, each only when non-empty. */
  function Create(model: string, systemPrompt: string, tools: seq<Tool>, context: string): (r: ChatOpenAI)
    ensures r.model == model && r.tools == tools
    ensures |r.messages| == (if systemPrompt != "" then 1 else 0) + (if context != "" then 1 else 0)
    ensures systemPrompt != "" ==> r.messages[0] == System(systemPrompt)
    ensures context != "" ==> r.messages[|r.messages| - 1] == User(context)
  {
    var system := if systemPrompt != "" then [System(systemPrompt)] else [];
    var user := if context != "" then [User(context)] else [];
    ChatOpenAI(model, tools, system + user)
  }

  /** The tool calls of a reply as the assistant message records them. */
  function WireCalls(calls: seq<ToolCall>): (r: seq<WireToolCall>)
    ensures |r| == |calls|
    ensures forall i :: 0 <= i < |r| ==>
              r[i].kind == FunctionKind && r[i].id == calls[i].id
              && r[i].call.name == calls[i].name && r[i].call.arguments == calls[i].arguments
  {
    seq(|calls|, i requires 0 <= i < |calls| =>
      WireToolCall(calls[i].id, FunctionKind, WireFunction(calls[i].name, calls[i].arguments)))
  }

  /** The tool calls an assistant message records, read back. */
  function CallsOf(wire: seq<WireToolCall>): (r: seq<ToolCall>)
    ensures |r| == |wire|
  {
    seq(|wire|, i requires 0 <= i < |wire| => ToolCall(wire[i].id, wire[i].call.name, wire[i].call.arguments))
  }

  /** The assistant message for a reply: its chunks, and its tool calls in
      wire form, from which the reply's calls read back unchanged. */
  function AssistantFor(reply: Reply): (m: Message)
    ensures m.Assistant? && m.chunks == reply.content
    ensures CallsOf(m.toolCalls) == reply.toolCalls
    ensures forall i :: 0 <= i < |m.toolCalls| ==> m.toolCalls[i].kind == FunctionKind
  {
    Assistant(reply.content, WireCalls(reply.toolCalls))
  }

  /** Sequence-prefix: `b` is `a` with messages appended. */
  predicate Extends(a: ChatOpenAI, b: ChatOpenAI) {
    b.model == a.model && b.tools == a.tools && a.messages <= b.messages
  }

  /** One `chat(prompt)` turn. A non-empty prompt is appended as a user
      message before the model is called; `stream` is the model's streamed
      reply, or `None` when the transport call raises. A successful turn
      appends exactly one assistant message; a failing one leaves the user
      message it already appended. */
  function Send(llm: ChatOpenAI, prompt: string, stream: Option<seq<Fragment>>): (r: Turn<Reply>)
    ensures Extends(llm, r.llm)
    ensures prompt != "" ==> |r.llm.messages| > |llm.messages| && r.llm.messages[|llm.messages|] == User(prompt)
    ensures r.result.Ok? <==> stream.Some? && Assemble(stream.value).Ok?
    ensures r.result.Ok? ==> Assemble(stream.value) == Ok(r.result.value)
    ensures r.result.Ok? ==>
              |r.llm.messages| == |llm.messages| + (if prompt != "" then 1 else 0) + 1
              && r.llm.messages[|r.llm.messages| - 1] == AssistantFor(r.result.value)
    ensures r.result.Err? ==> |r.llm.messages| == |llm.messages| + (if prompt != "" then 1 else 0)
  {
    var asked := if prompt != "" then llm.(messages := llm.messages + [User(prompt)]) else llm;
    match stream
    case None => Turn(asked, Err(TransportFailed))
    case Some(frags) =>
      match Assemble(frags)
      case Err(e) => Turn(asked, Err(e))
      case Ok(reply) => Turn(asked.(messages := asked.messages + [AssistantFor(reply)]), Ok(reply))
  }

  /** `append_tool_result`: exactly one tool message with the given id and
      content is appended; nothing else changes. */
  function AppendToolResult(llm: ChatOpenAI, toolCallId: string, content: string): (r: ChatOpenAI)
    ensures Extends(llm, r)
    ensures |r.messages| == |llm.messages| + 1
    ensures r.messages[|llm.messages|] == ToolResult(content, toolCallId)
  {
    llm.(messages := llm.messages + [ToolResult(content, toolCallId)])
  }

  function Definition(t: Tool): ToolDefinition {
    ToolDefinition(FunctionKind, FunctionDefinition(t.name, t.description, t.inputSchema))
  }

  /** `get_tools_definition`: one schema entry per tool, in tool order. */
  function ToolsDefinition(llm: ChatOpenAI): (r: seq<ToolDefinition>)
    ensures |r| == |llm.tools|
    ensures forall i :: 0 <= i < |r| ==>
              r[i].kind == FunctionKind && r[i].definition.name == llm.tools[i].name
              && r[i].definition.description == llm.tools[i].description
              && r[i].definition.parameters == llm.tools[i].inputSchema
  {
    if |llm.tools| == 0 then []
    else seq(|llm.tools|, i requires 0 <= i < |llm.tools| => Definition(llm.tools[i]))
  }

  /** The tool a schema entry describes, read back. */
  function ToolOf(d: ToolDefinition): Tool {
    Tool(d.definition.name, d.definition.description, d.definition.parameters)
  }

  /** The assistant message loses nothing of the reply's tool calls. */
  lemma WireRoundTrip(calls: seq<ToolCall>)
    ensures CallsOf(WireCalls(calls)) == calls
  {
    var back := CallsOf(WireCalls(calls));
    forall i | 0 <= i < |calls|
      ensures back[i] == calls[i]
    {
    }
  }

  /** The schema list loses nothing of the tools: read back entry by entry
      it is the tool list itself, in order. */
  lemma DefinitionsRoundTrip(llm: ChatOpenAI)
    ensures seq(|ToolsDefinition(llm)|, i requires 0 <= i < |ToolsDefinition(llm)| => ToolOf(ToolsDefinition(llm)[i]))
         == llm.tools
  {
  }

  /** The schema list of a concatenation of tool lists is the
      concatenation of their schema lists. */
  lemma DefinitionsAppend(model: string, a: seq<Tool>, b: seq<Tool>, messages: seq<Message>)
    ensures ToolsDefinition(ChatOpenAI(model, a + b, messages))
         == ToolsDefinition(ChatOpenAI(model, a, messages)) + ToolsDefinition(ChatOpenAI(model, b, messages))
  {
  }
}
