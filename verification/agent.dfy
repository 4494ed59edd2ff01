/** The `Agent`: `init` flattens the clients' tools into the LLM wrapper,
    and `invoke` iterates model calls until a reply has no tool calls,
    routing every tool call to the client that declares it and appending
    one tool message per call. */
module AgentLoop {
  import opened Common
  import opened Assembler
  import opened Chat

  /** A tool-providing client, reduced to the tool list it serves. The
      name is a label only: routing reads nothing but the tool lists. */
  datatype Client = Client(name: string, tools: seq<Tool>)

  /** The agent's state; `llm` is absent until `init`. */
  datatype Agent = Agent(model: string, clients: seq<Client>, systemPrompt: string,
                         context: string, llm: Option<ChatOpenAI>)

  /** What a client's `call_tool` does: return a value or raise. */
  datatype CallOutcome<+R> = Returned(value: R) | Raised(reason: string)

  /** The collaborators `invoke` calls but that are not modelled:
      `parse` is `json.loads` on a call's arguments (`None` when it raises),
      `call` is `call_tool` on the client at a position of the client list,
      `show` is `str` of a tool result and `encode` is `json.dumps` of a string.
      Being functions, they are deterministic: a tool's outcome depends only
      on the client, the tool name and the arguments. */
  datatype ToolEnv<!J, !R> = ToolEnv(parse: string -> Option<J>,
                                   call: (nat, string, J) -> CallOutcome<R>,
                                   show: R -> string,
                                   encode: string -> string)

  /** The agent after `invoke`, and what `invoke` returned or raised. */
  datatype Invoked = Invoked(agent: Agent, result: Result<Reply>)

  const NotFound := "Tool not found"

  /** Every client's tools, client after client, each in its own order. */
  function AllTools(clients: seq<Client>): (r: seq<Tool>)
    ensures forall t :: t in r <==> exists k :: 0 <= k < |clients| && t in clients[k].tools
    decreases |clients|
  {
    if |clients| == 0 then []
    else
      var p := clients[..|clients| - 1];
      assert forall k :: 0 <= k < |p| ==> p[k] == clients[k];
      AllTools(p) + clients[|clients| - 1].tools
  }

  /** `init`: a fresh LLM wrapper that is told every client's tools and
      whose log holds only the system prompt and the context. */
  function Init(a: Agent): (r: Agent)
    ensures r == a.(llm := r.llm)
    ensures r.llm.Some? && r.llm.value.model == a.model && r.llm.value.tools == AllTools(a.clients)
    ensures |r.llm.value.messages| == (if a.systemPrompt != "" then 1 else 0) + (if a.context != "" then 1 else 0)
    ensures a.systemPrompt != "" ==> r.llm.value.messages[0] == System(a.systemPrompt)
    ensures a.context != "" ==> r.llm.value.messages[|r.llm.value.messages| - 1] == User(a.context)
  {
    a.(llm := Some(Create(a.model, a.systemPrompt, AllTools(a.clients), a.context)))
  }

  predicate Declares(c: Client, name: string) {
    exists j :: 0 <= j < |c.tools| && c.tools[j].name == name
  }

  /** The client a tool call is routed to: the LAST client in list order
      that declares a tool of that name, or none. */
  function Owner(clients: seq<Client>, name: string): (r: Option<nat>)
    ensures r.Some? ==> r.value < |clients| && Declares(clients[r.value], name)
    ensures r.Some? ==> forall k :: r.value < k < |clients| ==> !Declares(clients[k], name)
    ensures r.None? <==> forall k :: 0 <= k < |clients| ==> !Declares(clients[k], name)
    decreases |clients|
  {
    if |clients| == 0 then None
    else if Declares(clients[|clients| - 1], name) then Some(|clients| - 1)
    else
      var p := clients[..|clients| - 1];
      assert forall k :: 0 <= k < |p| ==> p[k] == clients[k];
      Owner(p, name)
  }

  /** The lookup as `invoke` performs it: every client is scanned, and a
      match only leaves the scan of that client's tools, so a later
      matching client overwrites an earlier one. */
  method FindClient(clients: seq<Client>, name: string) returns (r: Option<nat>)
    ensures r == Owner(clients, name)
  {
    r := None;
    var k := 0;
    while k < |clients|
      invariant 0 <= k <= |clients|
      invariant r == Owner(clients[..k], name)
    {
      var tools := clients[k].tools;
      var j := 0;
      while j < |tools|
        invariant 0 <= j <= |tools|
        invariant r == Owner(clients[..k], name)
        invariant forall t :: 0 <= t < j ==> tools[t].name != name
      {
        if tools[j].name == name {
          r := Some(k);
          break;
        }
        j := j + 1;
      }
      assert clients[..k + 1][..k] == clients[..k];
      k := k + 1;
    }
    assert clients[..k] == clients;
  }

  /** The content of the tool message for one call. An unknown name gives
      the literal "Tool not found"; for a known one the arguments are
      decoded and the owning client called, and either step raising
      propagates. */
  function ToolResultFor<J, R>(clients: seq<Client>, call: ToolCall, env: ToolEnv<J, R>): (r: Result<string>)
    ensures Owner(clients, call.name).None? ==> r == Ok(NotFound)
    ensures r.Err? ==> Owner(clients, call.name).Some? && IsToolError(r.error) && r.error.callId == call.id
    ensures Owner(clients, call.name).Some? && env.parse(call.arguments).None? ==>
              r == Err(MalformedArguments(call.id))
    ensures Owner(clients, call.name).Some? && env.parse(call.arguments).Some?
            && env.call(Owner(clients, call.name).value, call.name, env.parse(call.arguments).value).Returned? ==>
              r == Ok(env.encode(env.show(
                env.call(Owner(clients, call.name).value, call.name, env.parse(call.arguments).value).value)))
    ensures Owner(clients, call.name).Some? && env.parse(call.arguments).Some?
            && env.call(Owner(clients, call.name).value, call.name, env.parse(call.arguments).value).Raised? ==>
              r == Err(ToolFailed(call.id,
                env.call(Owner(clients, call.name).value, call.name, env.parse(call.arguments).value).reason))
  {
    match Owner(clients, call.name)
    case None => Ok(NotFound)
    case Some(k) =>
      match env.parse(call.arguments)
      case None => Err(MalformedArguments(call.id))
      case Some(args) =>
        match env.call(k, call.name, args)
        case Raised(reason) => Err(ToolFailed(call.id, reason))
        case Returned(v) => Ok(env.encode(env.show(v)))
  }

  /** The tool calls of one reply handled in order: one tool message per
      call, carrying that call's id, until a call raises. */
  function HandleCalls<J, R>(llm: ChatOpenAI, clients: seq<Client>, calls: seq<ToolCall>, env: ToolEnv<J, R>)
    : (r: Turn<()>)
    ensures Extends(llm, r.llm)
    ensures |r.llm.messages| <= |llm.messages| + |calls|
    ensures forall i :: |llm.messages| <= i < |r.llm.messages| ==> r.llm.messages[i].ToolResult?
    ensures forall j :: 0 <= j < |r.llm.messages| - |llm.messages| ==>
              ToolResultFor(clients, calls[j], env).Ok?
              && r.llm.messages[|llm.messages| + j]
                 == ToolResult(ToolResultFor(clients, calls[j], env).value, calls[j].id)
    ensures r.result.Ok? <==> |r.llm.messages| == |llm.messages| + |calls|
    ensures r.result.Err? ==>
              && |r.llm.messages| < |llm.messages| + |calls|
              && ToolResultFor(clients, calls[|r.llm.messages| - |llm.messages|], env) == Err(r.result.error)
    decreases |calls|
  {
    if |calls| == 0 then Turn(llm, Ok(()))
    else
      match ToolResultFor(clients, calls[0], env)
      case Err(e) => Turn(llm, Err(e))
      case Ok(content) =>
        var after := AppendToolResult(llm, calls[0].id, content);
        var r := HandleCalls(after, clients, calls[1..], env);
        HandleCallsShift(llm, after, r.llm, clients, calls, env);
        r
  }

  /** The per-call characterisation of the tail's handling, shifted by the
      one message handled first. */
  lemma HandleCallsShift<J, R>(llm: ChatOpenAI, after: ChatOpenAI, last: ChatOpenAI,
                               clients: seq<Client>, calls: seq<ToolCall>, env: ToolEnv<J, R>)
    requires |calls| > 0 && ToolResultFor(clients, calls[0], env).Ok?
    requires after == AppendToolResult(llm, calls[0].id, ToolResultFor(clients, calls[0], env).value)
    requires Extends(after, last)
    requires |last.messages| <= |after.messages| + |calls| - 1
    requires forall j :: 0 <= j < |last.messages| - |after.messages| ==>
               ToolResultFor(clients, calls[1..][j], env).Ok?
               && last.messages[|after.messages| + j]
                  == ToolResult(ToolResultFor(clients, calls[1..][j], env).value, calls[1..][j].id)
    ensures forall j :: 0 <= j < |last.messages| - |llm.messages| ==>
              ToolResultFor(clients, calls[j], env).Ok?
              && last.messages[|llm.messages| + j]
                 == ToolResult(ToolResultFor(clients, calls[j], env).value, calls[j].id)
  {
    forall j | 0 <= j < |last.messages| - |llm.messages|
      ensures ToolResultFor(clients, calls[j], env).Ok?
      ensures last.messages[|llm.messages| + j]
              == ToolResult(ToolResultFor(clients, calls[j], env).value, calls[j].id)
    {
      if j == 0 {
        assert last.messages[|llm.messages|] == after.messages[|llm.messages|];
      } else {
        assert calls[1..][j - 1] == calls[j];
      }
    }
  }

  /** The reply the next model call streams, if the oracle has one. */
  function Next(streams: seq<seq<Fragment>>): (r: Option<seq<Fragment>>)
    ensures r.Some? <==> |streams| > 0
  {
    if |streams| == 0 then None else Some(streams[0])
  }

  function Rest(streams: seq<seq<Fragment>>): seq<seq<Fragment>> {
    if |streams| == 0 then [] else streams[1..]
  }

  /** The `while True` of `invoke`, entered with the reply just received:
      a reply without tool calls is returned; otherwise its calls are
      handled and the model is called again with no prompt. `streams` are
      the replies of the following model calls, in order. */
  function Loop<J, R>(llm: ChatOpenAI, clients: seq<Client>, reply: Reply,
                      streams: seq<seq<Fragment>>, env: ToolEnv<J, R>): (r: Turn<Reply>)
    ensures Extends(llm, r.llm)
    ensures forall i :: |llm.messages| <= i < |r.llm.messages| ==>
              r.llm.messages[i].Assistant? || r.llm.messages[i].ToolResult?
    ensures r.result.Ok? ==> |r.result.value.toolCalls| == 0
    decreases |streams|
  {
    if |reply.toolCalls| == 0 then Turn(llm, Ok(reply))
    else
      var handled := HandleCalls(llm, clients, reply.toolCalls, env);
      if handled.result.Err? then Turn(handled.llm, Err(handled.result.error))
      else
        var next := Send(handled.llm, "", Next(streams));
        match next.result
        case Err(e) => Turn(next.llm, Err(e))
        case Ok(reply') =>
          var r := Loop(next.llm, clients, reply', Rest(streams), env);
          assert |handled.llm.messages| <= |next.llm.messages|;
          r
  }

  /** `invoke(prompt)`: fails before touching anything when `init` has not
      run; otherwise sends the prompt and runs the loop. `streams` is the
      model oracle: the i-th model call streams `streams[i]`, and a call
      beyond its end raises. */
  function Invoke<J, R>(a: Agent, prompt: string, streams: seq<seq<Fragment>>, env: ToolEnv<J, R>)
    : (r: Invoked)
    ensures a.llm.None? ==> r == Invoked(a, Err(NotInitialized))
    ensures a.llm.Some? ==> r.agent == a.(llm := r.agent.llm) && r.agent.llm.Some?
                            && Extends(a.llm.value, r.agent.llm.value)
    ensures a.llm.Some? && prompt != "" ==>
              |r.agent.llm.value.messages| > |a.llm.value.messages|
              && r.agent.llm.value.messages[|a.llm.value.messages|] == User(prompt)
    ensures a.llm.Some? ==>
              forall i :: |a.llm.value.messages| + (if prompt != "" then 1 else 0) <= i < |r.agent.llm.value.messages| ==>
                r.agent.llm.value.messages[i].Assistant? || r.agent.llm.value.messages[i].ToolResult?
    ensures r.result.Ok? ==> |r.result.value.toolCalls| == 0
  {
    match a.llm
    case None => Invoked(a, Err(NotInitialized))
    case Some(llm) =>
      var first := Send(llm, prompt, Next(streams));
      var t := match first.result
        case Err(e) => Turn(first.llm, Err(e))
        case Ok(reply) => Loop(first.llm, a.clients, reply, Rest(streams), env);
      Invoked(a.(llm := Some(t.llm)), t.result)
  }
}
