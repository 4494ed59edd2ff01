/** Properties of `init` and `invoke` that relate several calls: tool
    flattening, routability of advertised tools, the pairing of every
    assistant turn with its tool messages, and which reply `invoke`
    returns relative to the model oracle. */
module AgentProperties {
  import opened Common
  import opened Assembler
  import opened Chat
  import opened AgentLoop

  /** Flattening distributes over a concatenation of client lists. */
  lemma {:induction false} AllToolsAppend(a: seq<Client>, b: seq<Client>)
    ensures AllTools(a + b) == AllTools(a) + AllTools(b)
    decreases |b|
  {
    if |b| == 0 {
      assert a + b == a;
    } else {
      var b' := b[..|b| - 1];
      assert (a + b)[..|a + b| - 1] == a + b';
      assert (a + b)[|a + b| - 1] == b[|b| - 1];
      AllToolsAppend(a, b');
    }
  }

  /** The schema list `init` gives the model is the concatenation of each
      client's schema list, in client order. */
  lemma InitDefinitionsPerClient(a: Agent, c: Client)
    ensures ToolsDefinition(Init(a.(clients := a.clients + [c])).llm.value)
         == ToolsDefinition(Init(a).llm.value) + ToolsDefinition(ChatOpenAI(a.model, c.tools, []))
  {
    AllToolsAppend(a.clients, [c]);
    assert AllTools([c]) == c.tools by {
      assert [c][..0] == [];
    }
    var init := Init(a).llm.value;
    DefinitionsAppend(a.model, AllTools(a.clients), c.tools, init.messages);
  }

  /** Every tool `init` advertises to the model is routed to some client. */
  lemma AdvertisedToolsRoutable(a: Agent)
    ensures forall i :: 0 <= i < |ToolsDefinition(Init(a).llm.value)| ==>
              Owner(a.clients, ToolsDefinition(Init(a).llm.value)[i].definition.name).Some?
  {
    var tools := Init(a).llm.value.tools;
    forall i | 0 <= i < |tools|
      ensures Owner(a.clients, tools[i].name).Some?
    {
      var t := tools[i];
      assert t in AllTools(a.clients);
      var k :| 0 <= k < |a.clients| && t in a.clients[k].tools;
      var j :| 0 <= j < |a.clients[k].tools| && a.clients[k].tools[j] == t;
      assert Declares(a.clients[k], t.name);
    }
  }

  /** The message at `i`, if it is an assistant message, is immediately
      followed by one tool message per tool call it records, in call
      order, each carrying that call's id. */
  ghost predicate AnsweredAt(log: seq<Message>, i: nat)
    requires i < |log|
  {
    log[i].Assistant? ==>
      && i + |log[i].toolCalls| < |log|
      && forall j {:trigger log[i].toolCalls[j]} :: 0 <= j < |log[i].toolCalls| ==>
           Answers(log[i + 1 + j], log[i].toolCalls[j])
  }

  /** `m` is the tool message answering call `c`. */
  predicate Answers(m: Message, c: WireToolCall) {
    m.ToolResult? && m.toolCallId == c.id
  }

  /** Every assistant message of the log from `start` on is answered. */
  ghost predicate PairedFrom(log: seq<Message>, start: nat) {
    forall i :: start <= i < |log| ==> AnsweredAt(log, i)
  }

  /** One round of the loop, spelled out: handle the calls, call the model
      with no prompt, continue with its reply. */
  lemma LoopUnfold<J, R>(llm: ChatOpenAI, clients: seq<Client>, reply: Reply,
                         streams: seq<seq<Fragment>>, env: ToolEnv<J, R>)
    requires |reply.toolCalls| > 0
    ensures var handled := HandleCalls(llm, clients, reply.toolCalls, env);
            var next := Send(handled.llm, "", Next(streams));
            Loop(llm, clients, reply, streams, env)
            == if handled.result.Err? then Turn(handled.llm, Err(handled.result.error))
               else if next.result.Err? then Turn(next.llm, Err(next.result.error))
               else Loop(next.llm, clients, next.result.value, Rest(streams), env)
  {
  }

  /** The messages one round of the loop appends: one tool message per
      call, carrying the call's id, then the next assistant message. */
  lemma RoundMessages<J, R>(llm: ChatOpenAI, clients: seq<Client>, calls: seq<ToolCall>,
                            stream: Option<seq<Fragment>>, env: ToolEnv<J, R>)
    requires HandleCalls(llm, clients, calls, env).result.Ok?
    requires Send(HandleCalls(llm, clients, calls, env).llm, "", stream).result.Ok?
    ensures var next := Send(HandleCalls(llm, clients, calls, env).llm, "", stream);
            && |next.llm.messages| == |llm.messages| + |calls| + 1
            && llm.messages <= next.llm.messages
            && next.llm.messages[|next.llm.messages| - 1] == AssistantFor(next.result.value)
            && forall j :: 0 <= j < |calls| ==>
                 next.llm.messages[|llm.messages| + j].ToolResult?
                 && next.llm.messages[|llm.messages| + j].toolCallId == calls[j].id
  {
    var handled := HandleCalls(llm, clients, calls, env);
    var next := Send(handled.llm, "", stream);
    forall j | 0 <= j < |calls|
      ensures next.llm.messages[|llm.messages| + j].ToolResult?
      ensures next.llm.messages[|llm.messages| + j].toolCallId == calls[j].id
    {
      assert next.llm.messages[|llm.messages| + j] == handled.llm.messages[|llm.messages| + j];
    }
  }

  /** Pure log reasoning for one round: an assistant message at `m - 1`
      whose calls are answered, in order, by the tool messages of `round`
      (a prefix of the log), in front of a paired rest, pairs the log from
      `m - 1` on. */
  lemma RoundPaired(log: seq<Message>, m: nat, reply: Reply, round: seq<Message>)
    requires 0 < m && m + |reply.toolCalls| <= |round| && round <= log
    requires round[m - 1] == AssistantFor(reply)
    requires forall j :: 0 <= j < |reply.toolCalls| ==>
               round[m + j].ToolResult? && round[m + j].toolCallId == reply.toolCalls[j].id
    requires PairedFrom(log, m + |reply.toolCalls|)
    ensures PairedFrom(log, m - 1)
  {
    var n := |reply.toolCalls|;
    assert log[m - 1] == AssistantFor(reply);
    var calls := log[m - 1].toolCalls;
    assert |calls| == n;
    assert log[m - 1].Assistant?;
    forall j | 0 <= j < |calls|
      ensures Answers(log[m - 1 + 1 + j], calls[j])
    {
      var c := reply.toolCalls[j];
      assert round[m + j].ToolResult? && round[m + j].toolCallId == c.id;
      assert log[m + j] == round[m + j];
    }
    assert AnsweredAt(log, m - 1);
    forall i | m <= i < m + n
      ensures AnsweredAt(log, i)
    {
      var c := reply.toolCalls[i - m];
      assert round[m + (i - m)].ToolResult?;
      assert log[i] == round[i];
    }
  }

  /** From the assistant message of the reply the loop is entered with,
      a successful loop leaves a paired log. */
  lemma {:induction false} LoopPaired<J, R>(llm: ChatOpenAI, clients: seq<Client>, reply: Reply,
                                            streams: seq<seq<Fragment>>, env: ToolEnv<J, R>)
    requires |llm.messages| > 0 && llm.messages[|llm.messages| - 1] == AssistantFor(reply)
    ensures Loop(llm, clients, reply, streams, env).result.Ok? ==>
              PairedFrom(Loop(llm, clients, reply, streams, env).llm.messages, |llm.messages| - 1)
    decreases |streams|
  {
    var r := Loop(llm, clients, reply, streams, env);
    var m := |llm.messages|;
    if r.result.Ok? {
      if |reply.toolCalls| == 0 {
        assert r.llm.messages == llm.messages;
        assert AnsweredAt(r.llm.messages, m - 1);
      } else {
        var handled := HandleCalls(llm, clients, reply.toolCalls, env);
        var next := Send(handled.llm, "", Next(streams));
        LoopUnfold(llm, clients, reply, streams, env);
        RoundMessages(llm, clients, reply.toolCalls, Next(streams), env);
        LoopPaired(next.llm, clients, next.result.value, Rest(streams), env);
        RoundPaired(r.llm.messages, m, reply, next.llm.messages);
      }
    }
  }

  /** A successful `invoke` appends a paired log: from its first assistant
      message on, every assistant turn is answered, call by call, by tool
      messages before the next model call. */
  lemma InvokePaired<J, R>(a: Agent, prompt: string, streams: seq<seq<Fragment>>, env: ToolEnv<J, R>)
    requires a.llm.Some?
    ensures var r := Invoke(a, prompt, streams, env);
            r.result.Ok? ==>
              PairedFrom(r.agent.llm.value.messages, |a.llm.value.messages| + (if prompt != "" then 1 else 0))
  {
    var llm := a.llm.value;
    var first := Send(llm, prompt, Next(streams));
    if first.result.Ok? {
      LoopPaired(first.llm, a.clients, first.result.value, Rest(streams), env);
    }
  }

  predicate Final(s: seq<Fragment>) {
    Assemble(s).Ok? && |Assemble(s).value.toolCalls| == 0
  }

  predicate Continues(s: seq<Fragment>) {
    Assemble(s).Ok? && |Assemble(s).value.toolCalls| > 0
  }

  /** Reply `k` of the oracle is the first without tool calls, and every
      earlier one assembles and has tool calls. */
  ghost predicate FirstFinalAt(streams: seq<seq<Fragment>>, k: nat) {
    && k < |streams|
    && Final(streams[k])
    && forall j :: 0 <= j < k ==> Continues(streams[j])
  }

  /** Every tool call of the oracle's replies before reply `k` succeeds. */
  ghost predicate ToolsSucceed<J, R>(clients: seq<Client>, streams: seq<seq<Fragment>>, k: nat, env: ToolEnv<J, R>) {
    forall j, c :: 0 <= j < k && j < |streams| && Assemble(streams[j]).Ok? && c in Assemble(streams[j]).value.toolCalls ==>
      ToolResultFor(clients, c, env).Ok?
  }

  lemma FirstFinalShift(streams: seq<seq<Fragment>>, k: nat)
    requires FirstFinalAt(streams, k) && k > 0
    ensures FirstFinalAt(streams[1..], k - 1)
  {
    forall j | 0 <= j < k - 1
      ensures Continues(streams[1..][j])
    {
      assert streams[1..][j] == streams[j + 1];
    }
  }

  lemma HandleCallsSucceed<J, R>(llm: ChatOpenAI, clients: seq<Client>, calls: seq<ToolCall>, env: ToolEnv<J, R>)
    requires forall c :: c in calls ==> ToolResultFor(clients, c, env).Ok?
    ensures HandleCalls(llm, clients, calls, env).result.Ok?
  {
  }

  /** Tool success up to reply `k` covers the first reply's calls and
      carries over to the rest of the oracle. */
  lemma ToolsSucceedShift<J, R>(clients: seq<Client>, streams: seq<seq<Fragment>>, k: nat, env: ToolEnv<J, R>)
    requires 0 < k && 0 < |streams| && ToolsSucceed(clients, streams, k, env)
    ensures ToolsSucceed(clients, streams[1..], k - 1, env)
    ensures Assemble(streams[0]).Ok? ==>
              forall c :: c in Assemble(streams[0]).value.toolCalls ==> ToolResultFor(clients, c, env).Ok?
  {
    forall j, c | 0 <= j < k - 1 && j < |streams[1..]| && Assemble(streams[1..][j]).Ok?
                  && c in Assemble(streams[1..][j]).value.toolCalls
      ensures ToolResultFor(clients, c, env).Ok?
    {
      assert streams[1..][j] == streams[j + 1];
    }
  }

  /** Entered with a reply that has tool calls, the loop stops at the
      oracle's first reply without tool calls and returns it, unless a tool
      call raises; when none raises, it does return that reply. */
  lemma {:induction false} LoopFirstFinal<J, R>(llm: ChatOpenAI, clients: seq<Client>, reply: Reply,
                                                streams: seq<seq<Fragment>>, env: ToolEnv<J, R>, k: nat)
    requires |reply.toolCalls| > 0
    requires FirstFinalAt(streams, k)
    ensures var r := Loop(llm, clients, reply, streams, env);
            && (r.result.Ok? ==> r.result.value == Assemble(streams[k]).value)
            && (r.result.Err? ==> IsToolError(r.result.error))
            && (&& (forall c :: c in reply.toolCalls ==> ToolResultFor(clients, c, env).Ok?)
                && ToolsSucceed(clients, streams, k, env)
                ==> r.result.Ok?)
    decreases k
  {
    var handled := HandleCalls(llm, clients, reply.toolCalls, env);
    var next := Send(handled.llm, "", Next(streams));
    LoopUnfold(llm, clients, reply, streams, env);
    if (forall c :: c in reply.toolCalls ==> ToolResultFor(clients, c, env).Ok?) {
      HandleCallsSucceed(llm, clients, reply.toolCalls, env);
    }
    if handled.result.Ok? {
      assert Final(streams[0]) || Continues(streams[0]) by {
        if k > 0 {
          assert Continues(streams[0]);
        }
      }
      var reply' := next.result.value;
      assert Assemble(streams[0]) == Ok(reply');
      if k > 0 {
        FirstFinalShift(streams, k);
        assert Rest(streams) == streams[1..];
        LoopFirstFinal(next.llm, clients, reply', streams[1..], env, k - 1);
        assert streams[1..][k - 1] == streams[k];
        if ToolsSucceed(clients, streams, k, env) {
          ToolsSucceedShift(clients, streams, k, env);
        }
      }
    }
  }

  /** Given an oracle whose reply `k` is the first without tool calls,
      `invoke` returns exactly that reply unless a tool call raises, and
      does return it when no tool call raises. */
  lemma InvokeFirstFinal<J, R>(a: Agent, prompt: string, streams: seq<seq<Fragment>>, env: ToolEnv<J, R>, k: nat)
    requires a.llm.Some?
    requires FirstFinalAt(streams, k)
    ensures var r := Invoke(a, prompt, streams, env);
            && (r.result.Ok? ==> r.result.value == Assemble(streams[k]).value)
            && (r.result.Err? ==> IsToolError(r.result.error))
            && (ToolsSucceed(a.clients, streams, k, env) ==> r.result.Ok?)
  {
    var first := Send(a.llm.value, prompt, Next(streams));
    var reply := first.result.value;
    if k > 0 {
      assert Continues(streams[0]);
      FirstFinalShift(streams, k);
      assert Rest(streams) == streams[1..];
      LoopFirstFinal(first.llm, a.clients, reply, streams[1..], env, k - 1);
      assert streams[1..][k - 1] == streams[k];
      if ToolsSucceed(a.clients, streams, k, env) {
        ToolsSucceedShift(a.clients, streams, k, env);
      }
    }
  }

  /** A continuing reply in front of an oracle whose reply `k` is the
      first final one moves that first final reply to `k + 1`. */
  lemma FirstFinalCons(streams: seq<seq<Fragment>>, k: nat)
    requires |streams| > 0 && Continues(streams[0]) && FirstFinalAt(streams[1..], k)
    ensures FirstFinalAt(streams, k + 1) && streams[k + 1] == streams[1..][k]
  {
    forall j | 0 <= j < k + 1
      ensures Continues(streams[j])
    {
      if j > 0 {
        assert streams[1..][j - 1] == streams[j];
      }
    }
  }

  /** The loop only returns a reply that is the oracle's first without
      tool calls. */
  lemma {:induction false} LoopReturnsFirstFinal<J, R>(llm: ChatOpenAI, clients: seq<Client>, reply: Reply,
                                                       streams: seq<seq<Fragment>>, env: ToolEnv<J, R>)
    requires |reply.toolCalls| > 0
    requires Loop(llm, clients, reply, streams, env).result.Ok?
    ensures exists k: nat :: FirstFinalAt(streams, k)
                        && Loop(llm, clients, reply, streams, env).result.value == Assemble(streams[k]).value
    decreases |streams|
  {
    var r := Loop(llm, clients, reply, streams, env);
    var handled := HandleCalls(llm, clients, reply.toolCalls, env);
    var next := Send(handled.llm, "", Next(streams));
    LoopUnfold(llm, clients, reply, streams, env);
    assert handled.result.Ok? && next.result.Ok?;
    var reply' := next.result.value;
    assert |streams| > 0 && Assemble(streams[0]) == Ok(reply');
    ghost var r' := Loop(next.llm, clients, reply', Rest(streams), env);
    assert r == r';
    if |reply'.toolCalls| == 0 {
      assert r.result.value == reply';
      assert FirstFinalAt(streams, 0);
    } else {
      assert Continues(streams[0]);
      LoopReturnsFirstFinal(next.llm, clients, reply', Rest(streams), env);
      var k: nat :| FirstFinalAt(Rest(streams), k) && r'.result.value == Assemble(Rest(streams)[k]).value;
      FirstFinalCons(streams, k);
    }
  }

  /** `invoke` only returns the oracle's first reply without tool calls:
      with the lemma above, it returns exactly that reply. */
  lemma InvokeReturnsFirstFinal<J, R>(a: Agent, prompt: string, streams: seq<seq<Fragment>>, env: ToolEnv<J, R>)
    requires Invoke(a, prompt, streams, env).result.Ok?
    ensures exists k: nat :: FirstFinalAt(streams, k)
                        && Invoke(a, prompt, streams, env).result.value == Assemble(streams[k]).value
  {
    var r := Invoke(a, prompt, streams, env);
    var first := Send(a.llm.value, prompt, Next(streams));
    var reply := first.result.value;
    assert |streams| > 0 && Assemble(streams[0]) == Ok(reply);
    ghost var t := Loop(first.llm, a.clients, reply, Rest(streams), env);
    assert r.result == t.result;
    if |reply.toolCalls| == 0 {
      assert FirstFinalAt(streams, 0);
    } else {
      assert Continues(streams[0]);
      LoopReturnsFirstFinal(first.llm, a.clients, reply, Rest(streams), env);
      var k: nat :| FirstFinalAt(Rest(streams), k) && t.result.value == Assemble(Rest(streams)[k]).value;
      FirstFinalCons(streams, k);
    }
  }

  /** Calls to tools no client declares do not stop the loop: each is
      answered, in order, by a "Tool not found" message. */
  lemma UnknownToolsAnswered<J, R>(llm: ChatOpenAI, clients: seq<Client>, calls: seq<ToolCall>, env: ToolEnv<J, R>)
    requires forall c :: c in calls ==> Owner(clients, c.name).None?
    ensures var r := HandleCalls(llm, clients, calls, env);
            && r.result.Ok?
            && |r.llm.messages| == |llm.messages| + |calls|
            && forall j :: 0 <= j < |calls| ==> r.llm.messages[|llm.messages| + j] == ToolResult(NotFound, calls[j].id)
  {
    HandleCallsSucceed(llm, clients, calls, env);
  }

  /** A first reply without tool calls is returned after one model call,
      and the only messages appended are the prompt and that reply. */
  lemma ImmediateAnswer<J, R>(a: Agent, prompt: string, streams: seq<seq<Fragment>>, env: ToolEnv<J, R>)
    requires a.llm.Some? && |streams| > 0 && Final(streams[0])
    ensures var r := Invoke(a, prompt, streams, env);
            && r.result == Ok(Assemble(streams[0]).value)
            && r.agent.llm.value.messages
               == a.llm.value.messages + (if prompt != "" then [User(prompt)] else [])
                  + [AssistantFor(Assemble(streams[0]).value)]
  {
  }
}
