# Tool-use agent core: stream assembly, conversation log, agent loop

This project is a Dafny model of the deterministic core of a small
tool-use agent written in Python. The agent talks to an OpenAI-style chat
model (`ChatOpenAI`) and to tool servers (`MCPClient`).

- `Assembler` (`assembler.dfy`) is the fold `ChatOpenAI.chat` runs over the
  model's streamed reply. Content deltas are collected as a list of chunks.
  Tool-call deltas are merged, by slot index, into a growable list of
  accumulators. Each `id`, `name` and `arguments` part is string-appended,
  never replaced. A delta whose slot index skips ahead of the list is the
  `IndexError` the source raises, modelled as `Err(SlotOutOfRange(..))`.
- `AssemblerProperties` gives independent reference definitions of what
  the fold computes: the slot count, the per-slot concatenation `SlotText`,
  the slot's own deltas `Only`, and the content chunks `Chunks`. It proves
  the fold equal to them. It also proves chunk-split invariance and that
  slots cannot contaminate each other.
- `Chat` is the `ChatOpenAI` object as an immutable value:
  - the append-only message log: the system and context messages, one
    `chat` turn (`Send`), and `append_tool_result`;
  - the recorded assistant message;
  - the tool schema list.
- `AgentLoop` is `Agent.init` and `Agent.invoke`:
  - tool flattening;
  - last-client-wins routing, both as the nested scan the source performs
    (`FindClient`) and as a reference definition (`Owner`);
  - the per-call tool message;
  - the `while True` loop over a finite model oracle.
- `AgentProperties` holds the properties that relate several calls:
  - the pairing of every assistant turn with its tool messages, in call
    order;
  - the reply `invoke` returns, which is exactly the oracle's first reply
    without tool calls;
  - how unknown tools are handled;
  - how `init` hands the tools to the model.
- `Scenario` is one concrete weather run, computed end to end.

The model call is an oracle. `streams[i]` is the fragment sequence the
i-th model call of one `invoke` streams. A call made after the oracle is
used up raises a transport error. Because of this, every run of `Loop`
terminates: it makes at most `|streams|` model calls after the first.

The tools are abstract (`ToolEnv`). Each is a parameter, and the model does
not say what any of them computes:

- `parse` is `json.loads` of a call's arguments. It returns `None` when the
  decode raises.
- `call` is `call_tool` on the client at a given position. Being a
  function, its outcome depends only on the client, the tool name and the
  arguments.
- `show` is `str` of a tool result.
- `encode` is `json.dumps` of a string.

## Behaviour worth noting

- **Routing.** In the lookup at `src/Agent.py:86-92`, the `break` at
  line 92 leaves only the inner loop over one client's tools. The outer
  loop goes on, so on a duplicate tool name the last declaring client
  wins. `Owner` and `FindClient` model last-wins.
- **Tool errors.** `json.loads` and `call_tool` at `src/Agent.py:96-99`
  are not guarded. Their exceptions leave `invoke`, and tool messages
  already appended in that round stay in the log. `ToolResultFor` and
  `HandleCalls` return `Err(MalformedArguments(..))` and
  `Err(ToolFailed(..))`.
- **Content.** The assembler keeps content as a list of chunks, one per
  fragment that carries content, and returns that list
  (`src/ChatOpenAI.py:59`, `73`, `94`, `107`). `Reply.content` is a
  `seq<string>`. `AssembledContent` relates the list to the concatenated
  text.

## Model

| member | source | states |
|---|---|---|
| Assembler.Merge | src/ChatOpenAI.py:83-89 | Every field of the merged accumulator is the old field followed by the delta's part for it. An absent or empty part contributes nothing, and nothing is ever replaced. |
| Assembler.ApplyDelta | src/ChatOpenAI.py:77-89 | A delta succeeds exactly when its slot index is at most the accumulator count; otherwise it is the out-of-range error, carrying the index and the grown length. The list grows by one exactly when the index equals the count. The indexed slot is merged, and every other slot is unchanged. |
| Assembler.Fold | src/ChatOpenAI.py:77-89 | Folding a fragment's deltas into the accumulator list only grows it, by at most one accumulator per delta. Every existing accumulator field keeps its text as a prefix, and the only failure is the out-of-range slot error. The complete per-slot characterisation is `AssemblerProperties.FoldSpec`. |
| Assembler.Step | src/ChatOpenAI.py:70-89 | One fragment appends its content as a chunk exactly when it is present and non-empty. A fragment with no content and no tool deltas leaves the reply unchanged. |
| Assembler.Assemble | src/ChatOpenAI.py:59-89 | Folding the whole stream keeps at most one content chunk per fragment, and no kept chunk is empty. The only failure is the out-of-range slot error. `AssemblerProperties.AssembleSpec` and `AssemblerProperties.AssembleIsDeltaFold` characterise the reply completely. |
| AssemblerProperties.FoldAppend | src/ChatOpenAI.py:77-89 | Folding the deltas of `a + b` is folding `a`, then continuing with `b` from the accumulators `a` produced, or keeping `a`'s error. |
| AssemblerProperties.AssembleIsDeltaFold | src/ChatOpenAI.py:69-89 | Assembling a stream is folding all its tool deltas, in arrival order, from an empty list, paired with the stream's non-empty content chunks. Fragment boundaries do not matter. |
| AssemblerProperties.FoldSpec | src/ChatOpenAI.py:77-89 | The delta fold succeeds exactly when no delta skips ahead of the slots created before it. It then yields one more accumulator than the largest slot index seen, or none when there are no deltas. Each field of slot `i` is the concatenation, in arrival order, of that field's parts over the deltas tagged `i`. |
| AssemblerProperties.AssembleSpec | src/ChatOpenAI.py:69-89 | The same characterisation for a whole stream: success exactly when its deltas are dense, the number of tool calls, each field of each slot, and the content equal to the non-empty content deltas in order. |
| AssemblerProperties.SlotTextOnly | src/ChatOpenAI.py:81-89 | A slot's text depends only on the deltas tagged with that slot. |
| AssemblerProperties.SlotIsolation | src/ChatOpenAI.py:81-89 | Two streams that carry the same deltas for slot `i`, in the same order, assemble the same tool call at `i`, however the other slots' deltas are interleaved. |
| AssemblerProperties.SplitDelta | src/ChatOpenAI.py:83-89 | Applying one delta, or two consecutive deltas for the same slot whose parts concatenate to its parts, gives the same result. |
| AssemblerProperties.SplitInvariantDeltas | src/ChatOpenAI.py:77-89 | Splitting a delta anywhere inside a delta sequence leaves the fold's result unchanged, including its error. |
| AssemblerProperties.SplitInvariant | src/ChatOpenAI.py:69-89 | A fragment may be cut after one of its tool deltas, with that delta split across the cut. The second part then opens a new fragment that has no content, and the assembled reply is identical. |
| AssemblerProperties.ChunksKeepTranscript | src/ChatOpenAI.py:71-73 | Concatenating the kept content chunks gives all the streamed content text: skipping empty and absent deltas loses nothing. |
| AssemblerProperties.AssembledContent | src/ChatOpenAI.py:71-73 | The content of an assembled reply has no empty chunk, and joined it is the stream's content text. |
| Chat.Create | src/ChatOpenAI.py:34-48 | The log starts with a system message exactly when the system prompt is non-empty, and ends with the context as a user message exactly when the context is non-empty. It holds nothing else. |
| Chat.AssistantFor | src/ChatOpenAI.py:92-104 | The assistant message records the reply's content chunks as they are. Its tool calls all have type `"function"`, and reading them back gives exactly the reply's tool calls. |
| Chat.WireCalls | src/ChatOpenAI.py:96-103 | The assistant message records one entry per tool call, in order, with the same id, name and arguments and type `"function"`. |
| Chat.WireRoundTrip | src/ChatOpenAI.py:96-103 | Reading the recorded entries back gives exactly the reply's tool calls. |
| Chat.Send | src/ChatOpenAI.py:53-109 | The log only grows; model and tools are unchanged. A non-empty prompt is appended as a user message before the model call. The turn succeeds exactly when the model answers and the stream assembles, and it then returns the assembled reply and appends exactly one assistant message for it. A failing turn appends nothing after the user message. |
| Chat.AppendToolResult | src/ChatOpenAI.py:112-117 | Exactly one message is appended: a tool message with the given id and content. Everything before it is unchanged. |
| Chat.ToolsDefinition | src/ChatOpenAI.py:119-134 | One schema entry per tool, in tool order, each of type `"function"` with the tool's name, description and input schema. No tools gives the empty list. |
| Chat.DefinitionsRoundTrip | src/ChatOpenAI.py:127-134 | Reading the schema entries back gives the tool list itself. |
| Chat.DefinitionsAppend | src/ChatOpenAI.py:119-134 | The schema list of concatenated tool lists is the concatenation of their schema lists. |
| AgentLoop.AllTools | src/Agent.py:34-39 | A tool is in the flattened list exactly when some client lists it. |
| AgentLoop.Init | src/Agent.py:34-48 | `init` creates the wrapper and changes nothing else. The wrapper holds the agent's model and the flattened tools, and its log has only the system prompt and the context, each when non-empty. |
| AgentLoop.Owner | src/Agent.py:86-92 | The chosen client declares the name, and no later client does: the last declaring client wins. There is none exactly when no client declares the name. |
| AgentLoop.FindClient | src/Agent.py:86-92 | The nested scan of the source, whose `break` leaves only the inner loop, selects exactly the client `Owner` defines. |
| AgentLoop.ToolResultFor | src/Agent.py:94-113 | An unknown name gives the content `"Tool not found"`. For a known name, a decode failure is a malformed-arguments error, a raising tool call is a tool-failed error carrying its reason, and a returned value gives the encoding of its string form. An error is only ever a tool-level error for that call's id, raised for a routed call. |
| AgentLoop.HandleCalls | src/Agent.py:81-113 | One tool message per call is appended, in call order, and the j-th answers the j-th call with that call's content and id. The handling succeeds exactly when every call was answered. Otherwise it stops at the first failing call and returns that call's error. |
| AgentLoop.Loop | src/Agent.py:76-122 | The log only grows, and only by assistant and tool messages. A successful loop returns a reply without tool calls. |
| AgentLoop.Invoke | src/Agent.py:61-122 | Without `init` it fails with the not-initialised error and touches nothing. Otherwise only the log changes: it grows, a non-empty prompt is the first message appended, and every later message is an assistant or tool message, so follow-up model calls add no user message. A returned reply has no tool calls. |
| AgentProperties.AllToolsAppend | src/Agent.py:34-39 | Flattening a concatenation of client lists concatenates their tool lists, so the order is client order, then list order. |
| AgentProperties.InitDefinitionsPerClient | src/Agent.py:34-48 | The schema list the model is given is, client by client, the concatenation of each client's schema list. |
| AgentProperties.AdvertisedToolsRoutable | src/Agent.py:86-92 | Every tool advertised to the model has an owner. |
| AgentProperties.RoundMessages | src/Agent.py:81-116 | A successful round appends exactly one tool message per call, in call order, each carrying its call's id, and then the next assistant message. |
| AgentProperties.LoopPaired | src/Agent.py:76-122 | From the assistant message the loop is entered with, a successful loop leaves a log in which every assistant message is answered, call by call, by the tool messages right after it. |
| AgentProperties.InvokePaired | src/Agent.py:73-122 | The same pairing for everything a successful `invoke` appends after the prompt. |
| AgentProperties.LoopFirstFinal | src/Agent.py:76-122 | Suppose reply `k` of the oracle is the first without tool calls. Then a successful loop returns exactly that reply, a failing loop fails only with a tool-level error, and the loop succeeds when every tool call along the way succeeds. |
| AgentProperties.InvokeFirstFinal | src/Agent.py:73-122 | The same for `invoke`: it returns exactly the first tool-call-free reply, it fails only through a tool, and it succeeds when no tool call fails. |
| AgentProperties.LoopReturnsFirstFinal | src/Agent.py:76-122 | Whatever a successful loop returns is the oracle's first reply without tool calls. |
| AgentProperties.InvokeReturnsFirstFinal | src/Agent.py:73-122 | Whatever a successful `invoke` returns is the oracle's first reply without tool calls. |
| AgentProperties.HandleCallsSucceed | src/Agent.py:81-113 | When every call's content is produced without an error, handling the calls succeeds. |
| AgentProperties.UnknownToolsAnswered | src/Agent.py:109-113 | Calls to tools no client declares never stop the loop. Each is answered, in order, by a `"Tool not found"` message with its id. |
| AgentProperties.ImmediateAnswer | src/Agent.py:73-122 | When the first reply has no tool calls, `invoke` returns it after one model call. The log gains only the prompt and that reply. |
| Scenario.WeatherRun | src/Agent.py:61-122 | The weather run: a question, then one `get_weather` call answered `"sunny, 20C"`, then a final answer. It returns the answer with no tool calls and leaves exactly four messages: user, assistant with one call, tool result, final assistant. |

## Left out

- The streaming transport, environment configuration and all printing
  (`src/ChatOpenAI.py:30-33`, `63-68`, `74`). The stream is an input, and a
  transport failure is the `None` stream.
- `src/MCPClient.py` and `src/MCPServer.py` are not part of this model.
  A client is its name and tool list, and `call_tool` is the abstract
  `ToolEnv.call`.
- `Agent.close` and the `example()` drivers: process lifecycle and command-line glue.
- Real JSON decoding and encoding, and `str`: these are the abstract
  `parse`, `encode` and `show`. A tool's input schema is kept as opaque
  text.
- Async scheduling: every step is a plain function, because the code is
  sequential.
- `chunk.choices[0]` is taken to exist. A fragment is the delta itself.
- Slot indices are natural numbers. The source would accept a negative
  index and address the list from its end; that case is not modelled.
- `ToolEnv.call` is deterministic and stateless: a tool's outcome depends
  only on the client, the tool name and the arguments. A remote
  `call_tool` whose answer differs between identical calls, or depends on
  earlier calls, is not modelled. `HandleCalls`, `ToolsSucceed`,
  `LoopFirstFinal` and `InvokeFirstFinal` rely on this.
- The oracle does not depend on the history sent to the model. Each model
  call simply takes the next stream.
- The source loop has no iteration cap and can run forever. Here
  termination is relative to the finite oracle: running out of streams
  ends the run with a transport error.
- Conversation snapshots: every state is an immutable value, so an earlier
  log can never observe a later append.
