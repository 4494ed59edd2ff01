/** One concrete run of the agent: a weather question answered after a
    single tool round. */
module Scenario {
  import opened Common
  import opened Assembler
  import opened Chat
  import opened AgentLoop

  const Question := "get weather for X then summarize"
  const Arguments := "{\"city\":\"X\"}"
  const Answer := "It is sunny and 20C in X."

  const GetWeather := Tool("get_weather", "Current weather of a city", "{\"type\":\"object\"}")
  const Weather := Client("weather", [GetWeather])

  /** The first model call streams one tool call for `get_weather`. */
  const CallStream: seq<Fragment> :=
    [Fragment(None, [ToolDelta(0, Some("call_1"), Some(FunctionDelta(Some("get_weather"), Some(Arguments))))])]

  /** The second model call streams the final answer. */
  const AnswerStream: seq<Fragment> := [Fragment(Some(Answer), [])]

  /** Arguments are kept as text, the provider always answers
      "sunny, 20C", and encoding a string wraps it in quotes. */
  function WeatherEnv(): ToolEnv<string, string> {
    ToolEnv(s => Some(s), (k, name, args) => Returned("sunny, 20C"), v => v, s => "\"" + s + "\"")
  }

  /** The run returns the final answer with no tool calls, and the log is
      exactly: the question, the assistant turn with one call, the tool
      result for that call, the final assistant turn. */
  lemma WeatherRun()
    ensures var a := Init(Agent("gpt-4o", [Weather], "", "", None));
            var r := Invoke(a, Question, [CallStream, AnswerStream], WeatherEnv());
            && r.result == Ok(Reply([Answer], []))
            && r.agent.llm.value.messages
               == [ User(Question),
                    Assistant([], [WireToolCall("call_1", FunctionKind, WireFunction("get_weather", Arguments))]),
                    ToolResult("\"sunny, 20C\"", "call_1"),
                    Assistant([Answer], []) ]
  {
    var d := CallStream[0].toolDeltas[0];
    var call := ToolCall("call_1", "get_weather", Arguments);
    assert [d][..0] == [];
    assert Merge(EmptyCall, d) == call;
    assert Fold([], []) == Ok([]);
    var noCalls: seq<ToolCall> := [];
    assert noCalls + [EmptyCall] == [EmptyCall];
    assert [EmptyCall][0 := call] == [call];
    assert ApplyDelta([], d) == Ok([call]);
    assert Fold([], [d]) == Ok([call]);
    assert CallStream[..0] == [] && AnswerStream[..0] == [];
    assert Assemble(CallStream) == Ok(Reply([], [call]));
    var noChunks: seq<string> := [];
    assert noChunks + [Answer] == [Answer];
    assert Present(AnswerStream[0].content);
    assert Step(Reply([], []), AnswerStream[0]) == Ok(Reply([Answer], []));
    assert Assemble(AnswerStream) == Ok(Reply([Answer], []));
    assert Weather.tools[0].name == "get_weather";
    assert Declares(Weather, "get_weather");
    assert [Weather][..0] == [];
    assert Owner([Weather], "get_weather") == Some(0);

    var env := WeatherEnv();
    var a := Init(Agent("gpt-4o", [Weather], "", "", None));
    var llm := a.llm.value;
    assert llm.messages == [];
    var reply := Reply([], [call]);
    var first := Send(llm, Question, Next([CallStream, AnswerStream]));
    var log1 := [User(Question), AssistantFor(reply)];
    assert first == Turn(llm.(messages := log1), Ok(reply));
    assert env.parse(Arguments) == Some(Arguments);
    assert env.call(0, "get_weather", Arguments) == Returned("sunny, 20C");
    assert env.encode(env.show("sunny, 20C")) == "\"sunny, 20C\"";
    assert ToolResultFor([Weather], call, env) == Ok("\"sunny, 20C\"");
    var log2 := log1 + [ToolResult("\"sunny, 20C\"", "call_1")];
    assert [call][1..] == [];
    var after := AppendToolResult(first.llm, "call_1", "\"sunny, 20C\"");
    assert after == llm.(messages := log2);
    assert HandleCalls(after, [Weather], [], env) == Turn(after, Ok(()));
    var handled := HandleCalls(first.llm, [Weather], [call], env);
    assert handled == Turn(llm.(messages := log2), Ok(()));
    assert Rest([CallStream, AnswerStream]) == [AnswerStream];
    var next := Send(handled.llm, "", Next([AnswerStream]));
    var log3 := log2 + [AssistantFor(Reply([Answer], []))];
    assert next == Turn(llm.(messages := log3), Ok(Reply([Answer], [])));
    assert Loop(first.llm, [Weather], reply, [AnswerStream], env) == Turn(next.llm, Ok(Reply([Answer], [])));
    assert Invoke(a, Question, [CallStream, AnswerStream], env) == Invoked(a.(llm := Some(next.llm)), Ok(Reply([Answer], [])));
    assert WireCalls([call]) == [WireToolCall("call_1", FunctionKind, WireFunction("get_weather", Arguments))];
    assert WireCalls([]) == [];
  }
}
