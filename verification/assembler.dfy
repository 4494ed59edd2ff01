/** The streamed-response assembler of `ChatOpenAI.chat`: an ordered
    sequence of fragments is folded into a list of content chunks and a
    growable list of tool-call accumulators indexed by slot. */
module Assembler {
  import opened Common

  /** The `function` sub-object of a tool-call delta; each part may be absent. */
  datatype FunctionDelta = FunctionDelta(name: Option<string>, arguments: Option<string>)

  /** One slot-tagged tool-call delta of a fragment. */
  datatype ToolDelta = ToolDelta(index: nat, id: Option<string>, func: Option<FunctionDelta>)

  /** One streamed fragment: an optional content delta and the tool-call
      deltas it carries (an absent list is the empty list). */
  datatype Fragment = Fragment(content: Option<string>, toolDeltas: seq<ToolDelta>)

  /** A tool-call accumulator; once the stream ends it is the finished call. */
  datatype ToolCall = ToolCall(id: string, name: string, arguments: string)

  /** What `chat` returns: the content chunks and the tool calls. */
  datatype Reply = Reply(content: seq<string>, toolCalls: seq<ToolCall>)

  /** The three string fields of an accumulator that deltas extend. */
  datatype Field = Id | Name | Arguments

  const EmptyCall := ToolCall("", "", "")

  /** Python truthiness of an optional string: present and non-empty. */
  predicate Present(o: Option<string>) {
    o.Some? && |o.value| > 0
  }

  /** The text an optional string contributes when appended. */
  function Text(o: Option<string>): string {
    if o.Some? then o.value else ""
  }

  /** The text a delta contributes to field `f` of its slot. */
  function Part(d: ToolDelta, f: Field): string {
    match f
    case Id => Text(d.id)
    case Name => if d.func.Some? then Text(d.func.value.name) else ""
    case Arguments => if d.func.Some? then Text(d.func.value.arguments) else ""
  }

  function Get(c: ToolCall, f: Field): string {
    match f
    case Id => c.id
    case Name => c.name
    case Arguments => c.arguments
  }

  /** Merging one delta into its accumulator: each present, non-empty part
      is string-appended to the matching field, never replacing it. */
  function Merge(c: ToolCall, d: ToolDelta): (r: ToolCall)
    ensures forall f :: Get(r, f) == Get(c, f) + Part(d, f)
  {
    var withId := if Present(d.id) then c.(id := c.id + d.id.value) else c;
    if d.func.Some? then
      var fd := d.func.value;
      var withName := if Present(fd.name) then withId.(name := withId.name + fd.name.value) else withId;
      if Present(fd.arguments) then withName.(arguments := withName.arguments + fd.arguments.value) else withName
    else
      withId
  }

  /** One tool-call delta applied to the accumulator list: a new empty
      accumulator is appended when the list is no longer than the slot
      index, and the slot is then indexed, which fails when the index
      skipped ahead of the list. */
  function ApplyDelta(calls: seq<ToolCall>, d: ToolDelta): (r: Result<seq<ToolCall>>)
    ensures r.Ok? <==> d.index <= |calls|
    ensures r.Err? ==> r.error == SlotOutOfRange(d.index, |calls| + 1)
    ensures r.Ok? ==> |r.value| == (if d.index < |calls| then |calls| else |calls| + 1)
    ensures r.Ok? ==> forall f :: Get(r.value[d.index], f)
                                  == (if d.index < |calls| then Get(calls[d.index], f) else "") + Part(d, f)
    ensures r.Ok? ==> forall i :: 0 <= i < |calls| && i != d.index ==> r.value[i] == calls[i]
  {
    var grown := if |calls| <= d.index then calls + [EmptyCall] else calls;
    if d.index < |grown| then
      Ok(grown[d.index := Merge(grown[d.index], d)])
    else
      Err(SlotOutOfRange(d.index, |grown|))
  }

  /** The deltas applied in arrival order, starting from `calls`; the first
      failing delta ends the fold. */
  function Fold(calls: seq<ToolCall>, ds: seq<ToolDelta>): (r: Result<seq<ToolCall>>)
    ensures r.Ok? ==> |calls| <= |r.value| <= |calls| + |ds|
    ensures r.Ok? ==> forall i, f :: 0 <= i < |calls| ==> Get(calls[i], f) <= Get(r.value[i], f)
    ensures r.Err? ==> r.error.SlotOutOfRange?
    decreases |ds|
  {
    if |ds| == 0 then Ok(calls)
    else
      match Fold(calls, ds[..|ds| - 1])
      case Err(e) => Err(e)
      case Ok(prefix) => ApplyDelta(prefix, ds[|ds| - 1])
  }

  /** One fragment: a present, non-empty content delta is appended as a
      chunk, then the fragment's tool-call deltas are folded in. */
  function Step(s: Reply, f: Fragment): (r: Result<Reply>)
    ensures r.Ok? ==> r.value.content == s.content + (if Present(f.content) then [f.content.value] else [])
    ensures !Present(f.content) && |f.toolDeltas| == 0 ==> r == Ok(s)
  {
    var content := if Present(f.content) then s.content + [f.content.value] else s.content;
    match Fold(s.toolCalls, f.toolDeltas)
    case Err(e) => Err(e)
    case Ok(calls) => Ok(Reply(content, calls))
  }

  /** The whole stream folded in arrival order from an empty reply. */
  function Assemble(frags: seq<Fragment>): (r: Result<Reply>)
    ensures r.Ok? ==> |r.value.content| <= |frags|
    ensures r.Ok? ==> forall i :: 0 <= i < |r.value.content| ==> r.value.content[i] != ""
    ensures r.Err? ==> r.error.SlotOutOfRange?
    decreases |frags|
  {
    if |frags| == 0 then Ok(Reply([], []))
    else
      match Assemble(frags[..|frags| - 1])
      case Err(e) => Err(e)
      case Ok(s) => Step(s, frags[|frags| - 1])
  }
}
