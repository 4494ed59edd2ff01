/** Shared failure-compatible wrappers and the error taxonomy of the agent.

    Every exception the Python code raises on the paths that are modelled
    becomes an `Err` carrying one of the `Error` values below. */
module Common {

  /** Present-or-absent value: a field of a streamed delta may be missing. */
  datatype Option<+T> = None | Some(value: T)

  /** The failures that can end a `chat` or an `invoke` call. */
  datatype Error =
    | NotInitialized
      // `invoke` before `init`: ValueError("LLM not initialized")
    | TransportFailed
      // the model transport raised, or the reply oracle has no further reply
    | SlotOutOfRange(index: nat, count: nat)
      // a tool-call delta names a slot beyond the accumulator list (IndexError)
    | MalformedArguments(callId: string)
      // json.loads of a found tool's arguments raised
    | ToolFailed(callId: string, reason: string)
      // the client's call_tool raised

  datatype Result<+T> = Ok(value: T) | Err(error: Error)

  /** A tool-level failure: one that comes from a tool call rather than from
      the model transport or the agent's own state. */
  predicate IsToolError(e: Error) {
    e.MalformedArguments? || e.ToolFailed?
  }
}
