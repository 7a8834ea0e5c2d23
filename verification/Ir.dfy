/** The canonical streaming events every decoder produces and every encoder consumes. */
module Ir {
  import opened TokenUsage

  datatype StopReason = EndTurn | MaxTokens | ToolUse | StopSequence | ContentFilter | OtherStop

  /** The opaque payload of a finished thinking block, as the encoders probe it: nothing, an
      Anthropic redacted_thinking block, an OpenAI Responses reasoning item, or anything else. */
  datatype Opaque = NoPayload | Redacted(data: string) | ReasoningItem(raw: string) | ForeignPayload

  datatype Event =
    | MessageStart(id: string, model: string, usage: Usage)
    | TextDelta(index: int, text: string)
    | ThinkingDelta(index: int, text: string)
    | ThinkingDone(index: int, text: string, signature: string, payload: Opaque)
    | ToolUseStart(index: int, callId: string, name: string)
    | ToolInputDelta(index: int, callId: string, name: string, fragment: string)
    | ToolUseStop(index: int, callId: string, name: string)
    | MessageStop(stop: StopReason, usage: Usage)
    | Error(message: string)
  {
    /** The two events that end the client's message. */
    predicate Terminal() {
      MessageStop? || Error?
    }
  }

  /** One encoder call: the event, and the random tokens an encoder may use for missing ids. */
  datatype Input = Input(event: Event, itemToken: string, callToken: string)

  /** ContentKind; NoKind is the empty string an encoder holds while no block is open. */
  datatype ContentKind = NoKind | KindText | KindThinking | KindToolUse

  function OrElse(id: string, fallback: string): (r: string)
    ensures fallback != "" ==> r != ""
    ensures id != "" ==> r == id
  {
    if id == "" then fallback else id
  }
}
