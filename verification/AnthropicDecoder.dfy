/** Anthropic Messages SSE to IR events (internal/protocol/translate/stream_anthropic.go). */
module AnthropicDecoder {
  import opened Folds
  import opened TokenUsage
  import opened Ir

  // ---- Wire ------------------------------------------------------------------------------

  datatype WireBlock =
    | TextStart(text: string)
    | ThinkingStart(thinking: string, signature: string)
    | RedactedStart(data: string)
    | ToolStart(id: string, name: string)
    | UnknownStart

  datatype WireDelta =
    | TextPiece(text: string)
    | ThinkingPiece(text: string)
    | SignaturePiece(text: string)
    | JsonPiece(text: string)
    | OtherPiece

  datatype Envelope = Envelope(id: string, model: string, usage: Field<AnthropicUsage>)

  datatype Payload =
    | Empty
    | Garbage
    | StartPayload(message: Option<Envelope>)
    | BlockStarted(index: int, block: Option<WireBlock>)
    | BlockGrew(index: int, delta: Option<WireDelta>)
    | BlockStopped(index: int)
    | DeltaPayload(reason: Option<Option<string>>, usage: Field<AnthropicUsage>)
    | StopPayload
    | ErrorPayload(error: Option<string>)
    | OtherPayload
  {
    /** A usage object of the wrong shape makes the whole event undecodable. */
    predicate Undecodable() {
      || Garbage?
      || (StartPayload? && message.Some? && message.value.usage.Malformed?)
      || (DeltaPayload? && usage.Malformed?)
    }
  }

  // ---- Specification ---------------------------------------------------------------------

  datatype BlockState = BlockState(kind: ContentKind, thinking: string, signature: string, toolId: string,
                                   toolName: string)

  datatype State = State(blocks: map<int, BlockState>, stop: Option<StopReason>, usage: Usage) {
    function With(index: int, block: BlockState): State {
      this.(blocks := blocks[index := block])
    }
  }

  datatype Result = Result(state: State, events: seq<Event>, ok: bool)

  const INIT := State(map[], None, NO_USAGE)

  function StopOf(reason: Option<string>): StopReason {
    if reason.None? then OtherStop
    else if reason.value == "end_turn" || reason.value == "pause_turn" then EndTurn
    else if reason.value == "max_tokens" then MaxTokens
    else if reason.value == "tool_use" then ToolUse
    else if reason.value == "stop_sequence" then StopSequence
    else if reason.value == "refusal" then ContentFilter
    else OtherStop
  }

  /** The counters of a typed usage struct: a missing object or counter reads as zero. */
  function Typed(f: Field<AnthropicUsage>): AnthropicUsage {
    if f.Present? then AnthropicUsage(Count(f.value.input.Value()), Count(f.value.output.Value()),
                                      Count(f.value.cacheRead.Value()), Count(f.value.cacheWrite.Value()))
    else AnthropicUsage(Count(0), Count(0), Count(0), Count(0))
  }

  function OnBlockStart(s: State, index: int, block: WireBlock): Result {
    match block
    case TextStart(text) =>
      Result(s.(blocks := s.blocks[index := BlockState(KindText, "", "", "", "")]),
             if text != "" then [TextDelta(index, text)] else [], true)
    case ThinkingStart(thinking, signature) =>
      Result(s.(blocks := s.blocks[index := BlockState(KindThinking, thinking, signature, "", "")]), [], true)
    case RedactedStart(data) =>
      Result(s.(blocks := s.blocks[index := BlockState(KindThinking, "", "", "", "")]),
             [ThinkingDone(index, "", "", Redacted(data))], true)
    case ToolStart(id, name) =>
      Result(s.With(index, BlockState(KindToolUse, "", "", id, name)), [ToolUseStart(index, id, name)], true)
    case UnknownStart =>
      Result(s.(blocks := s.blocks[index := BlockState(NoKind, "", "", "", "")]), [], false)
  }

  function OnDelta(s: State, index: int, delta: WireDelta): Result {
    var known := index in s.blocks;
    match delta
    case TextPiece(text) => Result(s, [TextDelta(index, text)], true)
    case ThinkingPiece(text) =>
      Result(if known then s.With(index, s.blocks[index].(thinking := s.blocks[index].thinking + text)) else s,
             [ThinkingDelta(index, text)], true)
    case SignaturePiece(text) =>
      Result(if known then s.With(index, s.blocks[index].(signature := s.blocks[index].signature + text)) else s,
             [], true)
    case JsonPiece(text) =>
      var id, name := if known then s.blocks[index].toolId else "", if known then s.blocks[index].toolName else "";
      Result(s, [ToolInputDelta(index, id, name, text)], true)
    case OtherPiece => Result(s, [], true)
  }

  function OnBlockStop(s: State, index: int): Result {
    if index !in s.blocks then Result(s, [], true)
    else
      var b := s.blocks[index];
      Result(s.(blocks := s.blocks - {index}),
             match b.kind
             case KindThinking => [ThinkingDone(index, b.thinking, b.signature, NoPayload)]
             case KindToolUse => [ToolUseStop(index, b.toolId, b.toolName)]
             case _ => [],
             true)
  }

  /** message_delta carries the final counters; all-zero input counters mean "as before". */
  function Merge(before: Usage, wire: AnthropicUsage): Usage {
    var u := ParseAnthropic(Present(wire));
    if wire.input.Value() == 0 && wire.cacheRead.Value() == 0 && wire.cacheWrite.Value() == 0
    then u.(input := before.input, cacheRead := before.cacheRead, cacheWrite := before.cacheWrite)
    else u
  }

  function Step(s: State, p: Payload): Result {
    if p.Undecodable() then Result(s, [], false)
    else match p
      case StartPayload(message) =>
        if message.None? then Result(s, [MessageStart("", "", NO_USAGE)], true)
        else
          var u := ParseAnthropic(Present(Typed(message.value.usage)));
          Result(s.(usage := u), [MessageStart(message.value.id, message.value.model, u)], true)
      case BlockStarted(index, block) =>
        if block.None? then Result(s, [], true) else OnBlockStart(s, index, block.value)
      case BlockGrew(index, delta) => if delta.None? then Result(s, [], true) else OnDelta(s, index, delta.value)
      case BlockStopped(index) => OnBlockStop(s, index)
      case DeltaPayload(reason, usage) =>
        Result(s.(stop := if reason.Some? then Some(StopOf(reason.value)) else s.stop,
                  usage := if usage.Present? then Merge(s.usage, Typed(usage)) else s.usage), [], true)
      case StopPayload => Result(s, [MessageStop(if s.stop.Some? then s.stop.value else EndTurn, s.usage)], true)
      case ErrorPayload(error) => Result(s, [Error(if error.Some? then error.value else "upstream error")], true)
      case _ => Result(s, [], true)
  }

  // ---- Implementation --------------------------------------------------------------------

  class AnthropicStreamIn {
    var blocks: map<int, BlockState>
    var stop: Option<StopReason>
    var usage: Usage

    ghost function Abs(): State
      reads this
    {
      State(blocks, stop, usage)
    }

    constructor ()
      ensures Abs() == INIT
    {
      blocks, stop, usage := map[], None, NO_USAGE;
    }

    method StartBlock(index: int, b: WireBlock) returns (out: seq<Event>, ok: bool)
      modifies this
      ensures Result(Abs(), out, ok) == OnBlockStart(old(Abs()), index, b)
    {
      out, ok := [], true;
      var st := BlockState(NoKind, "", "", "", "");
      match b {
        case TextStart(text) =>
          st := st.(kind := KindText);
          if text != "" {
            out := [TextDelta(index, text)];
          }
        case ThinkingStart(thinking, signature) =>
          st := st.(kind := KindThinking, thinking := thinking, signature := signature);
        case RedactedStart(data) =>
          st := st.(kind := KindThinking);
          out := [ThinkingDone(index, "", "", Redacted(data))];
        case ToolStart(id, name) =>
          st := st.(kind := KindToolUse, toolId := id, toolName := name);
          out := [ToolUseStart(index, id, name)];
        case UnknownStart =>
          ok := false;
      }
      blocks := blocks[index := st];
    }

    method GrowBlock(index: int, d: WireDelta) returns (out: seq<Event>)
      modifies this
      ensures Result(Abs(), out, true) == OnDelta(old(Abs()), index, d)
    {
      out := [];
      match d {
        case TextPiece(text) => out := [TextDelta(index, text)];
        case ThinkingPiece(text) =>
          if index in blocks {
            blocks := blocks[index := blocks[index].(thinking := blocks[index].thinking + text)];
          }
          out := [ThinkingDelta(index, text)];
        case SignaturePiece(text) =>
          if index in blocks {
            blocks := blocks[index := blocks[index].(signature := blocks[index].signature + text)];
          }
        case JsonPiece(text) =>
          var id, name := "", "";
          if index in blocks {
            id, name := blocks[index].toolId, blocks[index].toolName;
          }
          out := [ToolInputDelta(index, id, name, text)];
        case OtherPiece =>
      }
    }

    method StopBlock(index: int) returns (out: seq<Event>)
      modifies this
      ensures Result(Abs(), out, true) == OnBlockStop(old(Abs()), index)
    {
      out := [];
      if index !in blocks {
        return;
      }
      var st := blocks[index];
      blocks := blocks - {index};
      if st.kind == KindThinking {
        out := [ThinkingDone(index, st.thinking, st.signature, NoPayload)];
      } else if st.kind == KindToolUse {
        out := [ToolUseStop(index, st.toolId, st.toolName)];
      }
    }

    method ToIR(p: Payload) returns (out: seq<Event>, ok: bool)
      modifies this
      ensures Result(Abs(), out, ok) == Step(old(Abs()), p)
    {
      out, ok := [], true;
      if p.Undecodable() {
        ok := false;
        return;
      }
      match p {
        case StartPayload(message) =>
          if message.Some? {
            usage := ParseAnthropic(Present(Typed(message.value.usage)));
            out := [MessageStart(message.value.id, message.value.model, usage)];
          } else {
            out := [MessageStart("", "", NO_USAGE)];
          }
        case BlockStarted(index, block) =>
        if block.Some? {
            out, ok := StartBlock(index, block.value);
          }
        case BlockGrew(index, delta) =>
          if delta.Some? {
            out := GrowBlock(index, delta.value);
          }
        case BlockStopped(index) =>
          out := StopBlock(index);
        case DeltaPayload(reason, wire) =>
          if reason.Some? {
            stop := Some(StopOf(reason.value));
          }
          if wire.Present? {
            usage := Merge(usage, Typed(wire));
          }
        case StopPayload =>
          out := [MessageStop(if stop.Some? then stop.value else EndTurn, usage)];
        case ErrorPayload(error) =>
          out := [Error(if error.Some? then error.value else "upstream error")];
        case _ =>
      }
    }
  }
}
