/** IR events to Anthropic Messages SSE frames (internal/protocol/translate/stream_anthropic.go). */
module AnthropicEncoder {
  import opened Folds
  import opened TokenUsage
  import opened Ir

  datatype Block = TextBlock | ThinkingBlock | RedactedBlock(data: string) | ToolBlock(id: string, name: string)

  datatype Delta =
    | TextPart(text: string)
    | ThinkingPart(text: string)
    | SignaturePart(text: string)
    | JsonPart(text: string)

  datatype Frame =
    | StartFrame(id: string, model: string, usage: Field<AnthropicUsage>)
    | BlockStart(index: int, block: Block)
    | BlockDelta(index: int, delta: Delta)
    | BlockStop(index: int)
    | MessageDelta(stop: string, usage: Field<AnthropicUsage>)
    | StopFrame
    | ErrorFrame(message: string)

  function StopName(s: StopReason): string {
    match s
    case EndTurn => "end_turn"
    case MaxTokens => "max_tokens"
    case ToolUse => "tool_use"
    case StopSequence => "stop_sequence"
    case ContentFilter => "refusal"
    case OtherStop => "end_turn"
  }

  // ---- Specification ---------------------------------------------------------------------

  datatype Open = Nothing | TextOpen | ThinkingOpen | ToolOpen(src: int)

  /** The open block, when there is one, is always the last one numbered: next - 1. `stale` holds
      the source indices whose block was closed behind their back and are still mapped to it. */
  datatype State = State(next: nat, open: Open, stale: map<int, nat>, usage0: Usage)

  datatype Result = Result(state: State, frames: seq<Frame>)

  const INIT := State(0, Nothing, map[], NO_USAGE)

  /** Closing a tool block implicitly forgets its source index only when that is not negative. */
  function Close(s: State): Result {
    if s.open.Nothing? then Result(s, [])
    else
      var lost := s.open.ToolOpen? && s.open.src < 0 && s.next > 0;
      var stale := if lost then s.stale[s.open.src := s.next - 1] else s.stale;
      Result(s.(open := Nothing, stale := stale), [BlockStop(s.next - 1)])
  }

  function Ensure(s: State, open: Open, block: Block): Result {
    if s.open == open then Result(s, [])
    else
      var c := Close(s);
      Result(c.state.(next := s.next + 1, open := open), c.frames + [BlockStart(s.next, block)])
  }

  function StartTool(s: State, index: int, callId: string, name: string, token: string): Result {
    var c := Close(s);
    Result(c.state.(next := s.next + 1, open := ToolOpen(index), stale := c.state.stale - {index}),
           c.frames + [BlockStart(s.next, ToolBlock(OrElse(callId, "toolu_" + token), name))])
  }

  function Step(s: State, i: Input): Result {
    match i.event
    case MessageStart(id, model, usage) =>
      Result(s.(usage0 := usage),
             [StartFrame(OrElse(id, "msg_" + i.itemToken), model, RenderAnthropic(usage.(output := 0)))])
    case TextDelta(_, text) =>
      var e := Ensure(s, TextOpen, TextBlock);
      Result(e.state, e.frames + [BlockDelta(e.state.next - 1, TextPart(text))])
    case ThinkingDelta(_, text) =>
      var e := Ensure(s, ThinkingOpen, ThinkingBlock);
      Result(e.state, e.frames + [BlockDelta(e.state.next - 1, ThinkingPart(text))])
    case ThinkingDone(_, _, signature, payload) =>
      if payload.Redacted? then
        var c := Close(s);
        Result(c.state.(next := s.next + 1),
               c.frames + [BlockStart(s.next, RedactedBlock(payload.data)), BlockStop(s.next)])
      else if !payload.NoPayload? || !s.open.ThinkingOpen? then Result(s, [])
      else
        var c := Close(s);
        Result(c.state, (if signature != "" then [BlockDelta(s.next - 1, SignaturePart(signature))] else []) + c.frames)
    case ToolUseStart(index, callId, name) =>
      StartTool(s, index, callId, name, i.callToken)
    case ToolInputDelta(index, callId, name, fragment) =>
      if s.open == ToolOpen(index) then Result(s, [BlockDelta(s.next - 1, JsonPart(fragment))])
      else if index in s.stale then Result(s, [BlockDelta(s.stale[index], JsonPart(fragment))])
      else
        var t := StartTool(s, index, callId, name, i.callToken);
        Result(t.state, t.frames + [BlockDelta(s.next, JsonPart(fragment))])
    case ToolUseStop(index, _, _) =>
      if s.open == ToolOpen(index) then Result(s.(open := Nothing), [BlockStop(s.next - 1)])
      else if index in s.stale then Result(s.(stale := s.stale - {index}), [BlockStop(s.stale[index])])
      else Result(s, [])
    case MessageStop(stop, usage) =>
      var c := Close(s);
      var u := if usage.found then usage else s.usage0;
      Result(c.state, c.frames + [MessageDelta(StopName(stop), RenderAnthropic(u)), StopFrame])
    case Error(message) =>
      var c := Close(s);
      Result(c.state, c.frames + [ErrorFrame(message)])
  }

  /** One more event on top of everything emitted so far. */
  function Advance(acc: Result, i: Input): Result {
    var o := Step(acc.state, i);
    Result(o.state, acc.frames + o.frames)
  }

  function Run(ins: seq<Input>): Result {
    Fold(Advance, Result(INIT, []), ins)
  }

  // ---- Implementation --------------------------------------------------------------------

  /** The encoder object: a source-index-to-block map beside the open block's own fields. */
  class AnthropicStreamOut {
    var started: bool
    var nextIndex: nat
    var openIdx: int
    var openKind: ContentKind
    var openSrc: int
    var srcToOut: map<int, nat>
    var model: string
    var id: string
    var usage0: Usage

    ghost predicate Valid()
      reads this
    {
      && (openKind == NoKind <==> openIdx == -1)
      && (openKind != NoKind ==> openIdx == nextIndex - 1 && nextIndex > 0)
      && (openKind == KindToolUse ==> openSrc in srcToOut && srcToOut[openSrc] == openIdx)
      && (openKind != KindToolUse ==> openSrc == -1)
      && (forall k :: k in srcToOut && !(openKind == KindToolUse && k == openSrc) ==>
            k < 0 && srcToOut[k] < (if openKind == NoKind then nextIndex else nextIndex - 1))
    }

    ghost function Abs(): State
      reads this
    {
      match openKind
      case NoKind => State(nextIndex, Nothing, srcToOut, usage0)
      case KindText => State(nextIndex, TextOpen, srcToOut, usage0)
      case KindThinking => State(nextIndex, ThinkingOpen, srcToOut, usage0)
      case KindToolUse => State(nextIndex, ToolOpen(openSrc), srcToOut - {openSrc}, usage0)
    }

    constructor ()
      ensures Valid() && Abs() == INIT
    {
      started, nextIndex, openIdx, openKind, openSrc := false, 0, -1, NoKind, -1;
      srcToOut, model, id, usage0 := map[], "", "", NO_USAGE;
    }

    method CloseOpen() returns (out: seq<Frame>)
      requires Valid()
      modifies this
      ensures Valid() && openKind == NoKind && usage0 == old(usage0)
      ensures Result(Abs(), out) == Close(old(Abs()))
    {
      if openIdx < 0 {
        return [];
      }
      var idx := openIdx;
      if openKind == KindToolUse && openSrc >= 0 {
        srcToOut := srcToOut - {openSrc};
      }
      openIdx, openKind, openSrc := -1, NoKind, -1;
      out := [BlockStop(idx)];
    }

    method EnsureOpen(kind: ContentKind) returns (out: seq<Frame>)
      requires Valid() && (kind == KindText || kind == KindThinking)
      modifies this
      ensures Valid() && openKind == kind
      ensures kind == KindText ==> Result(Abs(), out) == Ensure(old(Abs()), TextOpen, TextBlock)
      ensures kind == KindThinking ==> Result(Abs(), out) == Ensure(old(Abs()), ThinkingOpen, ThinkingBlock)
    {
      if openIdx >= 0 && openKind == kind {
        return [];
      }
      out := CloseOpen();
      var idx := nextIndex;
      nextIndex := nextIndex + 1;
      openIdx, openKind := idx, kind;
      out := out + [BlockStart(idx, if kind == KindText then TextBlock else ThinkingBlock)];
    }

    method OpenTool(index: int, callId: string, name: string, token: string) returns (out: seq<Frame>)
      requires Valid()
      modifies this
      ensures Valid() && openKind == KindToolUse && openSrc == index
      ensures Result(Abs(), out) == StartTool(old(Abs()), index, callId, name, token)
    {
      out := CloseOpen();
      var idx := nextIndex;
      nextIndex := nextIndex + 1;
      ghost var before := srcToOut;
      openIdx, openKind, openSrc := idx, KindToolUse, index;
      srcToOut := srcToOut[index := idx];
      assert srcToOut - {index} == before - {index};
      out := out + [BlockStart(idx, ToolBlock(OrElse(callId, "toolu_" + token), name))];
    }

    method OnThinkingDone(i: Input) returns (out: seq<Frame>)
      requires Valid() && i.event.ThinkingDone?
      modifies this
      ensures Valid() && Result(Abs(), out) == Step(old(Abs()), i)
    {
      var payload, signature := i.event.payload, i.event.signature;
      out := [];
      if !payload.NoPayload? {
        if payload.Redacted? {
          out := CloseOpen();
          var idx := nextIndex;
          nextIndex := nextIndex + 1;
          out := out + [BlockStart(idx, RedactedBlock(payload.data)), BlockStop(idx)];
        }
      } else if openKind == KindThinking && openIdx >= 0 {
        if signature != "" {
          out := [BlockDelta(openIdx, SignaturePart(signature))];
        }
        var closing := CloseOpen();
        out := out + closing;
      }
    }

    method OnToolInput(i: Input) returns (out: seq<Frame>)
      requires Valid() && i.event.ToolInputDelta?
      modifies this
      ensures Valid() && Result(Abs(), out) == Step(old(Abs()), i)
    {
      var index := i.event.index;
      out := [];
      if index !in srcToOut {
        out := OpenTool(index, i.event.callId, i.event.name, i.callToken);
      }
      out := out + [BlockDelta(srcToOut[index], JsonPart(i.event.fragment))];
    }

    method OnToolStop(i: Input) returns (out: seq<Frame>)
      requires Valid() && i.event.ToolUseStop?
      modifies this
      ensures Valid() && Result(Abs(), out) == Step(old(Abs()), i)
    {
      var index := i.event.index;
      if index !in srcToOut {
        return [];
      }
      var idx := srcToOut[index];
      ghost var was := srcToOut;
      srcToOut := srcToOut - {index};
      if openIdx == idx {
        openIdx, openKind, openSrc := -1, NoKind, -1;
      } else {
        assert (was - {openSrc}) - {index} == srcToOut - {openSrc};
      }
      out := [BlockStop(idx)];
    }

    method FromIR(i: Input) returns (out: seq<Frame>)
      requires Valid()
      modifies this
      ensures Valid() && Result(Abs(), out) == Step(old(Abs()), i)
    {
      match i.event {
        case MessageStart(eid, emodel, usage) =>
          started, model, usage0 := true, emodel, usage;
          id := if eid == "" then "msg_" + i.itemToken else eid;
          out := [StartFrame(id, model, RenderAnthropic(usage.(output := 0)))];
        case TextDelta(_, text) =>
          out := EnsureOpen(KindText);
          out := out + [BlockDelta(openIdx, TextPart(text))];
        case ThinkingDelta(_, text) =>
          out := EnsureOpen(KindThinking);
          out := out + [BlockDelta(openIdx, ThinkingPart(text))];
        case ThinkingDone(_, _, _, _) =>
          out := OnThinkingDone(i);
        case ToolUseStart(index, callId, name) =>
          out := OpenTool(index, callId, name, i.callToken);
        case ToolInputDelta(_, _, _, _) =>
          out := OnToolInput(i);
        case ToolUseStop(_, _, _) =>
          out := OnToolStop(i);
        case MessageStop(stop, usage) =>
          out := CloseOpen();
          var u := if usage.found then usage else usage0;
          out := out + [MessageDelta(StopName(stop), RenderAnthropic(u)), StopFrame];
        case Error(message) =>
          out := CloseOpen();
          out := out + [ErrorFrame(message)];
      }
    }
  }

  /** A whole stream through one fresh encoder. */
  method EncodeAll(ins: seq<Input>) returns (frames: seq<Frame>)
    ensures frames == Run(ins).frames
  {
    hide Step;
    var encoder := new AnthropicStreamOut();
    frames := [];
    for k := 0 to |ins|
      invariant encoder.Valid() && Result(encoder.Abs(), frames) == Run(ins[..k])
    {
      FoldSnoc(Advance, Result(INIT, []), ins[..k], ins[k]);
      assert ins[..k] + [ins[k]] == ins[..k + 1];
      var more := encoder.FromIR(ins[k]);
      frames := frames + more;
    }
    assert ins[..|ins|] == ins;
  }
}
