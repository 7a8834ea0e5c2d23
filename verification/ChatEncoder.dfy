/** IR events to OpenAI Chat Completions SSE chunks (internal/protocol/translate/stream_openai_chat.go). */
module ChatEncoder {
  import opened Folds
  import opened TokenUsage
  import opened Ir

  datatype Frame =
    | RoleChunk(id: string, model: string)
    | ContentChunk(text: string)
    | ReasoningChunk(text: string)
    | CallChunk(slot: int, id: string, name: string)
    | ArgsChunk(slot: int, args: string)
    | FinishChunk(reason: string)
    | UsageChunk(usage: ChatUsage)
    | DoneMarker
    | ErrorChunk(message: string)

  function FinishName(s: StopReason, hasTools: bool): string {
    match s
    case ToolUse => "tool_calls"
    case MaxTokens => "length"
    case ContentFilter => "content_filter"
    case _ => if hasTools then "tool_calls" else "stop"
  }

  /** `slots` maps source indices to tool_calls indices, which are dense from 0 in start order. */
  datatype State = State(next: nat, slots: map<int, nat>)

  datatype Result = Result(state: State, frames: seq<Frame>)

  const INIT := State(0, map[])

  function StartTool(s: State, index: int, callId: string, name: string, token: string): Result {
    Result(State(s.next + 1, s.slots[index := s.next]), [CallChunk(s.next, OrElse(callId, "call_" + token), name)])
  }

  function Step(s: State, i: Input): Result {
    match i.event
    case MessageStart(id, model, _) => Result(s, [RoleChunk(OrElse(id, "chatcmpl-" + i.itemToken), model)])
    case TextDelta(_, text) => Result(s, [ContentChunk(text)])
    case ThinkingDelta(_, text) => Result(s, if text == "" then [] else [ReasoningChunk(text)])
    case ThinkingDone(_, _, _, _) => Result(s, [])
    case ToolUseStart(index, callId, name) => StartTool(s, index, callId, name, i.callToken)
    case ToolInputDelta(index, callId, name, fragment) =>
      if index !in s.slots then
        var t := StartTool(s, index, callId, name, i.callToken);
        Result(t.state, t.frames + [ArgsChunk(s.next, fragment)])
      else Result(s, if fragment == "" then [] else [ArgsChunk(s.slots[index], fragment)])
    case ToolUseStop(_, _, _) => Result(s, [])
    case MessageStop(stop, usage) =>
      var u := RenderChat(usage);
      Result(s, [FinishChunk(FinishName(stop, s.next > 0))] + (if u.Present? then [UsageChunk(u.value)] else [])
          + [DoneMarker])
    case Error(message) => Result(s, [ErrorChunk(message)])
  }

  function Advance(acc: Result, i: Input): Result {
    var o := Step(acc.state, i);
    Result(o.state, acc.frames + o.frames)
  }

  function Run(ins: seq<Input>): Result {
    Fold(Advance, Result(INIT, []), ins)
  }

  class ChatStreamOut {
    var id: string
    var model: string
    var started: bool
    var toolIdx: map<int, nat>
    var nextTool: nat
    var hasTools: bool

    ghost predicate Valid()
      reads this
    {
      hasTools <==> nextTool > 0
    }

    ghost function Abs(): State
      reads this
    {
      State(nextTool, toolIdx)
    }

    constructor ()
      ensures Valid() && Abs() == INIT
    {
      id, model, started, toolIdx, nextTool, hasTools := "", "", false, map[], 0, false;
    }

    method StartCall(index: int, callId: string, name: string, token: string) returns (out: seq<Frame>)
      requires Valid()
      modifies this
      ensures Valid() && Result(Abs(), out) == StartTool(old(Abs()), index, callId, name, token)
    {
      hasTools := true;
      var idx := nextTool;
      nextTool := nextTool + 1;
      toolIdx := toolIdx[index := idx];
      out := [CallChunk(idx, if callId == "" then "call_" + token else callId, name)];
    }

    method FromIR(i: Input) returns (out: seq<Frame>)
      requires Valid()
      modifies this
      ensures Valid() && Result(Abs(), out) == Step(old(Abs()), i)
    {
      out := [];
      match i.event {
        case MessageStart(eid, emodel, _) =>
          started, id, model := true, if eid == "" then "chatcmpl-" + i.itemToken else eid, emodel;
          out := [RoleChunk(id, model)];
        case TextDelta(_, text) =>
          out := [ContentChunk(text)];
        case ThinkingDelta(_, text) =>
          if text != "" {
            out := [ReasoningChunk(text)];
          }
        case ThinkingDone(_, _, _, _) =>
        case ToolUseStart(index, callId, name) =>
          out := StartCall(index, callId, name, i.callToken);
        case ToolInputDelta(index, callId, name, fragment) =>
          if index !in toolIdx {
            out := StartCall(index, callId, name, i.callToken);
            out := out + [ArgsChunk(toolIdx[index], fragment)];
          } else if fragment != "" {
            out := [ArgsChunk(toolIdx[index], fragment)];
          }
        case ToolUseStop(_, _, _) =>
        case MessageStop(stop, usage) =>
          out := [FinishChunk(FinishName(stop, hasTools))];
          var u := RenderChat(usage);
          if u.Present? {
            out := out + [UsageChunk(u.value)];
          }
          out := out + [DoneMarker];
        case Error(message) =>
          out := [ErrorChunk(message)];
      }
    }
  }

  /** A whole stream through one fresh encoder. */
  method EncodeAll(ins: seq<Input>) returns (frames: seq<Frame>)
    ensures frames == Run(ins).frames
  {
    hide Step;
    var encoder := new ChatStreamOut();
    frames := [];
    for k := 0 to |ins|
      invariant encoder.Valid() && Result(encoder.Abs(), frames) == Run(ins[..k])
    {
      FoldSnoc(Advance, Result(INIT, []), ins[..k], ins[k]);
      assert ins[..k] + [ins[k]] == ins[..k + 1];
      var more := encoder.FromIR(ins[k]);
      frames := frames + more;
    }
    assert ins[..|ins|] == ins;
  }
}
