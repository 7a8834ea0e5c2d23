/** What the first and the last frames of a message tell a client: model, stop reason, usage, error
    (internal/protocol/translate, the MessageStart, MessageStop and Error cases of the three encoders). */
module ClosingFrames {
  import opened Folds
  import opened TokenUsage
  import opened Ir
  import Claude = AnthropicEncoder
  import Chat = ChatEncoder
  import Responses = ResponsesEncoder

  /** The usage of the last MessageStart. */
  function StartUsage(ins: seq<Input>): Usage {
    if ins == [] then NO_USAGE
    else if ins[|ins| - 1].event.MessageStart? then ins[|ins| - 1].event.usage
    else StartUsage(ins[..|ins| - 1])
  }

  lemma ClaudeStepKeeps(s: Claude.State, i: Input)
    ensures Claude.Step(s, i).state.usage0 == if i.event.MessageStart? then i.event.usage else s.usage0
  {
  }

  lemma {:induction false} StartIsKept(ins: seq<Input>)
    ensures Claude.Run(ins).state.usage0 == StartUsage(ins)
    decreases |ins|
  {
    if ins != [] {
      var n := |ins| - 1;
      StartIsKept(ins[..n]);
      FoldSnoc(Claude.Advance, Claude.Result(Claude.INIT, []), ins[..n], ins[n]);
      assert ins[..n] + [ins[n]] == ins;
      hide Claude.Step;
      ClaudeStepKeeps(Claude.Run(ins[..n]).state, ins[n]);
    }
  }

  /** An Anthropic client's message ends in a message_delta with the stop reason and the four counters of
      the stop event, or those of the last MessageStart when the stop event has none, and message_stop. */
  lemma AnthropicCloses(ins: seq<Input>, i: Input)
    requires i.event.MessageStop?
    ensures var fs, u := Claude.Run(ins + [i]).frames, if i.event.usage.found then i.event.usage else StartUsage(ins);
            && |fs| >= 2 && fs[|fs| - 1] == Claude.StopFrame
            && var d := fs[|fs| - 2];
               && d.MessageDelta?
               && d.usage == Present(AnthropicUsage(Count(u.input), Count(u.output), Count(u.cacheRead),
                                                    Count(u.cacheWrite)))
               && d.stop == match i.event.stop
                            case EndTurn => "end_turn"
                            case MaxTokens => "max_tokens"
                            case ToolUse => "tool_use"
                            case StopSequence => "stop_sequence"
                            case ContentFilter => "refusal"
                            case OtherStop => "end_turn"
  {
    StartIsKept(ins);
    FoldSnoc(Claude.Advance, Claude.Result(Claude.INIT, []), ins, i);
  }

  /** Some tool call was started, or received arguments. */
  predicate AnyTool(ins: seq<Input>) {
    exists k :: 0 <= k < |ins| && (ins[k].event.ToolUseStart? || ins[k].event.ToolInputDelta?)
  }

  lemma {:induction false} ToolsAreSeen(ins: seq<Input>)
    ensures Chat.Run(ins).state.next > 0 <==> AnyTool(ins)
    ensures Chat.Run(ins).state.next == 0 ==> Chat.Run(ins).state.slots == map[]
    decreases |ins|
  {
    if ins != [] {
      var n := |ins| - 1;
      ToolsAreSeen(ins[..n]);
      FoldSnoc(Chat.Advance, Chat.Result(Chat.INIT, []), ins[..n], ins[n]);
      assert ins[..n] + [ins[n]] == ins;
      hide Fold;
      if AnyTool(ins[..n]) {
        var k :| 0 <= k < n && (ins[..n][k].event.ToolUseStart? || ins[..n][k].event.ToolInputDelta?);
        assert ins[k] == ins[..n][k];
      }
    }
  }

  /** A Chat client's message ends in the finish reason, the usage when there is one, and the marker. Cache
      reads and writes count as prompt tokens. */
  lemma ChatCloses(ins: seq<Input>, i: Input)
    requires i.event.MessageStop?
    ensures var fs, u := Chat.Run(ins + [i]).frames, i.event.usage;
            && |fs| >= 2 && fs[|fs| - 1] == Chat.DoneMarker
            && (u.found ==> |fs| >= 3 && fs[|fs| - 2].UsageChunk? && fs[|fs| - 3].FinishChunk?)
            && (u.found && u.NonNegative() ==>
                  var w := fs[|fs| - 2].usage;
                  && w.prompt == u.input + u.cacheRead + u.cacheWrite && w.completion == u.output
                  && w.cached == u.cacheRead && w.reasoning == u.reasoning)
            && (!u.found ==> fs[|fs| - 2].FinishChunk?)
            && fs[|fs| - (if u.found then 3 else 2)].reason ==
                 match i.event.stop
                 case ToolUse => "tool_calls"
                 case MaxTokens => "length"
                 case ContentFilter => "content_filter"
                 case _ => if AnyTool(ins) then "tool_calls" else "stop"
  {
    ToolsAreSeen(ins);
    hide AnyTool;
    FoldSnoc(Chat.Advance, Chat.Result(Chat.INIT, []), ins, i);
  }

  /** A Responses client's message ends in one frame that says how it went and what was used. */
  lemma ResponsesCloses(ins: seq<Input>, i: Input)
    requires i.event.MessageStop?
    ensures var bs, u := Responses.Run(ins + [i]).bodies, i.event.usage;
            && |bs| >= 1 && bs[|bs| - 1].Final?
            && (u.found ==>
                  && bs[|bs| - 1].usage.Present?
                  && var w := bs[|bs| - 1].usage.value;
                     && w.input == u.input + u.cacheRead + u.cacheWrite && w.output == u.output
                     && w.cached == u.cacheRead && w.reasoning == u.reasoning)
            && (!u.found ==> bs[|bs| - 1].usage.Absent?)
            && bs[|bs| - 1].status ==
                 match i.event.stop
                 case MaxTokens => Responses.Incomplete("max_output_tokens")
                 case ContentFilter => Responses.Incomplete("content_filter")
                 case _ => Responses.Completed
  {
    FoldSnoc(Responses.Advance, Responses.Result(Responses.INIT, []), ins, i);
  }

  /** An error reaches every client as its last frame, with its message. */
  lemma ErrorsClose(ins: seq<Input>, i: Input)
    requires i.event.Error?
    ensures var a, c, r := Claude.Run(ins + [i]).frames, Chat.Run(ins + [i]).frames, Responses.Run(ins + [i]).bodies;
            && a != [] && a[|a| - 1] == Claude.ErrorFrame(i.event.message)
            && c != [] && c[|c| - 1] == Chat.ErrorChunk(i.event.message)
            && r != [] && r[|r| - 1].Final? && r[|r| - 1].status == Responses.Failed(i.event.message)
            && r[|r| - 1].usage.Absent?
  {
    FoldSnoc(Claude.Advance, Claude.Result(Claude.INIT, []), ins, i);
    FoldSnoc(Chat.Advance, Chat.Result(Chat.INIT, []), ins, i);
    FoldSnoc(Responses.Advance, Responses.Result(Responses.INIT, []), ins, i);
  }

  /** The first frame names the message, by a generated id if it has none, and the model. An Anthropic
      client is told the input side at once; output is not known yet. */
  lemma FirstFrames(i: Input)
    requires i.event.MessageStart?
    ensures var e, a, c, r := i.event, Claude.Run([i]).frames, Chat.Run([i]).frames, Responses.Run([i]).bodies;
            && a == [Claude.StartFrame(if e.id != "" then e.id else "msg_" + i.itemToken, e.model,
                                       Present(AnthropicUsage(Count(e.usage.input), Count(0), Count(e.usage.cacheRead),
                                                              Count(e.usage.cacheWrite))))]
            && c == [Chat.RoleChunk(if e.id != "" then e.id else "chatcmpl-" + i.itemToken, e.model)]
            && var named := Responses.Response(if e.id != "" then e.id else "resp_" + i.itemToken, e.model, []);
               r == [Responses.Created(named), Responses.InProgress(named)]
  {
    FoldOne(Claude.Advance, Claude.Result(Claude.INIT, []), i);
    FoldOne(Chat.Advance, Chat.Result(Chat.INIT, []), i);
    FoldOne(Responses.Advance, Responses.Result(Responses.INIT, []), i);
  }

  /** Finished thinking, as far as a client can replay it: a signature closes the thinking block it
      belongs to, a redacted block is passed on whole, and so is a reasoning item. */
  lemma ThinkingIsReplayable(ins: seq<Input>, i: Input)
    requires i.event.ThinkingDone?
    ensures var was, a := Claude.Run(ins), Claude.Run(ins + [i]).frames;
            && (i.event.payload.Redacted? ==>
                  && |a| >= 2 && a[|a| - 2].BlockStart? && a[|a| - 1] == Claude.BlockStop(a[|a| - 2].index)
                  && a[|a| - 2].block == Claude.RedactedBlock(i.event.payload.data))
            && (i.event.payload.NoPayload? && was.state.open.ThinkingOpen? && i.event.signature != "" ==>
                  && |a| >= 2 && a[|a| - 1] == Claude.BlockStop(was.state.next - 1)
                  && a[|a| - 2] == Claude.BlockDelta(was.state.next - 1, Claude.SignaturePart(i.event.signature)))
    ensures var r := Responses.Run(ins + [i]);
            i.event.payload.ReasoningItem? ==>
              r.state.output != [] && r.state.output[|r.state.output| - 1] == Responses.Replayed(i.event.payload.raw)
  {
    FoldSnoc(Claude.Advance, Claude.Result(Claude.INIT, []), ins, i);
    FoldSnoc(Responses.Advance, Responses.Result(Responses.INIT, []), ins, i);
  }

  /** Arguments for a call that is no longer open start it again, with the same name and the same id if it
      had one, and go into it. */
  lemma CallsAreResumed(ins: seq<Input>, i: Input)
    requires i.event.ToolInputDelta?
    ensures var was, a := Claude.Run(ins).state, Claude.Run(ins + [i]).frames;
            was.open != Claude.ToolOpen(i.event.index) && i.event.index !in was.stale ==>
              var id := if i.event.callId == "" then "toolu_" + i.callToken else i.event.callId;
              && |a| >= 2 && a[|a| - 2] == Claude.BlockStart(was.next, Claude.ToolBlock(id, i.event.name))
              && a[|a| - 1] == Claude.BlockDelta(was.next, Claude.JsonPart(i.event.fragment))
    ensures var was, c := Chat.Run(ins).state, Chat.Run(ins + [i]).frames;
            i.event.index !in was.slots ==>
              var id := if i.event.callId == "" then "call_" + i.callToken else i.event.callId;
              && |c| >= 2 && c[|c| - 2] == Chat.CallChunk(was.next, id, i.event.name)
              && c[|c| - 1] == Chat.ArgsChunk(was.next, i.event.fragment)
    ensures var was, r := Responses.Run(ins).state, Responses.Run(ins + [i]).state.open;
            && r.Opened? && r.src == i.event.index && r.item.FunctionCall?
            && if was.open.Opened? && was.open.item.FunctionCall? && was.open.src == i.event.index
               then r.item == was.open.item.(args := was.open.item.args + i.event.fragment)
               else r.item.callId == (if i.event.callId == "" then "call_" + i.callToken else i.event.callId)
                    && r.item.name == i.event.name && r.item.args == i.event.fragment
  {
    FoldSnoc(Claude.Advance, Claude.Result(Claude.INIT, []), ins, i);
    FoldSnoc(Chat.Advance, Chat.Result(Chat.INIT, []), ins, i);
    FoldSnoc(Responses.Advance, Responses.Result(Responses.INIT, []), ins, i);
    assert i.event.fragment == "" ==> forall s: string :: s + i.event.fragment == s;
  }
}
