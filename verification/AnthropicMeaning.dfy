/** The message an Anthropic client reassembles from the encoder's frames. */
module AnthropicMeaning {
  import opened Folds
  import opened Ir
  import opened StreamContract
  import opened StreamMeaning
  import opened AnthropicEncoder
  import opened AnthropicGrammar

  datatype Received = Received(block: Block, body: string)

  /** A client files blocks and deltas by index. */
  function Collect(bs: seq<Received>, f: Frame): seq<Received> {
    match f
    case BlockStart(index, block) => if index == |bs| then bs + [Received(block, "")] else bs
    case BlockDelta(index, delta) =>
      if 0 <= index < |bs| && Fits(delta, bs[index].block) && !delta.SignaturePart?
      then bs[index := bs[index].(body := bs[index].body + delta.text)] else bs
    case _ => bs
  }

  function Add(m: Meaning, b: Received): Meaning {
    match b.block
    case TextBlock => m.(text := m.text + b.body)
    case ToolBlock(id, name) => m.(calls := m.calls + [Call(id, name, b.body)])
    case _ => m
  }

  function Assemble(bs: seq<Received>): Meaning {
    if bs == [] then SILENCE else Add(Assemble(bs[..|bs| - 1]), bs[|bs| - 1])
  }

  // ---- What one step adds ----------------------------------------------------------------

  lemma AssembleSnoc(bs: seq<Received>, b: Received)
    ensures Assemble(bs + [b]) == Add(Assemble(bs), b)
  {
    assert (bs + [b])[..|bs|] == bs;
  }

  lemma CollectClose(s: State, bs: seq<Received>)
    ensures Fold(Collect, bs, Close(s).frames) == bs
  {
    if !s.open.Nothing? {
      FoldOne(Collect, bs, BlockStop(s.next - 1));
    }
  }

  /** A delta into the last block. */
  lemma CollectDelta(bs: seq<Received>, delta: Delta)
    requires bs != [] && Fits(delta, bs[|bs| - 1].block) && !delta.SignaturePart?
    ensures var after := Collect(bs, BlockDelta(|bs| - 1, delta)); var m := Assemble(bs);
            && |after| == |bs| && after[|bs| - 1].block == bs[|bs| - 1].block
            && Assemble(after) == match delta
                                  case TextPart(d) => m.(text := m.text + d)
                                  case JsonPart(d) => m.(calls := Extend(m.calls, d))
                                  case _ => m
  {
    var front, b := bs[..|bs| - 1], bs[|bs| - 1];
    var grown := b.(body := b.body + delta.text);
    assert bs == front + [b] && Collect(bs, BlockDelta(|bs| - 1, delta)) == front + [grown];
    AssembleSnoc(front, b);
    AssembleSnoc(front, grown);
    assert (Assemble(front).text + b.body) + delta.text == Assemble(front).text + (b.body + delta.text);
  }

  lemma CollectEnsure(s: State, bs: seq<Received>, open: Open, block: Block)
    requires |bs| == s.next
    ensures Fold(Collect, bs, Ensure(s, open, block).frames)
            == if s.open == open then bs else bs + [Received(block, "")]
  {
    CollectClose(s, bs);
    if s.open != open {
      FoldSnoc(Collect, bs, Close(s).frames, BlockStart(s.next, block));
    }
  }

  lemma {:induction false} CollectStart(s: State, bs: seq<Received>, index: int, callId: string, name: string,
                                        token: string)
    requires |bs| == s.next
    ensures Fold(Collect, bs, StartTool(s, index, callId, name, token).frames)
            == bs + [Received(ToolBlock(OrElse(callId, "toolu_" + token), name), "")]
  {
    CollectClose(s, bs);
    FoldSnoc(Collect, bs, Close(s).frames, BlockStart(s.next, ToolBlock(OrElse(callId, "toolu_" + token), name)));
  }

  // ---- Simulation ------------------------------------------------------------------------

  ghost predicate Shape(s: State, bs: seq<Received>) {
    && |bs| == s.next && s.stale == map[]
    && (!s.open.Nothing? ==> bs != [])
    && (s.open.TextOpen? ==> bs[|bs| - 1].block.TextBlock?)
    && (s.open.ThinkingOpen? ==> bs[|bs| - 1].block.ThinkingBlock?)
    && (s.open.ToolOpen? ==> bs[|bs| - 1].block.ToolBlock? && s.open.src >= 0)
  }

  ghost predicate Related(s: State, bs: seq<Received>, t: Track) {
    && Shape(s, bs) && Conveys(t, Assemble(bs), s.open.ToolOpen?)
    && t.target.ToAnthropic? && t.contract.Keeping?
    && (s.open.ToolOpen? <==> t.contract.tool.Some? && !t.broken)
    && (s.open.ToolOpen? ==> t.contract.tool == Some(s.open.src))
    && (t.broken ==> t.contract.tool.Some? && t.meaning.calls != [])
  }

  lemma EnsureSilent(s: State, bs: seq<Received>, open: Open, block: Block)
    requires Shape(s, bs)
    requires (open == TextOpen && block == TextBlock) || (open == ThinkingOpen && block == ThinkingBlock)
    ensures var e := Ensure(s, open, block); var mid := Fold(Collect, bs, e.frames);
            && Shape(e.state, mid) && mid[|mid| - 1].block == block && e.state.open == open
            && Assemble(mid) == Assemble(bs)
  {
    CollectEnsure(s, bs, open, block);
    AssembleSnoc(bs, Received(block, ""));
    assert Assemble(bs).text + "" == Assemble(bs).text;
  }

  /** A text or thinking delta: the blocks after it, and what they say. */
  lemma DeltaSays(s: State, bs: seq<Received>, open: Open, block: Block, delta: Delta)
    requires Shape(s, bs)
    requires (open == TextOpen && block == TextBlock && delta.TextPart?)
             || (open == ThinkingOpen && block == ThinkingBlock && delta.ThinkingPart?)
    ensures var e := Ensure(s, open, block);
            var after := Fold(Collect, bs, e.frames + [BlockDelta(e.state.next - 1, delta)]);
            && Shape(e.state, after)
            && Assemble(after)
               == if delta.TextPart? then Assemble(bs).(text := Assemble(bs).text + delta.text) else Assemble(bs)
  {
    EnsureSilent(s, bs, open, block);
    var e := Ensure(s, open, block);
    CollectDelta(Fold(Collect, bs, e.frames), delta);
    FoldSnoc(Collect, bs, e.frames, BlockDelta(e.state.next - 1, delta));
  }

  lemma TextStep(s: State, bs: seq<Received>, t: Track, i: Input)
    requires Related(s, bs, t) && Follow(t, i).contract.Keeping? && (i.event.TextDelta? || i.event.ThinkingDelta?)
    ensures Related(Step(s, i).state, Fold(Collect, bs, Step(s, i).frames), Follow(t, i))
  {
    if i.event.TextDelta? {
      DeltaSays(s, bs, TextOpen, TextBlock, TextPart(i.event.text));
    } else {
      DeltaSays(s, bs, ThinkingOpen, ThinkingBlock, ThinkingPart(i.event.text));
    }
  }

  lemma ToolContinues(s: State, bs: seq<Received>, t: Track, i: Input)
    requires Related(s, bs, t) && Follow(t, i).contract.Keeping? && i.event.ToolInputDelta? && i.event.index >= 0
    requires s.open == ToolOpen(i.event.index)
    ensures Related(Step(s, i).state, Fold(Collect, bs, Step(s, i).frames), Follow(t, i))
  {
    var e := i.event;
    CollectDelta(bs, JsonPart(e.fragment));
    FoldOne(Collect, bs, BlockDelta(|bs| - 1, JsonPart(e.fragment)));
    if t.splits == 0 && !t.broken {
      AgreeExtend(t.meaning.calls, Assemble(bs).calls, e.fragment);
    }
  }

  lemma ToolReopens(s: State, bs: seq<Received>, t: Track, i: Input)
    requires Related(s, bs, t) && Follow(t, i).contract.Keeping? && i.event.ToolInputDelta? && i.event.index >= 0
    requires s.open != ToolOpen(i.event.index)
    ensures Related(Step(s, i).state, Fold(Collect, bs, Step(s, i).frames), Follow(t, i))
  {
    var e := i.event;
    CollectStart(s, bs, e.index, e.callId, e.name, i.callToken);
    var frames := StartTool(s, e.index, e.callId, e.name, i.callToken).frames;
    var mid := Fold(Collect, bs, frames);
    AssembleSnoc(bs, mid[|bs|]);
    CollectDelta(mid, JsonPart(e.fragment));
    FoldSnoc(Collect, bs, frames, BlockDelta(|mid| - 1, JsonPart(e.fragment)));
  }

  lemma {:induction false} ToolInputStep(s: State, bs: seq<Received>, t: Track, i: Input)
    requires Related(s, bs, t) && Follow(t, i).contract.Keeping? && i.event.ToolInputDelta? && i.event.index >= 0
    ensures Related(Step(s, i).state, Fold(Collect, bs, Step(s, i).frames), Follow(t, i))
  {
    hide Related, Step, Follow;
    if s.open == ToolOpen(i.event.index) { ToolContinues(s, bs, t, i); } else { ToolReopens(s, bs, t, i); }
  }

  lemma ToolStartStep(s: State, bs: seq<Received>, t: Track, i: Input)
    requires Related(s, bs, t) && Follow(t, i).contract.Keeping? && i.event.ToolUseStart? && i.event.index >= 0
    ensures Related(Step(s, i).state, Fold(Collect, bs, Step(s, i).frames), Follow(t, i))
  {
    CollectStart(s, bs, i.event.index, i.event.callId, i.event.name, i.callToken);
    AssembleSnoc(bs, Received(ToolBlock(OrElse(i.event.callId, "toolu_" + i.callToken), i.event.name), ""));
  }

  lemma ThinkingDoneStep(s: State, bs: seq<Received>, t: Track, i: Input)
    requires Related(s, bs, t) && Follow(t, i).contract.Keeping? && i.event.ThinkingDone?
    ensures Related(Step(s, i).state, Fold(Collect, bs, Step(s, i).frames), Follow(t, i))
  {
    CollectClose(s, bs);
    var e, c := i.event, Close(s);
    if e.payload.Redacted? {
      var block := RedactedBlock(e.payload.data);
      FoldConcat(Collect, bs, c.frames, [BlockStart(s.next, block), BlockStop(s.next)]);
      FoldTwo(Collect, bs, BlockStart(s.next, block), BlockStop(s.next));
      AssembleSnoc(bs, Received(block, ""));
    } else if e.payload.NoPayload? && s.open.ThinkingOpen? {
      var sig := if e.signature != "" then [BlockDelta(s.next - 1, SignaturePart(e.signature))] else [];
      FoldConcat(Collect, bs, sig, c.frames);
      if e.signature != "" {
        FoldOne(Collect, bs, sig[0]);
      }
    }
  }

  lemma TerminalStep(s: State, bs: seq<Received>, t: Track, i: Input)
    requires Related(s, bs, t) && Follow(t, i).contract.Keeping? && i.event.Terminal()
    ensures Related(Step(s, i).state, Fold(Collect, bs, Step(s, i).frames), Follow(t, i))
  {
    CollectClose(s, bs);
    var tail := Step(s, i).frames[|Close(s).frames|..];
    assert Step(s, i).frames == Close(s).frames + tail;
    FoldConcat(Collect, bs, Close(s).frames, tail);
    if i.event.MessageStop? {
      FoldTwo(Collect, bs, tail[0], tail[1]);
      assert tail == [tail[0], tail[1]];
    } else {
      FoldOne(Collect, bs, tail[0]);
      assert tail == [tail[0]];
    }
  }

  lemma {:induction false} StepRelated(s: State, bs: seq<Received>, t: Track, i: Input)
    requires Related(s, bs, t) && Follow(t, i).contract.Keeping? && ToolIndexOk(i.event)
    ensures Related(Step(s, i).state, Fold(Collect, bs, Step(s, i).frames), Follow(t, i))
  {
    match i.event
    case MessageStart(_, _, _) => FoldOne(Collect, bs, Step(s, i).frames[0]);
    case TextDelta(_, _) => TextStep(s, bs, t, i);
    case ThinkingDelta(_, _) => TextStep(s, bs, t, i);
    case ThinkingDone(_, _, _, _) => ThinkingDoneStep(s, bs, t, i);
    case ToolUseStart(_, _, _) => ToolStartStep(s, bs, t, i);
    case ToolInputDelta(_, _, _, _) => ToolInputStep(s, bs, t, i);
    case ToolUseStop(_, _, _) => if s.open.ToolOpen? { FoldOne(Collect, bs, BlockStop(s.next - 1)); }
    case MessageStop(_, _) => TerminalStep(s, bs, t, i);
    case Error(_) => TerminalStep(s, bs, t, i);
  }

  lemma {:induction false} RunRelated(acc: Result, t: Track, ins: seq<Input>)
    requires Related(acc.state, Fold(Collect, [], acc.frames), t)
    requires Fold(Follow, t, ins).contract.Keeping? && NonNegativeTools(ins)
    ensures var r := Fold(Advance, acc, ins); Related(r.state, Fold(Collect, [], r.frames), Fold(Follow, t, ins))
    decreases |ins|
  {
    if ins != [] {
      if Follow(t, ins[0]).contract.Violated? {
        ViolatedForGood(Follow(t, ins[0]), ins[1..]);
      }
      assert ToolIndexOk(ins[0].event);
      StepRelated(acc.state, Fold(Collect, [], acc.frames), t, ins[0]);
      FoldConcat(Collect, [], acc.frames, Step(acc.state, ins[0]).frames);
      RunRelated(Advance(acc, ins[0]), Follow(t, ins[0]), ins[1..]);
    }
  }

  function Heard(ins: seq<Input>): Meaning {
    Assemble(Fold(Collect, [], Run(ins).frames))
  }

  /** Over every contract-respecting stream the client hears the same text; its tool calls are the
      stream's tool calls exactly when no input arrives for an interrupted tool, and otherwise it
      sees one call too many for each such input. */
  lemma AnthropicHears(ins: seq<Input>)
    requires Respects(Events(ins)) && NonNegativeTools(ins)
    ensures var t := Overview(ToAnthropic, ins);
            && Heard(ins).text == t.meaning.text
            && |Heard(ins).calls| == |t.meaning.calls| + t.splits
            && (Agree(t.meaning.calls, Heard(ins).calls) <==> t.splits == 0)
  {
    var t0 := Track(ToAnthropic, FRESH, SILENCE, false, 0);
    FollowReads(t0, ins);
    RunRelated(Result(INIT, []), t0, ins);
  }
}
