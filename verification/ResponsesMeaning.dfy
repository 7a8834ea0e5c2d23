/** The message a Responses client rebuilds from the encoder's frames. */
module ResponsesMeaning {
  import opened Folds
  import opened Ir
  import opened StreamContract
  import opened StreamMeaning
  import opened ResponsesEncoder
  import Replay = ResponsesReplay

  function Add(m: Meaning, it: Item): Meaning {
    match it
    case Message(_, text) => m.(text := m.text + text)
    case FunctionCall(_, callId, name, args) => m.(calls := m.calls + [Call(callId, name, args)])
    case _ => m
  }

  function Assemble(items: seq<Item>): Meaning {
    if items == [] then SILENCE else Add(Assemble(items[..|items| - 1]), items[|items| - 1])
  }

  lemma AssembleSnoc(items: seq<Item>, it: Item)
    ensures Assemble(items + [it]) == Add(Assemble(items), it)
  {
    assert (items + [it])[..|items|] == items;
  }

  /** What the client holds while an item is still open. */
  function Said(s: State): Meaning {
    if s.open.Idle? then Assemble(s.output) else Add(Assemble(s.output), s.open.item)
  }

  ghost predicate CallOpen(s: State) {
    s.open.Opened? && s.open.item.FunctionCall?
  }

  ghost predicate Related(s: State, t: Track) {
    && Conveys(t, Said(s), CallOpen(s))
    && t.target.ToResponses? && t.contract.Keeping?
    && (CallOpen(s) <==> t.contract.tool.Some? && !t.broken)
    && (CallOpen(s) ==> t.contract.tool == Some(s.open.src))
    && (t.broken ==> t.contract.tool.Some? && t.meaning.calls != [])
  }

  /** Closing an item says nothing new, except that empty arguments are now "{}". */
  lemma CloseSays(s: State, t: Track)
    requires Conveys(t, Said(s), CallOpen(s))
    ensures Conveys(t, Said(Close(s).state), false)
  {
    if s.open.Opened? {
      AssembleSnoc(s.output, Finished(s.open.item));
    }
  }

  lemma OpenSays(s: State, it: Item, src: int)
    requires s.open.Idle? && ((it.Message? && it.text == "") || it.Reasoning?)
    ensures Said(s.(open := Opened(it, src))) == Said(s)
  {
    assert it.Message? ==> Assemble(s.output).text + it.text == Assemble(s.output).text;
  }

  lemma TextStep(s: State, t: Track, i: Input)
    requires Related(s, t) && Follow(t, i).contract.Keeping? && i.event.TextDelta?
    ensures Related(Step(s, i).state, Follow(t, i))
  {
    CloseSays(s, t);
    OpenSays(Close(s).state, Message("msg_" + i.itemToken, ""), 0);
    var e := EnsureText(s, i).state;
    assert Conveys(t, Said(e), false);
    var before := Assemble(e.output).text;
    assert (before + e.open.item.text) + i.event.text == before + (e.open.item.text + i.event.text);
  }

  lemma ThinkingStep(s: State, t: Track, i: Input)
    requires Related(s, t) && Follow(t, i).contract.Keeping? && i.event.ThinkingDelta?
    ensures Related(Step(s, i).state, Follow(t, i))
  {
    CloseSays(s, t);
    OpenSays(Close(s).state, Reasoning("rs_" + i.itemToken, ""), 0);
  }

  lemma StartSays(s: State, t: Track, i: Input, index: int, callId: string, name: string)
    requires Conveys(t, Said(s), CallOpen(s))
    ensures var r := StartTool(s, index, callId, name, i).state;
            && CallOpen(r) && r.open.src == index && r.open.item.args == ""
            && Said(r).text == t.meaning.text
            && exists m: seq<Call>, id: string ::
                 && Said(r).calls == m + [Call(id, name, "")] && id == OrElse(callId, "call_" + i.callToken)
                 && |m| == |t.meaning.calls| + t.splits && (t.splits == 0 ==> Agree(t.meaning.calls, m))
  {
    CloseSays(s, t);
    var c := Close(s).state;
    assert Said(StartTool(s, index, callId, name, i).state).calls
        == Said(c).calls + [Call(OrElse(callId, "call_" + i.callToken), name, "")];
  }

  lemma ToolStartStep(s: State, t: Track, i: Input)
    requires Related(s, t) && Follow(t, i).contract.Keeping? && i.event.ToolUseStart?
    ensures Related(Step(s, i).state, Follow(t, i))
  {
    StartSays(s, t, i, i.event.index, i.event.callId, i.event.name);
  }

  lemma ArgsGrow(s: State, i: Input)
    requires i.event.ToolInputDelta?
    ensures var e := i.event;
            var r := if ToolOpen(s, e.index) then s else StartTool(s, e.index, e.callId, e.name, i).state;
            Step(s, i).state == r.(open := Opened(r.open.item.(args := r.open.item.args + e.fragment), e.index))
  {
    var e := i.event;
    var r := if ToolOpen(s, e.index) then s else StartTool(s, e.index, e.callId, e.name, i).state;
    assert e.fragment == "" ==> r.open.item.args + e.fragment == r.open.item.args;
  }

  lemma ToolContinues(s: State, t: Track, i: Input)
    requires Related(s, t) && Follow(t, i).contract.Keeping? && i.event.ToolInputDelta? && ToolOpen(s, i.event.index)
    ensures Related(Step(s, i).state, Follow(t, i))
  {
    ArgsGrow(s, i);
    hide Step;
    assert Said(Step(s, i).state).calls == Extend(Said(s).calls, i.event.fragment);
    if t.splits == 0 && !t.broken {
      AgreeExtend(t.meaning.calls, Said(s).calls, i.event.fragment);
    }
  }

  lemma ToolReopens(s: State, t: Track, i: Input)
    requires Related(s, t) && Follow(t, i).contract.Keeping? && i.event.ToolInputDelta? && !ToolOpen(s, i.event.index)
    ensures Related(Step(s, i).state, Follow(t, i))
  {
    var e := i.event;
    var r := StartTool(s, e.index, e.callId, e.name, i).state;
    StartSays(s, t, i, e.index, e.callId, e.name);
    ArgsGrow(s, i);
    hide Step;
    assert Said(Step(s, i).state).calls == Extend(Said(r).calls, e.fragment);
  }

  lemma ToolInputStep(s: State, t: Track, i: Input)
    requires Related(s, t) && Follow(t, i).contract.Keeping? && i.event.ToolInputDelta?
    ensures Related(Step(s, i).state, Follow(t, i))
  {
    hide Related, Step, Follow;
    if ToolOpen(s, i.event.index) { ToolContinues(s, t, i); } else { ToolReopens(s, t, i); }
  }

  lemma StepRelated(s: State, t: Track, i: Input)
    requires Related(s, t) && Follow(t, i).contract.Keeping?
    ensures Related(Step(s, i).state, Follow(t, i))
  {
    CloseSays(s, t);
    match i.event
    case MessageStart(_, _, _) =>
    case TextDelta(_, _) => TextStep(s, t, i);
    case ThinkingDelta(_, _) => ThinkingStep(s, t, i);
    case ThinkingDone(_, _, _, payload) =>
      if payload.ReasoningItem? { AssembleSnoc(Close(s).state.output, Replayed(payload.raw)); }
    case ToolUseStart(_, _, _) => ToolStartStep(s, t, i);
    case ToolInputDelta(_, _, _, _) => ToolInputStep(s, t, i);
    case ToolUseStop(_, _, _) =>
    case MessageStop(_, _) =>
    case Error(_) =>
  }

  lemma {:induction false} RunRelated(acc: Result, t: Track, ins: seq<Input>)
    requires Related(acc.state, t) && Fold(Follow, t, ins).contract.Keeping?
    ensures Related(Fold(Advance, acc, ins).state, Fold(Follow, t, ins))
    decreases |ins|
  {
    if ins != [] {
      if Follow(t, ins[0]).contract.Violated? {
        ViolatedForGood(Follow(t, ins[0]), ins[1..]);
      }
      StepRelated(acc.state, t, ins[0]);
      RunRelated(Advance(acc, ins[0]), Follow(t, ins[0]), ins[1..]);
    }
  }

  function Heard(ins: seq<Input>): Meaning {
    Assemble(Replay.View(Fold(Replay.Rebuild, [], Run(ins).bodies)))
  }

  /** The rebuilt items are the items of the summary, were the message to end here. */
  lemma HeardIsSummary(ins: seq<Input>)
    ensures Heard(ins) == Assemble(Close(Run(ins).state).state.output)
  {
    var r := Run(ins);
    Replay.RunReads(Result(INIT, []), ins);
    Replay.FoldMirrors(Replay.START, [], r.bodies);
    assert Replay.View(Fold(Replay.Rebuild, [], r.bodies)) == Close(r.state).state.output;
  }

  /** As for the Anthropic encoder, for tool indices of any sign. */
  lemma ResponsesHears(ins: seq<Input>)
    requires Respects(Events(ins))
    ensures var t := Overview(ToResponses, ins);
            && Heard(ins).text == t.meaning.text
            && |Heard(ins).calls| == |t.meaning.calls| + t.splits
            && (Agree(t.meaning.calls, Heard(ins).calls) <==> t.splits == 0)
  {
    var t0 := Track(ToResponses, FRESH, SILENCE, false, 0);
    FollowReads(t0, ins);
    RunRelated(Result(INIT, []), t0, ins);
    CloseSays(Run(ins).state, Fold(Follow, t0, ins));
    HeardIsSummary(ins);
  }
}
