/** The message a Chat Completions client accumulates from the encoder's chunks. */
module ChatMeaning {
  import opened Folds
  import opened Ir
  import opened StreamContract
  import opened StreamMeaning
  import opened ChatEncoder

  /** Clients concatenate content and file tool-call fragments by their index. */
  function Accumulate(m: Meaning, f: Frame): Meaning {
    match f
    case ContentChunk(text) => m.(text := m.text + text)
    case CallChunk(slot, id, name) => if slot == |m.calls| then m.(calls := m.calls + [Call(id, name, "")]) else m
    case ArgsChunk(slot, args) =>
      if 0 <= slot < |m.calls|
      then m.(calls := m.calls[slot := m.calls[slot].(args := m.calls[slot].args + args)])
      else m
    case _ => m
  }

  ghost predicate Related(s: State, m: Meaning, t: Track) {
    && t.contract.Keeping? && m.text == t.meaning.text
    && |m.calls| == s.next && Agree(t.meaning.calls, m.calls)
    && (forall k :: 0 <= k < |m.calls| ==> m.calls[k].args == t.meaning.calls[k].args)
    && (t.contract.tool.Some? ==>
        s.next > 0 && t.contract.tool.value in s.slots && s.slots[t.contract.tool.value] == s.next - 1)
  }

  lemma ToolInputStep(s: State, m: Meaning, t: Track, i: Input)
    requires Related(s, m, t) && Follow(t, i).contract.Keeping? && i.event.ToolInputDelta?
    ensures Related(Step(s, i).state, Fold(Accumulate, m, Step(s, i).frames), Follow(t, i))
  {
    var fragment := i.event.fragment;
    AgreeExtend(t.meaning.calls, m.calls, fragment);
    if fragment == "" {
      var last := t.meaning.calls[|t.meaning.calls| - 1];
      assert last.args + "" == last.args;
      assert Extend(t.meaning.calls, "") == t.meaning.calls;
    } else {
      FoldOne(Accumulate, m, ArgsChunk(s.next - 1, fragment));
      assert Accumulate(m, ArgsChunk(s.next - 1, fragment)).calls == Extend(m.calls, fragment);
    }
  }

  lemma TerminalStep(s: State, m: Meaning, t: Track, i: Input)
    requires i.event.Terminal()
    ensures Step(s, i).state == s && Fold(Accumulate, m, Step(s, i).frames) == m
  {
    var frames := Step(s, i).frames;
    if |frames| == 1 {
      FoldOne(Accumulate, m, frames[0]);
      assert frames == [frames[0]];
    } else {
      FoldTwo(Accumulate, m, frames[0], frames[1]);
      if |frames| == 3 {
        FoldSnoc(Accumulate, m, [frames[0], frames[1]], frames[2]);
        assert frames == [frames[0], frames[1]] + [frames[2]];
      } else {
        assert frames == [frames[0], frames[1]];
      }
    }
  }

  lemma StepRelated(s: State, m: Meaning, t: Track, i: Input)
    requires Related(s, m, t) && Follow(t, i).contract.Keeping?
    ensures Related(Step(s, i).state, Fold(Accumulate, m, Step(s, i).frames), Follow(t, i))
  {
    if i.event.ToolInputDelta? {
      ToolInputStep(s, m, t, i);
    } else if i.event.Terminal() {
      TerminalStep(s, m, t, i);
    } else if Step(s, i).frames != [] {
      FoldOne(Accumulate, m, Step(s, i).frames[0]);
      assert Step(s, i).frames == [Step(s, i).frames[0]];
    }
  }

  lemma {:induction false} RunRelated(acc: Result, t: Track, ins: seq<Input>)
    requires Related(acc.state, Fold(Accumulate, SILENCE, acc.frames), t) && Fold(Follow, t, ins).contract.Keeping?
    ensures var r := Fold(Advance, acc, ins);
            Related(r.state, Fold(Accumulate, SILENCE, r.frames), Fold(Follow, t, ins))
    decreases |ins|
  {
    if ins != [] {
      if Follow(t, ins[0]).contract.Violated? {
        ViolatedForGood(Follow(t, ins[0]), ins[1..]);
      }
      StepRelated(acc.state, Fold(Accumulate, SILENCE, acc.frames), t, ins[0]);
      FoldConcat(Accumulate, SILENCE, acc.frames, Step(acc.state, ins[0]).frames);
      RunRelated(Advance(acc, ins[0]), Follow(t, ins[0]), ins[1..]);
    }
  }

  function Heard(ins: seq<Input>): Meaning {
    Fold(Accumulate, SILENCE, Run(ins).frames)
  }

  /** The Chat encoder never splits a call: it conveys every contract-respecting stream whole. */
  lemma ChatHears(ins: seq<Input>, target: Target)
    requires Respects(Events(ins))
    ensures var said := Overview(target, ins).meaning;
            Heard(ins).text == said.text && Agree(said.calls, Heard(ins).calls)
  {
    var t0 := Track(target, FRESH, SILENCE, false, 0);
    FollowReads(t0, ins);
    RunRelated(Result(INIT, []), t0, ins);
  }
}
