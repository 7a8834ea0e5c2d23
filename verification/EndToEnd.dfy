/** From Chat Completions chunks to what the clients of all three encoders hear. */
module EndToEnd {
  import opened Folds
  import opened TokenUsage
  import opened Ir
  import opened StreamContract
  import opened StreamMeaning
  import Chat = ChatDecoder
  import ChatContract
  import AnthropicGrammar
  import AnthropicMeaning
  import ResponsesMeaning
  import ChatMeaning

  /** A reading of the upstream chunks alone. Calls are filed under the tool_calls index of their
      fragments, with the id and name of the first one. `live` says a call is still open, `broken`
      that content, reasoning or an error arrived since it last received arguments. */
  datatype Source = Source(text: string, calls: seq<Indexed>, started: bool, finished: bool, stopped: bool,
                           live: bool, broken: bool, splits: nat, interrupted: bool) {
    function Interrupt(): Source {
      this.(broken := broken || live, interrupted := interrupted || live)
    }

    function Ended(): Source {
      this.(live := false, broken := false)
    }

    function Calls(): seq<Call> {
      seq(|calls|, k requires 0 <= k < |calls| => calls[k].call)
    }
  }

  const UNHEARD := Source("", [], false, false, false, false, false, 0, false)

  function Hear(src: Source, op: Chat.Op): Source {
    match op
    case Begin(_, _) => src.(started := true)
    case Reason(_) => src.Interrupt()
    case Content(text) => src.Interrupt().(text := src.text + text)
    case Fail(_) => src.Interrupt()
    case Call(f) =>
      var p := Position(src.calls, f.index);
      if p < 0 then
        src.(calls := src.calls + [Indexed(f.index, Call(f.id, f.name, f.args))], live := true, broken := false)
      else
        var c := src.calls[p].call;
        var splits := if f.args != "" && src.broken then src.splits + 1 else src.splits;
        src.(calls := src.calls[p := Indexed(f.index, c.(args := c.args + f.args))],
             splits := splits, broken := src.broken && f.args == "")
    case Finish(_) => src.Ended().(finished := true)
    case StopIfFinished => if src.started && !src.stopped && src.finished then src.Ended().(stopped := true) else src
    case Stop => if src.started && !src.stopped then src.Ended().(stopped := true) else src
    case _ => src
  }

  function Upstream(ps: seq<Chat.Payload>): Source {
    Fold(Hear, UNHEARD, Chat.AllOps(ps))
  }

  // ---- The decoder's events say what the chunks say --------------------------------------

  lemma {:induction false} FollowContract(t: Track, es: seq<Event>)
    ensures Fold(FollowEvent, t, es).contract == Fold(Obey, t.contract, es)
    ensures Fold(FollowEvent, t, es).target == t.target
    decreases |es|
  {
    if es != [] {
      FollowContract(FollowEvent(t, es[0]), es[1..]);
    }
  }

  ghost predicate Same(src: Source, t: Track) {
    && t.meaning == Meaning(src.text, src.Calls())
    && t.broken == src.broken && t.splits == src.splits
    && (src.broken ==> src.live)
    && (!src.interrupted ==> !src.broken && src.splits == 0)
  }

  ghost predicate Flags(s: Chat.State, src: Source) {
    && s.started == src.started && s.finish.Some? == src.finished && s.stopSent == src.stopped
    && (s.cur >= 0 <==> src.live)
    && (s.cur >= 0 ==> src.calls != [] && src.calls[|src.calls| - 1].index == s.cur)
    && (forall k :: k in s.phase <==> Position(src.calls, k) >= 0)
    && (forall j, k :: 0 <= j < k < |src.calls| ==> src.calls[j].index != src.calls[k].index)
  }

  ghost predicate Related(s: Chat.State, src: Source, t: Track) {
    ChatContract.Mirrored(s, t.contract) && Flags(s, src) && Same(src, t)
  }

  lemma CloseToolQuiet(s: Chat.State, t: Track)
    requires t.broken ==> s.cur >= 0
    ensures var r := Fold(FollowEvent, t, Chat.CloseTool(s).events);
            r.meaning == t.meaning && r.splits == t.splits && !r.broken
  {
    if s.cur >= 0 {
      FoldOne(FollowEvent, t, Chat.CloseTool(s).events[0]);
    }
  }

  lemma CloseReasoningQuiet(s: Chat.State, t: Track)
    ensures var r := Fold(FollowEvent, t, Chat.CloseReasoning(s).events);
            r.meaning == t.meaning && r.splits == t.splits && r.broken == t.broken
  {
    if s.reasonOpen {
      FoldOne(FollowEvent, t, Chat.CloseReasoning(s).events[0]);
    }
  }

  lemma {:induction false} TerminateQuiet(s: Chat.State, t: Track)
    requires s.started && !s.stopSent && (t.broken ==> s.cur >= 0) && ChatContract.Mirrored(s, t.contract)
    ensures var r := Fold(FollowEvent, t, Chat.Terminate(s).events);
            r.meaning == t.meaning && r.splits == t.splits && !r.broken
  {
    CloseToolQuiet(s, t);
    ChatContract.CloseToolObeys(s, t.contract);
    FollowContract(t, Chat.CloseTool(s).events);
    var c := Chat.CloseTool(s.(stopSent := true));
    assert c.events == Chat.CloseTool(s).events;
    var u := Fold(FollowEvent, t, c.events);
    CloseReasoningQuiet(c.state, u);
    ChatContract.CloseReasoningObeys(c.state, u.contract);
    FollowContract(u, Chat.CloseReasoning(c.state).events);
    FoldConcat(FollowEvent, t, c.events, Chat.CloseReasoning(c.state).events);
    FoldSnoc(FollowEvent, t, c.events + Chat.CloseReasoning(c.state).events,
             MessageStop(Chat.FinishReason(s.finish, s.hasTools), s.usage));
  }

  lemma {:induction false} OpenToolSays(s: Chat.State, t: Track, f: Chat.Fragment)
    requires t.broken ==> s.cur >= 0
    ensures var r := Fold(FollowEvent, t, Chat.OpenTool(s, f).events);
            r.meaning == t.meaning.(calls := t.meaning.calls + [Call(f.id, f.name, "")]) && r.splits == t.splits
                && !r.broken
  {
    var c := Chat.CloseTool(s);
    CloseToolQuiet(s, t);
    var u := Fold(FollowEvent, t, c.events);
    CloseReasoningQuiet(s, u);
    FoldConcat(FollowEvent, t, c.events, Chat.CloseReasoning(s).events);
    FoldSnoc(FollowEvent, t, c.events + Chat.CloseReasoning(s).events, ToolUseStart(f.index + 1, f.id, f.name));
    assert Chat.OpenTool(s, f).events
        == c.events + Chat.CloseReasoning(s).events + [ToolUseStart(f.index + 1, f.id, f.name)];
  }

  /** The first fragment of a call. */
  lemma FirstFragmentSays(s: Chat.State, src: Source, t: Track, f: Chat.Fragment)
    requires Related(s, src, t) && Chat.OnCall(s, f).ok && Position(src.calls, f.index) < 0
    ensures Same(Hear(src, Chat.Op.Call(f)), Fold(FollowEvent, t, Chat.OnCall(s, f).events))
  {
    var o := Chat.Opening(s, f);
    var input, u := Chat.InputOf(o.state, f), Fold(FollowEvent, t, o.events);
    FoldConcat(FollowEvent, t, o.events, input);
    OpenToolSays(s.(hasTools := true), t, f);
    assert u.meaning.calls == src.Calls() + [Call(f.id, f.name, "")];
    assert Hear(src, Chat.Op.Call(f)).Calls() == src.Calls() + [Call(f.id, f.name, f.args)];
    if f.args != "" {
      FoldOne(FollowEvent, u, input[0]);
      assert "" + f.args == f.args;
      assert Extend(u.meaning.calls, f.args) == src.Calls() + [Call(f.id, f.name, f.args)];
    }
  }

  /** A later fragment can only belong to the last call. */
  lemma LaterFragmentSays(s: Chat.State, src: Source, t: Track, f: Chat.Fragment)
    requires Related(s, src, t) && Chat.OnCall(s, f).ok && Position(src.calls, f.index) >= 0
    ensures Same(Hear(src, Chat.Op.Call(f)), Fold(FollowEvent, t, Chat.OnCall(s, f).events))
  {
    var o, p := Chat.Opening(s, f), Position(src.calls, f.index);
    var c := src.calls[p].call;
    assert s.phase[f.index] == Chat.Opened && p == |src.calls| - 1 && o.events == [];
    assert Hear(src, Chat.Op.Call(f)).Calls() == src.Calls()[p := c.(args := c.args + f.args)];
    if f.args != "" {
      FoldOne(FollowEvent, t, Chat.InputOf(o.state, f)[0]);
      assert Chat.OnCall(s, f).events == [Chat.InputOf(o.state, f)[0]];
    } else {
      assert c.args + "" == c.args;
      assert Chat.OnCall(s, f).events == [];
    }
  }

  lemma PositionSnoc(cs: seq<Indexed>, x: Indexed, k: int)
    ensures Position(cs + [x], k) >= 0 <==> Position(cs, k) >= 0 || x.index == k
  {
    assert (cs + [x])[..|cs|] == cs;
  }

  lemma PositionUpdate(cs: seq<Indexed>, p: nat, x: Indexed, k: int)
    requires p < |cs| && x.index == cs[p].index
    ensures Position(cs[p := x], k) >= 0 <==> Position(cs, k) >= 0
  {
    if Position(cs, k) >= 0 {
      assert cs[p := x][Position(cs, k)].index == k;
    }
  }

  lemma CallState(s: Chat.State, f: Chat.Fragment)
    requires Chat.OnCall(s, f).ok
    ensures var r := Chat.OnCall(s, f).state;
            && r.started == s.started && r.finish == s.finish && r.stopSent == s.stopSent
            && (if Chat.Lookup(s.phase, f.index, Chat.Unseen) == Chat.Unseen
                then r.cur == f.index && r.phase == Chat.CloseTool(s).state.phase[f.index := Chat.Opened]
                else r.cur == s.cur && r.phase == s.phase)
  {
    ChatContract.CallPhase(s, f);
    OpenState(s.(hasTools := true), f);
    hide Chat.InputOf, Chat.OpenTool, Chat.CloseTool;
  }

  lemma OpenState(s: Chat.State, f: Chat.Fragment)
    ensures var r := Chat.OpenTool(s, f).state;
            r.started == s.started && r.finish == s.finish && r.stopSent == s.stopSent && r.cur == f.index
  {
  }

  lemma CallFlags(s: Chat.State, r: Chat.State, src: Source, t: Track, f: Chat.Fragment)
    requires Related(s, src, t) && f.index >= 0
    requires r.started == s.started && r.finish == s.finish && r.stopSent == s.stopSent
    requires Position(src.calls, f.index) < 0 ==>
               r.cur == f.index && r.phase == Chat.CloseTool(s).state.phase[f.index := Chat.Opened]
    requires Position(src.calls, f.index) >= 0 ==> r.cur == s.cur == f.index && r.phase == s.phase
    ensures Flags(r, Hear(src, Chat.Op.Call(f)))
  {
    var h, p := Hear(src, Chat.Op.Call(f)), Position(src.calls, f.index);
    assert forall k :: k in Chat.CloseTool(s).state.phase <==> k in s.phase;
    forall k ensures k in r.phase <==> Position(h.calls, k) >= 0 {
      if p < 0 {
        PositionSnoc(src.calls, Indexed(f.index, Call(f.id, f.name, f.args)), k);
      } else {
        PositionUpdate(src.calls, p, h.calls[p], k);
      }
    }
  }

  predicate Ends(s: Chat.State, op: Chat.Op) {
    op.Finish? || (s.started && !s.stopSent && (op.Stop? || (op.StopIfFinished? && s.finish.Some?)))
  }

  /** What an operation other than a fragment does to the decoder's flags. */
  lemma QuietState(s: Chat.State, op: Chat.Op)
    requires Chat.Step(s, op).ok && !op.Call?
    ensures var r := Chat.Step(s, op).state;
            && r.started == (s.started || op.Begin?) && r.finish.Some? == (s.finish.Some? || op.Finish?)
            && r.stopSent == (s.stopSent || (Ends(s, op) && !op.Finish?))
            && r.cur == (if Ends(s, op) && s.cur >= 0 then -1 else s.cur)
  {
    hide Chat.FinishReason;
    match op
    case Stop => TerminateState(s); hide Chat.Terminate;
    case StopIfFinished => TerminateState(s); hide Chat.Terminate;
    case _ => hide Chat.Terminate;
  }

  lemma TerminateState(s: Chat.State)
    ensures var r := Chat.Terminate(s).state;
            && r.started == s.started && r.finish == s.finish && r.stopSent == (s.stopSent || s.started)
            && r.cur == (if s.started && !s.stopSent && s.cur >= 0 then -1 else s.cur)
  {
    hide Chat.FinishReason;
  }

  lemma QuietFlags(s: Chat.State, src: Source, t: Track, op: Chat.Op)
    requires Related(s, src, t) && Chat.Step(s, op).ok && !op.Call?
    ensures Flags(Chat.Step(s, op).state, Hear(src, op))
  {
    assert s.cur >= 0 ==> s.cur in s.phase by {
      hide Chat.Step, Same;
    }
    hide Chat.Step, Same, ChatContract.Mirrored;
    QuietPhase(s, op);
    QuietState(s, op);
    QuietSource(src, op);
    hide Hear;
  }

  lemma QuietPhase(s: Chat.State, op: Chat.Op)
    requires Chat.Step(s, op).ok && !op.Call? && (s.cur >= 0 ==> s.cur in s.phase)
    ensures forall k :: k in Chat.Step(s, op).state.phase <==> k in s.phase
  {
    hide Chat.Step;
    ChatContract.PhaseAfter(s, op);
  }

  lemma QuietSource(src: Source, op: Chat.Op)
    requires !op.Call?
    ensures var h := Hear(src, op);
            var stops := op.Stop? || (op.StopIfFinished? && src.finished);
            var ends := op.Finish? || (src.started && !src.stopped && stops);
            && h.calls == src.calls
            && h.started == (src.started || op.Begin?)
            && h.finished == (src.finished || op.Finish?)
            && h.stopped == (src.stopped || (ends && !op.Finish?))
            && h.live == (src.live && !ends)
  {
    hide Position;
  }

  lemma {:induction false} ContentSays(s: Chat.State, src: Source, t: Track, text: string)
    requires Related(s, src, t) && s.started
    ensures Same(Hear(src, Chat.Op.Content(text)), Fold(FollowEvent, t, Chat.Step(s, Chat.Op.Content(text)).events))
  {
    CloseReasoningQuiet(s, t);
    ChatContract.CloseReasoningObeys(s, t.contract);
    FollowContract(t, Chat.CloseReasoning(s).events);
    FoldSnoc(FollowEvent, t, Chat.CloseReasoning(s).events, TextDelta(0, text));
    hide Fold;
    assert Hear(src, Chat.Op.Content(text)).Calls() == src.Calls();
  }

  /** Stopping says nothing, and forgets an interruption if the stream had not stopped. */
  lemma StopSays(s: Chat.State, t: Track)
    requires ChatContract.Mirrored(s, t.contract) && (t.broken ==> s.cur >= 0)
    ensures var r := Fold(FollowEvent, t, Chat.Terminate(s).events);
            if s.started && !s.stopSent
            then r.meaning == t.meaning && r.splits == t.splits && !r.broken
            else r == t
  {
    if s.started && !s.stopSent { TerminateQuiet(s, t); }
  }

  lemma {:induction false} QuietSays(s: Chat.State, src: Source, t: Track, op: Chat.Op)
    requires Related(s, src, t) && Chat.Step(s, op).ok && !op.Call?
    requires s.started || op.Begin? || op.Stop? || op.Fail?
    ensures Same(Hear(src, op), Fold(FollowEvent, t, Chat.Step(s, op).events))
  {
    hide Chat.FinishReason, Chat.Terminate, Position;
    var events := Chat.Step(s, op).events;
    assert Hear(src, op).Calls() == src.Calls();
    match op
    case Begin(_, _) => if !s.started { FoldOne(FollowEvent, t, events[0]); }
    case SetUsage(_) =>
    case Reason(_) => FoldOne(FollowEvent, t, events[0]);
    case Content(text) => ContentSays(s, src, t, text);
    case Finish(_) => CloseToolQuiet(s, t);
    case StopIfFinished => if s.finish.Some? { StopSays(s, t); }
    case Stop => StopSays(s, t);
    case Fail(_) => FoldOne(FollowEvent, t, events[0]);
  }

  lemma {:induction false} StepRelated(s: Chat.State, src: Source, t: Track, op: Chat.Op)
    requires Related(s, src, t) && Chat.Step(s, op).ok
    requires s.started || op.Begin? || op.Stop? || op.Fail?
    requires op.Call? ==> op.f.index >= 0
    ensures Related(Chat.Step(s, op).state, Hear(src, op), Fold(FollowEvent, t, Chat.Step(s, op).events))
  {
    ChatContract.StepSound(s, t.contract, op, []);
    ChatContract.SeenIndices(s, op);
    FollowContract(t, Chat.Step(s, op).events);
    if !op.Call? {
      QuietFlags(s, src, t, op);
      QuietSays(s, src, t, op);
    } else {
      CallState(s, op.f);
      CallFlags(s, Chat.OnCall(s, op.f).state, src, t, op.f);
      if Position(src.calls, op.f.index) < 0 {
        FirstFragmentSays(s, src, t, op.f);
      } else {
        LaterFragmentSays(s, src, t, op.f);
      }
    }
  }

  // ---- Runs ------------------------------------------------------------------------------

  ghost predicate RelatedRun(acc: Chat.Result, src: Source, t0: Track) {
    acc.ok && Related(acc.state, src, Fold(FollowEvent, t0, acc.events))
  }

  lemma AdvanceRelated(acc: Chat.Result, src: Source, t0: Track, op: Chat.Op)
    requires RelatedRun(acc, src, t0) && Chat.Advance(acc, op).ok
    requires acc.state.started || op.Begin? || op.Stop? || op.Fail?
    requires op.Call? ==> op.f.index >= 0
    ensures RelatedRun(Chat.Advance(acc, op), Hear(src, op), t0)
    ensures acc.state.started || op.Begin? ==> Chat.Advance(acc, op).state.started
  {
    StepRelated(acc.state, src, Fold(FollowEvent, t0, acc.events), op);
    FoldConcat(FollowEvent, t0, acc.events, Chat.Step(acc.state, op).events);
  }

  lemma {:induction false} RunRelated(acc: Chat.Result, src: Source, t0: Track, ops: seq<Chat.Op>)
    requires RelatedRun(acc, src, t0) && acc.state.started && Chat.RunOps(acc, ops).ok
             && ChatContract.NonNegativeCalls(ops)
    ensures RelatedRun(Chat.RunOps(acc, ops), Fold(Hear, src, ops), t0)
    decreases |ops|
  {
    if ops != [] {
      if !Chat.Advance(acc, ops[0]).ok {
        Chat.RefusedStays(Chat.Advance(acc, ops[0]), ops[1..]);
      }
      AdvanceRelated(acc, src, t0, ops[0]);
      RunRelated(Chat.Advance(acc, ops[0]), Hear(src, ops[0]), t0, ops[1..]);
    }
  }

  lemma PayloadRelated(acc: Chat.Result, src: Source, t0: Track, p: Chat.Payload)
    requires RelatedRun(acc, src, t0) && Chat.RunOps(acc, Chat.Ops(p)).ok && ChatContract.NonNegativeCalls(Chat.Ops(p))
    ensures RelatedRun(Chat.RunOps(acc, Chat.Ops(p)), Fold(Hear, src, Chat.Ops(p)), t0)
  {
    var ops := Chat.Ops(p);
    if ops != [] {
      var first := Chat.Advance(acc, ops[0]);
      if !first.ok {
        Chat.RefusedStays(first, ops[1..]);
      }
      AdvanceRelated(acc, src, t0, ops[0]);
      if p.Chunk? {
        RunRelated(first, Hear(src, ops[0]), t0, ops[1..]);
      } else {
        assert ops[1..] == [];
        assert Chat.RunOps(acc, ops) == Chat.RunOps(first, []);
        assert Fold(Hear, src, ops) == Fold(Hear, Hear(src, ops[0]), []);
      }
    }
  }

  lemma {:induction false} StreamRelated(acc: Chat.Result, src: Source, t0: Track, ps: seq<Chat.Payload>)
    requires RelatedRun(acc, src, t0) && Chat.RunOps(acc, Chat.AllOps(ps)).ok
             && ChatContract.NonNegativeCalls(Chat.AllOps(ps))
    ensures RelatedRun(Chat.RunOps(acc, Chat.AllOps(ps)), Fold(Hear, src, Chat.AllOps(ps)), t0)
    decreases |ps|
  {
    if ps != [] {
      var xs, ys := Chat.Ops(ps[0]), Chat.AllOps(ps[1..]);
      assert forall k :: 0 <= k < |xs| ==> (xs + ys)[k] == xs[k];
      assert forall k :: 0 <= k < |ys| ==> (xs + ys)[|xs| + k] == ys[k];
      FoldConcat(Chat.Advance, acc, xs, ys);
      FoldConcat(Hear, src, xs, ys);
      if !Chat.RunOps(acc, xs).ok {
        Chat.RefusedStays(Chat.RunOps(acc, xs), ys);
      }
      PayloadRelated(acc, src, t0, ps[0]);
      StreamRelated(Chat.RunOps(acc, xs), Fold(Hear, src, xs), t0, ps[1..]);
    }
  }

  /** Tool indices in the decoder's events are the wire indices plus one. */
  lemma {:induction false} DecodedIndices(ins: seq<Input>, c: Contract)
    requires !Fold(Obey, c, Events(ins)).Violated?
    requires forall k :: 0 <= k < |ins| && ins[k].event.ToolUseStart? ==> ins[k].event.index >= 0
    requires c.Keeping? ==> (c.tool.Some? ==> c.tool.value >= 0)
    ensures AnthropicGrammar.NonNegativeTools(ins)
    decreases |ins|
  {
    if ins != [] {
      var es := Events(ins);
      assert es[0] == ins[0].event && es[1..] == Events(ins[1..]);
      if c.Violated? || Obey(c, es[0]).Violated? {
        ViolatedStays(es[1..]);
      }
      DecodedIndices(ins[1..], Obey(c, es[0]));
      forall k | 0 <= k < |ins| ensures AnthropicGrammar.ToolIndexOk(ins[k].event) {
        if k > 0 {
          assert AnthropicGrammar.ToolIndexOk(ins[1..][k - 1].event);
        }
      }
    }
  }

  lemma {:induction false} StartsNonNegative(acc: Chat.Result, ops: seq<Chat.Op>)
    requires ChatContract.NonNegativeCalls(ops)
    requires forall e :: e in acc.events && e.ToolUseStart? ==> e.index >= 0
    ensures forall e :: e in Chat.RunOps(acc, ops).events && e.ToolUseStart? ==> e.index >= 0
    decreases |ops|
  {
    if ops != [] {
      var next := Chat.Advance(acc, ops[0]);
      forall e | e in next.events && e.ToolUseStart? ensures e.index >= 0 {
        if acc.ok && e !in acc.events {
          StartedByCall(acc.state, ops[0], e);
        }
      }
      StartsNonNegative(next, ops[1..]);
    }
  }

  lemma StartedByCall(s: Chat.State, op: Chat.Op, e: Event)
    requires e in Chat.Step(s, op).events && e.ToolUseStart?
    ensures op.Call? && e.index == op.f.index + 1
  {
    if op.Call? {
      assert e in Chat.Opening(s, op.f).events;
    }
  }

  /** What the decoder hands on keeps the contract, with tool indices that are not negative. */
  lemma DecodedTools(ps: seq<Chat.Payload>, ins: seq<Input>)
    requires Chat.Run(ps).ok && ChatContract.NonNegativeCalls(Chat.AllOps(ps))
    requires Events(ins) == Chat.Run(ps).events
    ensures Respects(Events(ins)) && AnthropicGrammar.NonNegativeTools(ins)
  {
    ChatContract.DecoderKeepsContract(ps);
    StartsNonNegative(Chat.Result(Chat.INIT, [], true), Chat.AllOps(ps));
    forall k | 0 <= k < |ins| && ins[k].event.ToolUseStart? ensures ins[k].event.index >= 0 {
      assert Events(ins)[k] in Chat.Run(ps).events;
    }
    DecodedIndices(ins, FRESH);
  }

  // ---- Results ---------------------------------------------------------------------------

  /** For every Chat chunk sequence decoded without error (tool indices not negative), however ids
      are generated: all three clients hear the concatenated content; the Chat client hears the
      upstream calls; an Anthropic or a Responses client hears them exactly when no arguments
      arrived for a call after content, reasoning or an error had interrupted it. */
  lemma MeaningPreserved(ps: seq<Chat.Payload>, ins: seq<Input>)
    requires Chat.Run(ps).ok && ChatContract.NonNegativeCalls(Chat.AllOps(ps))
    requires Events(ins) == Chat.Run(ps).events
    ensures var src := Upstream(ps);
            var a, r, c := AnthropicMeaning.Heard(ins), ResponsesMeaning.Heard(ins), ChatMeaning.Heard(ins);
            && a.text == r.text == c.text == src.text
            && Agree(src.Calls(), c.calls)
            && (Agree(src.Calls(), a.calls) <==> src.splits == 0)
            && (Agree(src.Calls(), r.calls) <==> src.splits == 0)
  {
    var start := Chat.Result(Chat.INIT, [], true);
    DecodedTools(ps, ins);
    forall target: Target
      ensures Overview(target, ins).meaning == Meaning(Upstream(ps).text, Upstream(ps).Calls())
      ensures Overview(target, ins).splits == Upstream(ps).splits
    {
      var t0 := Track(target, FRESH, SILENCE, false, 0);
      assert UNHEARD.Calls() == [];
      StreamRelated(start, UNHEARD, t0, ps);
      FollowEvents(t0, ins);
    }
    AnthropicMeaning.AnthropicHears(ins);
    ResponsesMeaning.ResponsesHears(ins);
    ChatMeaning.ChatHears(ins, ToAnthropic);
  }

  /** In particular when nothing arrives while a call is open. */
  lemma UninterruptedIsPreserved(ps: seq<Chat.Payload>, ins: seq<Input>)
    requires Chat.Run(ps).ok && ChatContract.NonNegativeCalls(Chat.AllOps(ps)) && !Upstream(ps).interrupted
    requires Events(ins) == Chat.Run(ps).events
    ensures var src := Upstream(ps);
            Agree(src.Calls(), AnthropicMeaning.Heard(ins).calls)
                && Agree(src.Calls(), ResponsesMeaning.Heard(ins).calls)
  {
    assert UNHEARD.Calls() == [];
    StreamRelated(Chat.Result(Chat.INIT, [], true), UNHEARD, Track(ToAnthropic, FRESH, SILENCE, false, 0), ps);
    MeaningPreserved(ps, ins);
  }

  /** Over every contract-respecting event stream, whatever decoder it came from: all three clients
      hear the stream's text, the Chat client hears its calls, and the block-structured clients
      differ from the Chat client by one extra call per input to an interrupted tool, hence hear
      the same calls exactly when there is no such input. */
  lemma {:induction false} EncodersAgree(ins: seq<Input>)
    requires Respects(Events(ins)) && AnthropicGrammar.NonNegativeTools(ins)
    ensures var said := Fold(Mean, SILENCE, Events(ins));
            var a, r, c := AnthropicMeaning.Heard(ins), ResponsesMeaning.Heard(ins), ChatMeaning.Heard(ins);
            var toA, toR := Overview(ToAnthropic, ins).splits, Overview(ToResponses, ins).splits;
            && a.text == r.text == c.text == said.text
            && Agree(said.calls, c.calls)
            && |a.calls| == |c.calls| + toA && (Agree(said.calls, a.calls) <==> toA == 0)
            && |r.calls| == |c.calls| + toR && (Agree(said.calls, r.calls) <==> toR == 0)
  {
    FollowReads(Track(ToAnthropic, FRESH, SILENCE, false, 0), ins);
    FollowReads(Track(ToResponses, FRESH, SILENCE, false, 0), ins);
    hide Agree, Respects, AnthropicGrammar.NonNegativeTools;
    AnthropicMeaning.AnthropicHears(ins);
    ResponsesMeaning.ResponsesHears(ins);
    ChatMeaning.ChatHears(ins, ToAnthropic);
    assert |Fold(Mean, SILENCE, Events(ins)).calls| == |ChatMeaning.Heard(ins).calls| by {
      AgreeLength(Fold(Mean, SILENCE, Events(ins)).calls, ChatMeaning.Heard(ins).calls);
    }
  }

  lemma AgreeLength(source: seq<Call>, got: seq<Call>)
    requires Agree(source, got)
    ensures |source| == |got|
  {
  }

  /** Text in the middle of a call's arguments is decoded without error, and an Anthropic or a
      Responses client then hears two calls where the upstream made one. */
  lemma {:induction false} InterruptedCallIsSplit(ins: seq<Input>)
    requires var first := Chat.Choice(0, "", "", [Chat.Fragment(0, "id", "f", "{")], "");
             var later := Chat.Choice(0, "", "x", [Chat.Fragment(0, "", "", "}")], "");
             Events(ins) == Chat.Run([Chat.Chunk("c", "m", [first, later], Absent)]).events
    ensures var first := Chat.Choice(0, "", "", [Chat.Fragment(0, "id", "f", "{")], "");
            var later := Chat.Choice(0, "", "x", [Chat.Fragment(0, "", "", "}")], "");
            var ps := [Chat.Chunk("c", "m", [first, later], Absent)];
            && Chat.Run(ps).ok
            && Upstream(ps).splits == 1
            && Agree(Upstream(ps).Calls(), ChatMeaning.Heard(ins).calls)
            && !Agree(Upstream(ps).Calls(), AnthropicMeaning.Heard(ins).calls)
            && !Agree(Upstream(ps).Calls(), ResponsesMeaning.Heard(ins).calls)
  {
    var f, g := Chat.Fragment(0, "id", "f", "{"), Chat.Fragment(0, "", "", "}");
    var first, later := Chat.Choice(0, "", "", [f], ""), Chat.Choice(0, "", "x", [g], "");
    var p := Chat.Chunk("c", "m", [first, later], Absent);
    var a, b, c, d := Chat.Begin("c", "m"), Chat.Call(f), Chat.Content("x"), Chat.Call(g);
    hide Chat.Advance, Hear, Agree;
    InterruptedOps(f, g);
    hide Chat.AllOps, Chat.Ops, Chat.ChoicesOps, Chat.ChoiceOps;
    FoldFour(Chat.Advance, Chat.Result(Chat.INIT, [], true), a, b, c, d);
    FoldFour(Hear, UNHEARD, a, b, c, d);
    SplitState(f, g);
    MeaningPreserved([p], ins);
  }

  lemma InterruptedOps(f: Chat.Fragment, g: Chat.Fragment)
    ensures var first, later := Chat.Choice(0, "", "", [f], ""), Chat.Choice(0, "", "x", [g], "");
            Chat.AllOps([Chat.Chunk("c", "m", [first, later], Absent)])
            == [Chat.Begin("c", "m"), Chat.Call(f), Chat.Content("x"), Chat.Call(g)]
  {
    var first, later := Chat.Choice(0, "", "", [f], ""), Chat.Choice(0, "", "x", [g], "");
    var p := Chat.Chunk("c", "m", [first, later], Absent);
    assert Chat.ChoiceOps(first) == [Chat.Call(f)] && Chat.ChoiceOps(later) == [Chat.Content("x"), Chat.Call(g)];
    hide Chat.ChoiceOps;
    assert [first, later][..1] == [first] && [first][..0] == [];
    assert Chat.ChoicesOps([]) == [] && Chat.ChoicesOps([first]) == [Chat.Call(f)];
    assert Chat.ChoicesOps([first, later]) == [Chat.Call(f), Chat.Content("x"), Chat.Call(g)];
    assert [p][1..] == [] && Chat.AllOps([]) == [];
  }

  lemma SplitState(f: Chat.Fragment, g: Chat.Fragment)
    requires f == Chat.Fragment(0, "id", "f", "{") && g == Chat.Fragment(0, "", "", "}")
    ensures var s := Chat.Advance(Chat.Advance(Chat.Result(Chat.INIT, [], true), Chat.Begin("c", "m")), Chat.Call(f));
            Chat.Advance(Chat.Advance(s, Chat.Content("x")), Chat.Call(g)).ok
    ensures var h := Hear(Hear(UNHEARD, Chat.Begin("c", "m")), Chat.Call(f));
            Hear(Hear(h, Chat.Content("x")), Chat.Call(g)).splits == 1
  {
  }
}
