/** What an Anthropic upstream says, and when its decoder keeps the stream contract. */
module AnthropicUpstream {
  import opened Folds
  import opened Ir
  import opened StreamContract
  import opened StreamMeaning
  import opened AnthropicDecoder

  /** Decoding a whole stream; nothing changes after an event that cannot be decoded. */
  function Advance(acc: Result, p: Payload): Result {
    if !acc.ok then acc
    else
      var o := Step(acc.state, p);
      Result(o.state, acc.events + o.events, o.ok)
  }

  function Run(ps: seq<Payload>): Result {
    Fold(Advance, Result(INIT, [], true), ps)
  }

  // ---- A reading of the upstream events alone -----------------------------------------------------

  /** `kinds` are the blocks that were started and not stopped, `tool` the tool block among them that
      takes input, `thinking` whether thinking was heard and not closed. `fit` says that nothing came out
      of turn so far. Calls are filed by block index; `broken` and `splits` are about input that arrives for
      a call after something else was said, as the client of `target` will notice. */
  datatype Source = Source(target: Target, fit: bool, kinds: map<int, ContentKind>, started: bool, stopped: bool,
                           tool: Option<int>, thinking: bool, text: string, calls: seq<Indexed>, broken: bool,
                           splits: nat) {
    function Unfit(): Source {
      this.(fit := false)
    }

    /** Something that is not tool input. */
    function Said(): Source {
      if !started then Unfit() else this.(broken := broken || tool.Some?)
    }

    function Calls(): seq<Call> {
      seq(|calls|, k requires 0 <= k < |calls| => calls[k].call)
    }
  }

  function Silent(target: Target): Source {
    Source(target, true, map[], false, false, None, false, "", [], false, 0)
  }

  function HearBlock(s: Source, index: int, block: WireBlock): Source {
    match block
    case TextStart(text) =>
      var t := s.(kinds := s.kinds[index := KindText]);
      if text == "" then t else t.Said().(text := s.text + text)
    case ThinkingStart(_, _) => s.(kinds := s.kinds[index := KindThinking])
    case RedactedStart(_) =>
      var t := s.(kinds := s.kinds[index := KindThinking], thinking := false);
      if !s.started then t.Unfit() else if s.target.ToAnthropic? then t.Said() else t
    case ToolStart(id, name) =>
      var t := s.(kinds := s.kinds[index := KindToolUse]);
      if !s.started || s.tool.Some? then t.Unfit()
      else t.(tool := Some(index), calls := s.calls + [Indexed(index, Call(id, name, ""))], broken := false)
    case UnknownStart => s
  }

  function HearDelta(s: Source, index: int, delta: WireDelta): Source {
    match delta
    case TextPiece(text) => s.Said().(text := s.text + text)
    case ThinkingPiece(_) => s.Said().(thinking := true)
    case JsonPiece(text) =>
      var k := Position(s.calls, index);
      if s.tool != Some(index) || k < 0 then s.Unfit()
      else
        var c := s.calls[k].call;
        s.(calls := s.calls[k := Indexed(index, c.(args := c.args + text))], broken := false,
           splits := if s.broken then s.splits + 1 else s.splits)
    case _ => s
  }

  function HearStop(s: Source, index: int): Source {
    if index !in s.kinds then s
    else
      var t := s.(kinds := s.kinds - {index});
      match s.kinds[index]
      case KindThinking => if s.started then t.(thinking := false) else t.Unfit()
      case KindToolUse => if s.tool == Some(index) then t.(tool := None, broken := false) else t.Unfit()
      case _ => t
  }

  function Hear(s: Source, p: Payload): Source {
    if !s.fit then s
    else match p
      case StartPayload(_) => if s.started then s.Unfit() else s.(started := true)
      case BlockStarted(index, block) => if block.None? then s else HearBlock(s, index, block.value)
      case BlockGrew(index, delta) => if delta.None? then s else HearDelta(s, index, delta.value)
      case BlockStopped(index) => HearStop(s, index)
      case StopPayload =>
        if !s.started || s.stopped || s.tool.Some? || s.thinking then s.Unfit() else s.(stopped := true)
      case ErrorPayload(_) => s.(broken := s.broken || s.tool.Some?)
      case _ => s
  }

  function Heard(target: Target, ps: seq<Payload>): Source {
    Fold(Hear, Silent(target), ps)
  }

  // ---- The decoder's events say what the reading says ----------------------------------------------

  ghost predicate SameKinds(blocks: map<int, BlockState>, kinds: map<int, ContentKind>) {
    forall k :: (k in blocks <==> k in kinds) && (k in blocks ==> blocks[k].kind == kinds[k])
  }

  ghost predicate Related(s: State, src: Source, t: Track) {
    && t.target == src.target
    && (src.fit <==> t.contract.Keeping?)
    && (src.fit ==>
          && SameKinds(s.blocks, src.kinds)
          && t.contract == Keeping(src.started, src.stopped, src.tool, src.thinking)
          && t.meaning == Meaning(src.text, src.Calls()) && t.broken == src.broken && t.splits == src.splits
          && (src.tool.Some? ==> src.started && src.calls != [] && src.calls[|src.calls| - 1].index == src.tool.value))
  }

  lemma KindAdded(blocks: map<int, BlockState>, kinds: map<int, ContentKind>, index: int, b: BlockState)
    requires SameKinds(blocks, kinds)
    ensures SameKinds(blocks[index := b], kinds[index := b.kind])
  {
  }

  lemma ToolRelated(s: State, src: Source, t: Track, index: int, id: string, name: string)
    requires Related(s, src, t) && src.fit
    ensures var o := OnBlockStart(s, index, ToolStart(id, name));
            Related(o.state, HearBlock(src, index, ToolStart(id, name)), Fold(FollowEvent, t, o.events))
  {
    AtMostOne(t, OnBlockStart(s, index, ToolStart(id, name)).events);
    KindAdded(s.blocks, src.kinds, index, BlockState(KindToolUse, "", "", id, name));
    hide Fold, SameKinds;
    var after := HearBlock(src, index, ToolStart(id, name));
    if after.fit {
      assert after.Calls() == src.Calls() + [Call(id, name, "")];
    }
  }

  lemma BlockRelated(s: State, src: Source, t: Track, index: int, block: WireBlock)
    requires Related(s, src, t) && src.fit && OnBlockStart(s, index, block).ok
    ensures Related(OnBlockStart(s, index, block).state, HearBlock(src, index, block),
                    Fold(FollowEvent, t, OnBlockStart(s, index, block).events))
  {
    if block.ToolStart? {
      ToolRelated(s, src, t, index, block.id, block.name);
    } else {
      AtMostOne(t, OnBlockStart(s, index, block).events);
      KindAdded(s.blocks, src.kinds, index, OnBlockStart(s, index, block).state.blocks[index]);
      hide Fold, SameKinds;
      assert HearBlock(src, index, block).Calls() == src.Calls();
    }
  }

  lemma DeltaKinds(s: State, kinds: map<int, ContentKind>, index: int, delta: WireDelta)
    requires SameKinds(s.blocks, kinds)
    ensures SameKinds(OnDelta(s, index, delta).state.blocks, kinds)
  {
  }

  lemma LastPosition(cs: seq<Indexed>)
    requires cs != []
    ensures Position(cs, cs[|cs| - 1].index) == |cs| - 1
  {
  }

  lemma InputCalls(src: Source, index: int, fragment: string)
    requires src.calls != [] && src.calls[|src.calls| - 1].index == index && src.tool == Some(index)
    ensures var after := HearDelta(src, index, JsonPiece(fragment));
            && Position(src.calls, index) == |src.calls| - 1
            && after.Calls() == Extend(src.Calls(), fragment)
            && after.calls != [] && after.calls[|after.calls| - 1].index == index
  {
    LastPosition(src.calls);
    hide Position;
  }

  lemma InputRelated(s: State, src: Source, t: Track, index: int, e: Event)
    requires Related(s, src, t) && src.fit && e.ToolInputDelta? && e.index == index
    ensures Related(s, HearDelta(src, index, JsonPiece(e.fragment)), FollowEvent(t, e))
  {
    hide SameKinds, Position, Source.Calls, Extend;
    if src.tool == Some(index) {
      InputCalls(src, index, e.fragment);
    }
  }

  lemma DeltaRelated(s: State, src: Source, t: Track, index: int, delta: WireDelta)
    requires Related(s, src, t) && src.fit
    ensures Related(OnDelta(s, index, delta).state, HearDelta(src, index, delta),
                    Fold(FollowEvent, t, OnDelta(s, index, delta).events))
  {
    AtMostOne(t, OnDelta(s, index, delta).events);
    if delta.JsonPiece? {
      hide Fold, FollowEvent, HearDelta, Related;
      InputRelated(s, src, t, index, OnDelta(s, index, delta).events[0]);
    } else {
      DeltaKinds(s, src.kinds, index, delta);
      hide Fold, SameKinds, Position;
      assert HearDelta(src, index, delta).Calls() == src.Calls();
      hide Source.Calls;
    }
  }

  lemma KindRemoved(blocks: map<int, BlockState>, kinds: map<int, ContentKind>, index: int)
    requires SameKinds(blocks, kinds)
    ensures SameKinds(blocks - {index}, kinds - {index})
    ensures (index in blocks <==> index in kinds) && (index in blocks ==> blocks[index].kind == kinds[index])
  {
  }

  lemma StopRelated(s: State, src: Source, t: Track, index: int)
    requires Related(s, src, t) && src.fit
    ensures Related(OnBlockStop(s, index).state, HearStop(src, index),
                    Fold(FollowEvent, t, OnBlockStop(s, index).events))
  {
    AtMostOne(t, OnBlockStop(s, index).events);
    KindRemoved(s.blocks, src.kinds, index);
    hide Fold, SameKinds;
    assert HearStop(src, index).Calls() == src.Calls();
  }

  lemma StepRelated(s: State, src: Source, t: Track, p: Payload)
    requires Related(s, src, t) && Step(s, p).ok
    ensures Related(Step(s, p).state, Hear(src, p), Fold(FollowEvent, t, Step(s, p).events))
  {
    if !src.fit {
      StaysUnfit(t, Step(s, p).events);
    } else {
      hide Fold, OnBlockStart, OnDelta, OnBlockStop, HearBlock, HearDelta, HearStop;
      if p.BlockStarted? {
        if p.block.Some? { BlockRelated(s, src, t, p.index, p.block.value); }
      } else if p.BlockGrew? {
        if p.delta.Some? { DeltaRelated(s, src, t, p.index, p.delta.value); }
      } else if p.BlockStopped? {
        StopRelated(s, src, t, p.index);
      } else {
        AtMostOne(t, Step(s, p).events);
        assert Hear(src, p).Calls() == src.Calls();
      }
    }
    if p.BlockStarted? || p.BlockGrew? {
      AtMostOne(t, []);
    }
  }

  ghost predicate RelatedRun(acc: Result, src: Source, t0: Track) {
    acc.ok && Related(acc.state, src, Fold(FollowEvent, t0, acc.events))
  }

  lemma {:induction false} RefusedStays(acc: Result, ps: seq<Payload>)
    requires !acc.ok
    ensures Fold(Advance, acc, ps) == acc
    decreases |ps|
  {
    if ps != [] { RefusedStays(acc, ps[1..]); }
  }

  lemma {:induction false} RunRelated(acc: Result, src: Source, t0: Track, ps: seq<Payload>)
    requires RelatedRun(acc, src, t0) && Fold(Advance, acc, ps).ok
    ensures RelatedRun(Fold(Advance, acc, ps), Fold(Hear, src, ps), t0)
    decreases |ps|
  {
    if ps != [] {
      var p := ps[0];
      var next := Advance(acc, p);
      if !next.ok { RefusedStays(next, ps[1..]); }
      StepRelated(acc.state, src, Fold(FollowEvent, t0, acc.events), p);
      FoldConcat(FollowEvent, t0, acc.events, Step(acc.state, p).events);
      hide Related, Step, Hear;
      RunRelated(next, Hear(src, p), t0, ps[1..]);
    }
  }

  lemma SilentIsRelated(target: Target)
    ensures Related(INIT, Silent(target), Track(target, FRESH, SILENCE, false, 0))
  {
    assert Silent(target).Calls() == [];
  }

  // ---- Results --------------------------------------------------------------------------------------

  /** For every stream decoded without error, the decoder keeps the contract exactly when nothing came
      out of turn; and then its events say, to an encoder for `target`, the text and the calls of the
      upstream, with as many splits as the upstream itself shows. */
  lemma {:induction false} UpstreamExact(target: Target, ps: seq<Payload>, ins: seq<Input>)
    requires Run(ps).ok && Events(ins) == Run(ps).events
    ensures var src, t := Heard(target, ps), Overview(target, ins);
            && (Respects(Events(ins)) <==> src.fit)
            && (src.fit ==> t.meaning == Meaning(src.text, src.Calls()) && t.splits == src.splits)
  {
    var t0 := Track(target, FRESH, SILENCE, false, 0);
    SilentIsRelated(target);
    hide Related, Step, Hear, Advance;
    RunRelated(Result(INIT, [], true), Silent(target), t0, ps);
    FollowEvents(t0, ins);
    FollowReads(t0, ins);
    RelatedMeans(Run(ps).state, Heard(target, ps), Overview(target, ins));
  }

  lemma RelatedMeans(s: State, src: Source, t: Track)
    requires Related(s, src, t)
    ensures src.fit <==> !t.contract.Violated?
    ensures src.fit ==> t.meaning == Meaning(src.text, src.Calls()) && t.splits == src.splits
  {
  }

  // ---- Servers that follow the documented grammar ----------------------------------------------------

  /** One block at a time, between message_start and message_stop; no block goes on after an error. */
  datatype Server = Broken | Serving(started: bool, stopped: bool, failed: bool, open: Option<(int, ContentKind)>)

  predicate Suits(d: WireDelta, kind: ContentKind) {
    match d
    case TextPiece(_) => kind == KindText
    case ThinkingPiece(_) => kind == KindThinking
    case SignaturePiece(_) => kind == KindThinking
    case JsonPiece(_) => kind == KindToolUse
    case OtherPiece => true
  }

  function KindOf(b: WireBlock): ContentKind {
    match b
    case TextStart(_) => KindText
    case ThinkingStart(_, _) => KindThinking
    case RedactedStart(_) => KindThinking
    case ToolStart(_, _) => KindToolUse
    case UnknownStart => NoKind
  }

  function Serve(v: Server, p: Payload): Server {
    if v.Broken? || (v.failed && (p.BlockStarted? || p.BlockGrew? || p.BlockStopped?)) then Broken
    else match p
      case StartPayload(_) => if v.started then Broken else v.(started := true)
      case BlockStarted(index, block) =>
        if !v.started || v.open.Some? || block.None? then Broken else v.(open := Some((index, KindOf(block.value))))
      case BlockGrew(index, delta) =>
        if v.open.None? || v.open.value.0 != index || delta.None? || !Suits(delta.value, v.open.value.1) then Broken
        else v
      case BlockStopped(index) => if v.open.None? || v.open.value.0 != index then Broken else v.(open := None)
      case StopPayload => if !v.started || v.stopped || v.open.Some? then Broken else v.(stopped := true)
      case ErrorPayload(_) => v.(failed := true)
      case _ => v
  }

  predicate Grammatical(ps: seq<Payload>) {
    !Fold(Serve, Serving(false, false, false, None), ps).Broken?
  }

  ghost predicate Matches(v: Server, src: Source) {
    && v.Serving? && src.fit && src.started == v.started && src.stopped == v.stopped
    && src.tool == (if v.open.Some? && v.open.value.1 == KindToolUse then Some(v.open.value.0) else None)
    && src.kinds == (if v.open.Some? then map[v.open.value.0 := v.open.value.1] else map[])
    && (src.thinking ==> v.open.Some? && v.open.value.1 == KindThinking)
    && (v.open.Some? ==> v.started)
    && src.splits == 0 && (src.broken ==> v.failed)
    && (src.tool.Some? ==> src.calls != [] && src.calls[|src.calls| - 1].index == src.tool.value)
  }

  lemma ServeMatches(v: Server, src: Source, p: Payload)
    requires Matches(v, src) && !Serve(v, p).Broken? && !(p.BlockStarted? && p.block == Some(UnknownStart))
    ensures Matches(Serve(v, p), Hear(src, p))
  {
    if p.BlockGrew? && p.delta.value.JsonPiece? {
      assert Position(src.calls, p.index) == |src.calls| - 1;
    }
  }

  lemma {:induction false} BrokenStays(ps: seq<Payload>)
    ensures Fold(Serve, Broken, ps) == Broken
    decreases |ps|
  {
    if ps != [] { BrokenStays(ps[1..]); }
  }

  lemma {:induction false} ServedMatches(v: Server, src: Source, acc: Result, ps: seq<Payload>)
    requires Matches(v, src) && acc.ok && Fold(Advance, acc, ps).ok && !Fold(Serve, v, ps).Broken?
    ensures Matches(Fold(Serve, v, ps), Fold(Hear, src, ps))
    decreases |ps|
  {
    if ps != [] {
      var p := ps[0];
      if !Advance(acc, p).ok { RefusedStays(Advance(acc, p), ps[1..]); }
      if Serve(v, p).Broken? { BrokenStays(ps[1..]); }
      KnownBlock(acc.state, p);
      hide Matches, Hear, Step, Serve;
      ServeMatches(v, src, p);
      ServedMatches(Serve(v, p), Hear(src, p), Advance(acc, p), ps[1..]);
    }
  }

  lemma KnownBlock(s: State, p: Payload)
    requires Step(s, p).ok
    ensures !(p.BlockStarted? && p.block == Some(UnknownStart))
  {
  }

  /** A server that follows the grammar never comes out of turn and never splits a call. */
  lemma {:induction false} GrammaticalIsClean(target: Target, ps: seq<Payload>)
    requires Run(ps).ok && Grammatical(ps)
    ensures Heard(target, ps).fit && Heard(target, ps).splits == 0
  {
    ServedMatches(Serving(false, false, false, None), Silent(target), Result(INIT, [], true), ps);
  }

  // ---- Indices --------------------------------------------------------------------------------------

  predicate NonNegativeTools(ps: seq<Payload>) {
    forall p :: p in ps && p.BlockStarted? && p.block.Some? && p.block.value.ToolStart? ==> p.index >= 0
  }

  lemma {:induction false} StartsNonNegative(acc: Result, ps: seq<Payload>)
    requires NonNegativeTools(ps) && forall e :: e in acc.events && e.ToolUseStart? ==> e.index >= 0
    ensures forall e :: e in Fold(Advance, acc, ps).events && e.ToolUseStart? ==> e.index >= 0
    decreases |ps|
  {
    if ps != [] {
      var p := ps[0];
      assert p in ps;
      forall e | e in Step(acc.state, p).events && e.ToolUseStart? ensures e.index >= 0 {
        StartedBy(acc.state, p, e);
      }
      hide Step;
      StartsNonNegative(Advance(acc, p), ps[1..]);
    }
  }

  lemma StartedBy(s: State, p: Payload, e: Event)
    requires e in Step(s, p).events && e.ToolUseStart?
    ensures p.BlockStarted? && p.block.Some? && p.block.value.ToolStart? && e.index == p.index
  {
  }

  // ---- Examples -------------------------------------------------------------------------------------

  /** Two calls at once are decoded without error and break the contract. */
  lemma OverlappingCallsAreUnfit(target: Target)
    ensures var ps := [StartPayload(None), BlockStarted(0, Some(ToolStart("a", "f"))),
                       BlockStarted(1, Some(ToolStart("b", "g")))];
            Run(ps).ok && !Heard(target, ps).fit
  {
    var x, y := StartPayload(None), BlockStarted(0, Some(ToolStart("a", "f")));
    var z := BlockStarted(1, Some(ToolStart("b", "g")));
    assert [x, y, z] == [x, y] + [z];
    FoldTwo(Advance, Result(INIT, [], true), x, y);
    FoldSnoc(Advance, Result(INIT, [], true), [x, y], z);
    FoldTwo(Hear, Silent(target), x, y);
    FoldSnoc(Hear, Silent(target), [x, y], z);
  }

  /** Text between the pieces of a call's input keeps the contract and splits the call. */
  lemma InterleavedTextSplits(target: Target)
    ensures var ps := [StartPayload(None), BlockStarted(0, Some(ToolStart("a", "f"))),
                       BlockGrew(1, Some(TextPiece("x"))), BlockGrew(0, Some(JsonPiece("{}")))];
            Run(ps).ok && Heard(target, ps).fit && Heard(target, ps).splits == 1
  {
    var x, y := StartPayload(None), BlockStarted(0, Some(ToolStart("a", "f")));
    var z, w := BlockGrew(1, Some(TextPiece("x"))), BlockGrew(0, Some(JsonPiece("{}")));
    FoldFour(Advance, Result(INIT, [], true), x, y, z, w);
    FoldFour(Hear, Silent(target), x, y, z, w);
    InterleavedRun(target, x, y, z, w);
    hide Advance, Hear, Fold;
  }

  lemma InterleavedRun(target: Target, x: Payload, y: Payload, z: Payload, w: Payload)
    requires x == StartPayload(None) && y == BlockStarted(0, Some(ToolStart("a", "f")))
    requires z == BlockGrew(1, Some(TextPiece("x"))) && w == BlockGrew(0, Some(JsonPiece("{}")))
    ensures Advance(Advance(Advance(Advance(Result(INIT, [], true), x), y), z), w).ok
    ensures var src := Hear(Hear(Hear(Hear(Silent(target), x), y), z), w); src.fit && src.splits == 1
  {
  }
}
