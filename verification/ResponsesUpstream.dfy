/** What a Responses upstream says, and when its decoder keeps the stream contract. */
module ResponsesUpstream {
  import opened Folds
  import opened Ir
  import opened StreamContract
  import opened StreamMeaning
  import opened ResponsesDecoder

  /** Decoding a whole stream; nothing changes after an event that cannot be decoded. */
  function Advance(acc: Result, p: Payload): Result {
    if !acc.ok then acc
    else
      var o := Step(acc.state, p);
      Result(o.state, acc.events + o.events, o.ok)
  }

  function Run(ps: seq<Payload>): Result {
    Fold(Advance, Result(INIT, [], true), ps)
  }

  // ---- A reading of the upstream events alone -----------------------------------------------------

  /** `kinds` and `ids` are the items added so far, by output index and by item id; `tool` is the call
      that takes arguments, `thinking` whether a summary was heard and not closed, `ended` whether a
      final response came. `fit` says that nothing came out of turn so far. */
  datatype Source = Source(target: Target, fit: bool, kinds: map<int, ContentKind>, ids: map<string, int>,
                           started: bool, ended: bool, stopped: bool, tool: Option<int>, thinking: bool, text: string,
                           calls: seq<Indexed>, broken: bool, splits: nat) {
    function Unfit(): Source {
      this.(fit := false)
    }

    /** Something that is not tool input. */
    function Said(): Source {
      if !started then Unfit() else this.(broken := broken || tool.Some?)
    }

    /** The item an event is about: a known id wins over the index. */
    function Place(index: int, itemId: string): int {
      if itemId != "" && itemId in ids then ids[itemId] else index
    }

    function Calls(): seq<Call> {
      seq(|calls|, k requires 0 <= k < |calls| => calls[k].call)
    }
  }

  function Silent(target: Target): Source {
    Source(target, true, map[], map[], false, false, false, None, false, "", [], false, 0)
  }

  function HearAdded(s: Source, index: int, it: WireItem): Source {
    var t := s.(kinds := s.kinds[index := KindOf(it.kind)],
                ids := if it.id != "" then s.ids[it.id := index] else s.ids);
    if !it.kind.CallItem? then t
    else if !s.started || s.tool.Some? then t.Unfit()
    else t.(tool := Some(index), calls := s.calls + [Indexed(index, Call(it.callId, it.name, ""))], broken := false)
  }

  function HearArgs(s: Source, at: int, delta: string): Source {
    var k := Position(s.calls, at);
    if s.tool != Some(at) || k < 0 then s.Unfit()
    else
      var c := s.calls[k].call;
      s.(calls := s.calls[k := Indexed(at, c.(args := c.args + delta))], broken := false,
         splits := if s.broken then s.splits + 1 else s.splits)
  }

  function HearDone(s: Source, at: int, it: WireItem): Source {
    if at !in s.kinds then s
    else match s.kinds[at]
      case KindToolUse => if s.tool == Some(at) then s.(tool := None, broken := false) else s.Unfit()
      case KindThinking =>
        var t := s.(thinking := false);
        if !s.started then t.Unfit() else if s.target.ToResponses? && it.kind.ThoughtItem? then t.Said() else t
      case _ => s
  }

  function HearEnd(s: Source, kind: EndType, final: Option<WireResponse>): Source {
    if s.ended then s
    else
      var t := s.(ended := true);
      if final.Some? && kind.FailedEnd? && final.value.error.Some? then t.(broken := s.broken || s.tool.Some?)
      else if !s.started || s.stopped || s.tool.Some? || s.thinking then t.Unfit()
      else t.(stopped := true)
  }

  function Hear(s: Source, p: Payload): Source {
    if !s.fit then s
    else match p
      case CreatedPayload(_) => s.(started := true)
      case ItemAdded(index, item) => if item.None? then s else HearAdded(s, index, item.value)
      case TextPayload(_, _, delta) => s.Said().(text := s.text + delta)
      case ThoughtPayload(_, _, _) => s.Said().(thinking := true)
      case ArgsPayload(index, itemId, delta) => HearArgs(s, s.Place(index, itemId), delta)
      case ItemDone(index, itemId, item) => if item.None? then s else HearDone(s, s.Place(index, itemId), item.value)
      case EndPayload(kind, final) => HearEnd(s, kind, final)
      case ErrorPayload(_) => s.(broken := s.broken || s.tool.Some?)
      case _ => s
  }

  function Heard(target: Target, ps: seq<Payload>): Source {
    Fold(Hear, Silent(target), ps)
  }

  // ---- The decoder's events say what the reading says ----------------------------------------------

  ghost predicate SameKinds(items: map<int, ItemState>, kinds: map<int, ContentKind>) {
    forall k :: (k in items <==> k in kinds) && (k in items ==> items[k].kind == kinds[k])
  }

  ghost predicate Related(s: State, src: Source, t: Track) {
    && t.target == src.target
    && (src.fit <==> t.contract.Keeping?)
    && (src.fit ==>
          && SameKinds(s.items, src.kinds) && s.byId == src.ids && s.started == src.started && s.stopped == src.ended
          && t.contract == Keeping(src.started, src.stopped, src.tool, src.thinking)
          && t.meaning == Meaning(src.text, src.Calls()) && t.broken == src.broken && t.splits == src.splits
          && (src.stopped ==> src.ended)
          && (src.tool.Some? ==> src.started && src.calls != [] && src.calls[|src.calls| - 1].index == src.tool.value))
  }

  lemma KindAdded(items: map<int, ItemState>, kinds: map<int, ContentKind>, index: int, it: ItemState)
    requires SameKinds(items, kinds)
    ensures SameKinds(items[index := it], kinds[index := it.kind])
  {
  }

  lemma AddedRelated(s: State, src: Source, t: Track, index: int, it: WireItem)
    requires Related(s, src, t) && src.fit
    ensures Related(OnAdded(s, index, it).state, HearAdded(src, index, it),
                    Fold(FollowEvent, t, OnAdded(s, index, it).events))
  {
    AtMostOne(t, OnAdded(s, index, it).events);
    KindAdded(s.items, src.kinds, index, ItemState(KindOf(it.kind), it.callId, it.name));
    hide Fold, SameKinds;
    var after := HearAdded(src, index, it);
    if it.kind.CallItem? && after.fit {
      assert after.Calls() == src.Calls() + [Call(it.callId, it.name, "")];
    } else {
      assert after.Calls() == src.Calls();
    }
  }

  lemma ArgsCalls(src: Source, at: int, fragment: string)
    requires src.calls != [] && src.calls[|src.calls| - 1].index == at && src.tool == Some(at)
    ensures Position(src.calls, at) == |src.calls| - 1
    ensures HearArgs(src, at, fragment).Calls() == Extend(src.Calls(), fragment)
    ensures var after := HearArgs(src, at, fragment); after.calls != [] && after.calls[|after.calls| - 1].index == at
  {
    hide Position;
    assert Position(src.calls, at) == |src.calls| - 1 by {
      LastPosition(src.calls);
    }
  }

  lemma LastPosition(cs: seq<Indexed>)
    requires cs != []
    ensures Position(cs, cs[|cs| - 1].index) == |cs| - 1
  {
  }

  lemma ArgsRelated(s: State, src: Source, t: Track, at: int, e: Event)
    requires Related(s, src, t) && src.fit && e.ToolInputDelta? && e.index == at
    ensures Related(s, HearArgs(src, at, e.fragment), FollowEvent(t, e))
  {
    hide SameKinds, Position, Source.Calls, Extend;
    if src.tool == Some(at) {
      ArgsCalls(src, at, e.fragment);
    }
  }

  lemma DoneKinds(s: State, kinds: map<int, ContentKind>, at: int, it: WireItem)
    requires SameKinds(s.items, kinds)
    ensures SameKinds(OnDone(s, at, it).state.items, kinds)
    ensures (at in s.items <==> at in kinds) && (at in s.items ==> s.items[at].kind == kinds[at])
  {
  }

  lemma CallDone(s: State, src: Source, t: Track, at: int, items: map<int, ItemState>, e: Event)
    requires Related(s, src, t) && src.fit && SameKinds(items, src.kinds) && e.ToolUseStop? && e.index == at
    ensures var heard := if src.tool == Some(at) then src.(tool := None, broken := false) else src.Unfit();
            Related(s.(items := items), heard, FollowEvent(t, e))
  {
    hide SameKinds;
    assert src.(tool := None, broken := false).Calls() == src.Calls();
  }

  lemma ThoughtDone(s: State, src: Source, t: Track, e: Event)
    requires Related(s, src, t) && src.fit && e.ThinkingDone? && !e.payload.Redacted?
    ensures var after := src.(thinking := false);
            var heard := if !src.started then after.Unfit()
                         else if src.target.ToResponses? && e.payload.ReasoningItem? then after.Said() else after;
            Related(s, heard, FollowEvent(t, e))
  {
    hide SameKinds;
    var after := src.(thinking := false);
    assert after.Calls() == src.Calls() && after.Said().Calls() == src.Calls();
  }

  lemma DoneRelated(s: State, src: Source, t: Track, at: int, it: WireItem)
    requires Related(s, src, t) && src.fit
    ensures Related(OnDone(s, at, it).state, HearDone(src, at, it), Fold(FollowEvent, t, OnDone(s, at, it).events))
  {
    var o := OnDone(s, at, it);
    AtMostOne(t, o.events);
    DoneKinds(s, src.kinds, at, it);
    hide Fold, SameKinds, FollowEvent;
    if o.events != [] {
      if o.events[0].ToolUseStop? {
        CallDone(s, src, t, at, o.state.items, o.events[0]);
      } else {
        ThoughtDone(s, src, t, o.events[0]);
      }
      hide Related;
    }
  }

  lemma FailRelated(s: State, src: Source, t: Track, e: Event)
    requires Related(s, src, t) && src.fit && e.Error?
    ensures Related(s, src.(broken := src.broken || src.tool.Some?), FollowEvent(t, e))
  {
    hide SameKinds;
    assert src.(broken := src.broken || src.tool.Some?).Calls() == src.Calls();
  }

  lemma StopRelated(s: State, src: Source, t: Track, e: Event)
    requires Related(s, src, t) && src.fit && e.MessageStop? && src.ended
    ensures Related(s, if !src.started || src.stopped || src.tool.Some? || src.thinking then src.Unfit()
                       else src.(stopped := true), FollowEvent(t, e))
  {
    hide SameKinds;
    assert src.(stopped := true).Calls() == src.Calls();
  }

  lemma EndRelated(s: State, src: Source, t: Track, kind: EndType, final: Option<WireResponse>)
    requires Related(s, src, t) && src.fit
    ensures Related(OnEnd(s, kind, final).state, HearEnd(src, kind, final),
                    Fold(FollowEvent, t, OnEnd(s, kind, final).events))
  {
    var o := OnEnd(s, kind, final);
    AtMostOne(t, o.events);
    hide Fold, SameKinds, StatusStop, FollowEvent;
    if !src.ended {
      assert src.(ended := true).Calls() == src.Calls();
      if o.events[0].Error? {
        FailRelated(s.(stopped := true), src.(ended := true), t, o.events[0]);
      } else {
        StopRelated(s.(stopped := true), src.(ended := true), t, o.events[0]);
      }
      hide Related;
    }
  }

  lemma PieceRelated(s: State, src: Source, t: Track, p: Payload)
    requires Related(s, src, t) && src.fit && Step(s, p).ok
    requires !p.ItemAdded? && !p.ArgsPayload? && !p.ItemDone? && !p.EndPayload?
    ensures Related(Step(s, p).state, Hear(src, p), Fold(FollowEvent, t, Step(s, p).events))
  {
    AtMostOne(t, Step(s, p).events);
    hide Fold, OnAdded, OnDone, OnEnd, HearAdded, HearDone, HearEnd, HearArgs, SameKinds;
    assert Hear(src, p).Calls() == src.Calls();
    hide Source.Calls;
  }

  lemma StepRelated(s: State, src: Source, t: Track, p: Payload)
    requires Related(s, src, t) && Step(s, p).ok
    ensures Related(Step(s, p).state, Hear(src, p), Fold(FollowEvent, t, Step(s, p).events))
  {
    if !src.fit {
      StaysUnfit(t, Step(s, p).events);
    } else if p.ItemAdded? || p.ItemDone? || p.ArgsPayload? || p.EndPayload? {
      hide Fold, OnAdded, OnDone, OnEnd, HearAdded, HearDone, HearEnd, HearArgs, SameKinds, FollowEvent, Source.Calls;
      AtMostOne(t, []);
      if p.ItemAdded? {
        if p.item.Some? { AddedRelated(s, src, t, p.index, p.item.value); }
      } else if p.ArgsPayload? {
        AtMostOne(t, Step(s, p).events);
        ArgsRelated(s, src, t, IndexFor(s, p.index, p.itemId), Step(s, p).events[0]);
      } else if p.ItemDone? {
        if p.item.Some? { DoneRelated(s, src, t, IndexFor(s, p.index, p.itemId), p.item.value); }
      } else {
        EndRelated(s, src, t, p.kind, p.final);
      }
    } else {
      hide Step, Hear, Related;
      PieceRelated(s, src, t, p);
    }
  }

  ghost predicate RelatedRun(acc: Result, src: Source, t0: Track) {
    acc.ok && Related(acc.state, src, Fold(FollowEvent, t0, acc.events))
  }

  lemma {:induction false} RefusedStays(acc: Result, ps: seq<Payload>)
    requires !acc.ok
    ensures Fold(Advance, acc, ps) == acc
    decreases |ps|
  {
    if ps != [] { RefusedStays(acc, ps[1..]); }
  }

  lemma {:induction false} RunRelated(acc: Result, src: Source, t0: Track, ps: seq<Payload>)
    requires RelatedRun(acc, src, t0) && Fold(Advance, acc, ps).ok
    ensures RelatedRun(Fold(Advance, acc, ps), Fold(Hear, src, ps), t0)
    decreases |ps|
  {
    if ps != [] {
      var p := ps[0];
      var next := Advance(acc, p);
      if !next.ok { RefusedStays(next, ps[1..]); }
      StepRelated(acc.state, src, Fold(FollowEvent, t0, acc.events), p);
      FoldConcat(FollowEvent, t0, acc.events, Step(acc.state, p).events);
      hide Related, Step, Hear;
      RunRelated(next, Hear(src, p), t0, ps[1..]);
    }
  }

  lemma SilentIsRelated(target: Target)
    ensures Related(INIT, Silent(target), Track(target, FRESH, SILENCE, false, 0))
  {
    assert Silent(target).Calls() == [];
  }

  lemma RelatedMeans(s: State, src: Source, t: Track)
    requires Related(s, src, t)
    ensures src.fit <==> !t.contract.Violated?
    ensures src.fit ==> t.meaning == Meaning(src.text, src.Calls()) && t.splits == src.splits
  {
  }

  // ---- Results --------------------------------------------------------------------------------------

  /** For every stream decoded without error, the decoder keeps the contract exactly when nothing came
      out of turn; and then its events say, to an encoder for `target`, the text and the calls of the
      upstream, with as many splits as the upstream itself shows. */
  lemma {:induction false} UpstreamExact(target: Target, ps: seq<Payload>, ins: seq<Input>)
    requires Run(ps).ok && Events(ins) == Run(ps).events
    ensures var src, t := Heard(target, ps), Overview(target, ins);
            && (Respects(Events(ins)) <==> src.fit)
            && (src.fit ==> t.meaning == Meaning(src.text, src.Calls()) && t.splits == src.splits)
  {
    var t0 := Track(target, FRESH, SILENCE, false, 0);
    SilentIsRelated(target);
    hide Related, Step, Hear, Advance;
    RunRelated(Result(INIT, [], true), Silent(target), t0, ps);
    FollowEvents(t0, ins);
    FollowReads(t0, ins);
    RelatedMeans(Run(ps).state, Heard(target, ps), Overview(target, ins));
  }

  // ---- Servers that add and finish one item at a time ------------------------------------------------

  /** One item at a time, from added to done, between the created and the final response; a piece goes to
      the open item and suits it; no item goes on after an error. */
  datatype Server = Broken | Serving(started: bool, ended: bool, failed: bool, open: Option<(int, ContentKind)>,
                                     ids: map<string, int>)

  predicate Addresses(v: Server, index: int, itemId: string, kind: ContentKind)
    requires v.Serving?
  {
    v.open.Some? && v.open.value.1 == kind
    && v.open.value.0 == if itemId != "" && itemId in v.ids then v.ids[itemId] else index
  }

  function Serve(v: Server, p: Payload): Server {
    if v.Broken? || (v.failed && !p.ErrorPayload? && !p.OtherPayload? && !p.Empty?) then Broken
    else match p
      case CreatedPayload(_) => v.(started := true)
      case ItemAdded(index, item) =>
        if !v.started || v.ended || v.open.Some? || item.None? then Broken
        else v.(open := Some((index, KindOf(item.value.kind))),
                ids := if item.value.id != "" then v.ids[item.value.id := index] else v.ids)
      case TextPayload(index, itemId, _) => if Addresses(v, index, itemId, KindText) then v else Broken
      case ThoughtPayload(index, itemId, _) => if Addresses(v, index, itemId, KindThinking) then v else Broken
      case ArgsPayload(index, itemId, _) => if Addresses(v, index, itemId, KindToolUse) then v else Broken
      case ItemDone(index, itemId, item) =>
        if item.None? || v.open.None? || !Addresses(v, index, itemId, v.open.value.1) then Broken else v.(open := None)
      case EndPayload(_, _) => if !v.started || v.open.Some? then Broken else v.(ended := true)
      case ErrorPayload(_) => v.(failed := true)
      case _ => v
  }

  const IDLE := Serving(false, false, false, None, map[])

  predicate Grammatical(ps: seq<Payload>) {
    !Fold(Serve, IDLE, ps).Broken?
  }

  ghost predicate Matches(v: Server, src: Source) {
    && v.Serving? && src.fit && src.started == v.started && src.ended == v.ended && src.ids == v.ids
    && src.tool == (if v.open.Some? && v.open.value.1 == KindToolUse then Some(v.open.value.0) else None)
    && (v.open.Some? ==> v.started && v.open.value.0 in src.kinds && src.kinds[v.open.value.0] == v.open.value.1)
    && (src.thinking ==> v.open.Some? && v.open.value.1 == KindThinking)
    && (src.stopped ==> src.ended) && src.splits == 0 && (src.broken ==> v.failed)
    && (src.tool.Some? ==> src.calls != [] && src.calls[|src.calls| - 1].index == src.tool.value)
  }

  lemma ServeMatches(v: Server, src: Source, p: Payload)
    requires Matches(v, src) && !Serve(v, p).Broken?
    ensures Matches(Serve(v, p), Hear(src, p))
  {
    if p.ArgsPayload? {
      assert Position(src.calls, src.Place(p.index, p.itemId)) == |src.calls| - 1;
    }
  }

  lemma {:induction false} BrokenStays(ps: seq<Payload>)
    ensures Fold(Serve, Broken, ps) == Broken
    decreases |ps|
  {
    if ps != [] { BrokenStays(ps[1..]); }
  }

  lemma {:induction false} ServedMatches(v: Server, src: Source, ps: seq<Payload>)
    requires Matches(v, src) && !Fold(Serve, v, ps).Broken?
    ensures Matches(Fold(Serve, v, ps), Fold(Hear, src, ps))
    decreases |ps|
  {
    if ps != [] {
      if Serve(v, ps[0]).Broken? { BrokenStays(ps[1..]); }
      hide Matches, Hear, Serve;
      ServeMatches(v, src, ps[0]);
      ServedMatches(Serve(v, ps[0]), Hear(src, ps[0]), ps[1..]);
    }
  }

  /** A server that follows the grammar never comes out of turn and never splits a call. */
  lemma {:induction false} GrammaticalIsClean(target: Target, ps: seq<Payload>)
    requires Grammatical(ps)
    ensures Heard(target, ps).fit && Heard(target, ps).splits == 0
  {
    ServedMatches(IDLE, Silent(target), ps);
  }

  // ---- Indices --------------------------------------------------------------------------------------

  predicate NonNegativeTools(ps: seq<Payload>) {
    forall p :: p in ps && p.ItemAdded? && p.item.Some? && p.item.value.kind.CallItem? ==> p.index >= 0
  }

  lemma {:induction false} StartsNonNegative(acc: Result, ps: seq<Payload>)
    requires NonNegativeTools(ps) && forall e :: e in acc.events && e.ToolUseStart? ==> e.index >= 0
    ensures forall e :: e in Fold(Advance, acc, ps).events && e.ToolUseStart? ==> e.index >= 0
    decreases |ps|
  {
    if ps != [] {
      var p := ps[0];
      assert p in ps;
      forall e | e in Step(acc.state, p).events && e.ToolUseStart? ensures e.index >= 0 {
        StartedBy(acc.state, p, e);
      }
      hide Step;
      StartsNonNegative(Advance(acc, p), ps[1..]);
    }
  }

  lemma StartedBy(s: State, p: Payload, e: Event)
    requires e in Step(s, p).events && e.ToolUseStart?
    ensures p.ItemAdded? && p.item.Some? && p.item.value.kind.CallItem? && e.index == p.index
  {
  }

  // ---- Examples -------------------------------------------------------------------------------------

  function CallOf(callId: string): WireItem {
    WireItem(CallItem, "", callId, "f", "", "")
  }

  /** Two calls at once are decoded without error and break the contract. */
  lemma OverlappingCallsAreUnfit(target: Target)
    ensures var ps := [CreatedPayload(None), ItemAdded(0, Some(CallOf("a"))), ItemAdded(1, Some(CallOf("b")))];
            Run(ps).ok && !Heard(target, ps).fit
  {
    var x, y, z := CreatedPayload(None), ItemAdded(0, Some(CallOf("a"))), ItemAdded(1, Some(CallOf("b")));
    assert [x, y, z] == [x, y] + [z];
    FoldTwo(Advance, Result(INIT, [], true), x, y);
    FoldSnoc(Advance, Result(INIT, [], true), [x, y], z);
    FoldTwo(Hear, Silent(target), x, y);
    FoldSnoc(Hear, Silent(target), [x, y], z);
  }

  /** Text between the pieces of a call's arguments keeps the contract and splits the call. */
  lemma InterleavedTextSplits(target: Target)
    ensures var ps := [CreatedPayload(None), ItemAdded(0, Some(CallOf("a"))), TextPayload(1, "", "x"),
                       ArgsPayload(0, "", "{}")];
            Run(ps).ok && Heard(target, ps).fit && Heard(target, ps).splits == 1
  {
    var x, y := CreatedPayload(None), ItemAdded(0, Some(CallOf("a")));
    var z, w := TextPayload(1, "", "x"), ArgsPayload(0, "", "{}");
    FoldFour(Advance, Result(INIT, [], true), x, y, z, w);
    FoldFour(Hear, Silent(target), x, y, z, w);
    InterleavedRun(target, x, y, z, w);
    hide Advance, Hear, Fold;
  }

  lemma InterleavedRun(target: Target, x: Payload, y: Payload, z: Payload, w: Payload)
    requires x == CreatedPayload(None) && y == ItemAdded(0, Some(CallOf("a")))
    requires z == TextPayload(1, "", "x") && w == ArgsPayload(0, "", "{}")
    ensures Advance(Advance(Advance(Advance(Result(INIT, [], true), x), y), z), w).ok
    ensures var src := Hear(Hear(Hear(Hear(Silent(target), x), y), z), w); src.fit && src.splits == 1
  {
  }
}
