/** The block grammar an Anthropic client relies on, and exactly which event streams keep it. */
module AnthropicGrammar {
  import opened Folds
  import opened TokenUsage
  import opened Ir
  import opened AnthropicEncoder

  /** What a client has read: how many blocks were started, and which one is still open. Blocks are
      numbered 0, 1, 2, ...; a block is stopped before the next one starts; a delta addresses the
      open block and fits its type; the closing frames find nothing open. */
  datatype Reader = Broken | Reading(next: nat, open: Option<Block>)

  predicate Fits(d: Delta, b: Block) {
    match d
    case TextPart(_) => b.TextBlock?
    case ThinkingPart(_) => b.ThinkingBlock?
    case SignaturePart(_) => b.ThinkingBlock?
    case JsonPart(_) => b.ToolBlock?
  }

  function Read(r: Reader, f: Frame): Reader {
    if r.Broken? then Broken
    else match f
      case StartFrame(_, _, _) => r
      case BlockStart(index, block) =>
        if index == r.next && r.open.None? then Reading(r.next + 1, Some(block)) else Broken
      case BlockDelta(index, delta) =>
        if index == r.next - 1 && r.open.Some? && Fits(delta, r.open.value) then r else Broken
      case BlockStop(index) =>
        if index == r.next - 1 && r.open.Some? then Reading(r.next, None) else Broken
      case MessageDelta(_, _) => if r.open.None? then r else Broken
      case StopFrame => if r.open.None? then r else Broken
      case ErrorFrame(_) => if r.open.None? then r else Broken
  }

  const START := Reading(0, None)

  predicate Grammatical(frames: seq<Frame>) {
    !Fold(Read, START, frames).Broken?
  }

  /** A check on the event stream alone: which source index is the open tool block, which negative
      indices lost their block to another one, and whether such an index was addressed again. */
  datatype Watch = Watch(live: Option<int>, lost: set<int>, misused: bool) {
    function Interrupted(): Watch {
      Watch(None, if live.Some? && live.value < 0 then lost + {live.value} else lost, misused)
    }

    function Started(index: int): Watch {
      Watch(Some(index), Interrupted().lost - {index}, misused)
    }
  }

  function Observe(w: Watch, i: Input): Watch {
    match i.event
    case MessageStart(_, _, _) => w
    case TextDelta(_, _) => w.Interrupted()
    case ThinkingDelta(_, _) => w.Interrupted()
    case ThinkingDone(_, _, _, payload) => if payload.Redacted? then w.Interrupted() else w
    case ToolUseStart(index, _, _) => w.Started(index)
    case ToolInputDelta(index, _, _, _) =>
      if w.live == Some(index) then w
      else if index in w.lost then w.(misused := true)
      else w.Started(index)
    case ToolUseStop(index, _, _) =>
      if w.live == Some(index) then w.(live := None)
      else if index in w.lost then w.(misused := true)
      else w
    case MessageStop(_, _) => w.Interrupted()
    case Error(_) => w.Interrupted()
  }

  const CALM := Watch(None, {}, false)

  predicate AddressesLostTool(ins: seq<Input>) {
    Fold(Observe, CALM, ins).misused
  }

  predicate NonNegativeTools(ins: seq<Input>) {
    forall k :: 0 <= k < |ins| ==> ToolIndexOk(ins[k].event)
  }

  predicate ToolIndexOk(e: Event) {
    e.ToolUseStart? || e.ToolInputDelta? || e.ToolUseStop? ==> e.index >= 0
  }

  // ---- Proof -----------------------------------------------------------------------------

  ghost predicate KindOf(open: Open, b: Option<Block>) {
    match open
    case Nothing => b.None?
    case TextOpen => b == Some(TextBlock)
    case ThinkingOpen => b == Some(ThinkingBlock)
    case ToolOpen(_) => b.Some? && b.value.ToolBlock?
  }

  ghost predicate Related(s: State, r: Reader, w: Watch) {
    if w.misused then r.Broken?
    else
      && r.Reading? && r.next == s.next && KindOf(s.open, r.open)
      && (!s.open.Nothing? ==> s.next > 0)
      && w.live == (if s.open.ToolOpen? then Some(s.open.src) else None)
      && w.lost == s.stale.Keys
      && (s.open.ToolOpen? ==> s.open.src !in s.stale)
      && (forall k :: k in s.stale ==> s.stale[k] < if s.open.Nothing? then s.next else s.next - 1)
  }

  lemma {:induction false} BrokenStays(frames: seq<Frame>)
    ensures Fold(Read, Broken, frames) == Broken
  {
    if frames != [] {
      BrokenStays(frames[1..]);
    }
  }

  lemma ClosePreserves(s: State, r: Reader, w: Watch)
    requires Related(s, r, w) && !w.misused
    ensures Related(Close(s).state, Fold(Read, r, Close(s).frames), w.Interrupted())
    ensures Close(s).state.open.Nothing? && Close(s).state.next == s.next
  {
    if !s.open.Nothing? {
      FoldOne(Read, r, BlockStop(s.next - 1));
    }
  }

  lemma EnsurePreserves(s: State, r: Reader, w: Watch, open: Open, block: Block)
    requires Related(s, r, w) && !w.misused
    requires (open == TextOpen && block == TextBlock) || (open == ThinkingOpen && block == ThinkingBlock)
    ensures Related(Ensure(s, open, block).state, Fold(Read, r, Ensure(s, open, block).frames), w.Interrupted())
    ensures Ensure(s, open, block).state.open == open
  {
    if s.open != open {
      ClosePreserves(s, r, w);
      FoldSnoc(Read, r, Close(s).frames, BlockStart(s.next, block));
    }
  }

  lemma StartToolPreserves(s: State, r: Reader, w: Watch, index: int, callId: string, name: string, token: string)
    requires Related(s, r, w) && !w.misused
    ensures var t := StartTool(s, index, callId, name, token);
            Related(t.state, Fold(Read, r, t.frames), w.Started(index)) && t.state.next == s.next + 1
  {
    ClosePreserves(s, r, w);
    FoldSnoc(Read, r, Close(s).frames,
             BlockStart(s.next, ToolBlock(OrElse(callId, "toolu_" + token), name)));
  }

  lemma ThinkingDonePreserves(s: State, r: Reader, w: Watch, i: Input)
    requires Related(s, r, w) && !w.misused && i.event.ThinkingDone?
    ensures Related(Step(s, i).state, Fold(Read, r, Step(s, i).frames), Observe(w, i))
  {
    var e := i.event;
    ClosePreserves(s, r, w);
    var c := Close(s);
    if e.payload.Redacted? {
      var start, stop := BlockStart(s.next, RedactedBlock(e.payload.data)), BlockStop(s.next);
      FoldConcat(Read, r, c.frames, [start, stop]);
      FoldTwo(Read, Fold(Read, r, c.frames), start, stop);
    } else if e.payload.NoPayload? && s.open.ThinkingOpen? {
      if e.signature != "" {
        var sig := BlockDelta(s.next - 1, SignaturePart(e.signature));
        FoldTwo(Read, r, sig, BlockStop(s.next - 1));
        assert [sig] + c.frames == [sig, BlockStop(s.next - 1)];
        FoldOne(Read, r, BlockStop(s.next - 1));
      } else {
        assert Step(s, i).frames == c.frames;
      }
    }
  }

  lemma ToolEventPreserves(s: State, r: Reader, w: Watch, i: Input)
    requires Related(s, r, w) && !w.misused && (i.event.ToolInputDelta? || i.event.ToolUseStop?)
    ensures Related(Step(s, i).state, Fold(Read, r, Step(s, i).frames), Observe(w, i))
  {
    var e := i.event;
    if s.open == ToolOpen(e.index) || e.index in s.stale {
      FoldOne(Read, r, Step(s, i).frames[0]);
      assert Step(s, i).frames == [Step(s, i).frames[0]];
    } else if e.ToolInputDelta? {
      StartToolPreserves(s, r, w, e.index, e.callId, e.name, i.callToken);
      FoldSnoc(Read, r, StartTool(s, e.index, e.callId, e.name, i.callToken).frames,
               BlockDelta(s.next, JsonPart(e.fragment)));
    }
  }

  lemma DeltaPreserves(s: State, r: Reader, w: Watch, i: Input)
    requires Related(s, r, w) && !w.misused && (i.event.TextDelta? || i.event.ThinkingDelta?)
    ensures Related(Step(s, i).state, Fold(Read, r, Step(s, i).frames), Observe(w, i))
  {
    var open, block, delta := if i.event.TextDelta? then TextOpen else ThinkingOpen,
      if i.event.TextDelta? then TextBlock else ThinkingBlock,
      if i.event.TextDelta? then TextPart(i.event.text) else ThinkingPart(i.event.text);
    EnsurePreserves(s, r, w, open, block);
    var e := Ensure(s, open, block);
    FoldSnoc(Read, r, e.frames, BlockDelta(e.state.next - 1, delta));
  }

  lemma TerminalPreserves(s: State, r: Reader, w: Watch, i: Input)
    requires Related(s, r, w) && !w.misused && i.event.Terminal()
    ensures Related(Step(s, i).state, Fold(Read, r, Step(s, i).frames), Observe(w, i))
  {
    ClosePreserves(s, r, w);
    var closing := Close(s).frames;
    if i.event.MessageStop? {
      var u := if i.event.usage.found then i.event.usage else s.usage0;
      var md := MessageDelta(StopName(i.event.stop), RenderAnthropic(u));
      FoldConcat(Read, r, closing, [md, StopFrame]);
      FoldTwo(Read, Fold(Read, r, closing), md, StopFrame);
    } else {
      FoldSnoc(Read, r, closing, ErrorFrame(i.event.message));
    }
  }

  lemma StepPreserves(s: State, r: Reader, w: Watch, i: Input)
    requires Related(s, r, w)
    ensures Related(Step(s, i).state, Fold(Read, r, Step(s, i).frames), Observe(w, i))
  {
    if w.misused {
      BrokenStays(Step(s, i).frames);
    } else {
      match i.event
      case MessageStart(_, _, _) => FoldOne(Read, r, Step(s, i).frames[0]);
      case TextDelta(_, _) => DeltaPreserves(s, r, w, i);
      case ThinkingDelta(_, _) => DeltaPreserves(s, r, w, i);
      case ThinkingDone(_, _, _, _) => ThinkingDonePreserves(s, r, w, i);
      case ToolUseStart(index, callId, name) => StartToolPreserves(s, r, w, index, callId, name, i.callToken);
      case ToolInputDelta(_, _, _, _) => ToolEventPreserves(s, r, w, i);
      case ToolUseStop(_, _, _) => ToolEventPreserves(s, r, w, i);
      case MessageStop(_, _) => TerminalPreserves(s, r, w, i);
      case Error(_) => TerminalPreserves(s, r, w, i);
    }
  }

  lemma {:induction false} RunPreserves(acc: Result, w: Watch, ins: seq<Input>)
    requires Related(acc.state, Fold(Read, START, acc.frames), w)
    ensures var r := Fold(Advance, acc, ins); Related(r.state, Fold(Read, START, r.frames), Fold(Observe, w, ins))
    decreases |ins|
  {
    if ins != [] {
      StepPreserves(acc.state, Fold(Read, START, acc.frames), w, ins[0]);
      FoldConcat(Read, START, acc.frames, Step(acc.state, ins[0]).frames);
      RunPreserves(Advance(acc, ins[0]), Observe(w, ins[0]), ins[1..]);
    }
  }

  // ---- Results ---------------------------------------------------------------------------

  /** The frames of a run keep the block grammar exactly when no event addresses a negative source
      index whose tool block was already closed by another block. */
  lemma GrammarExact(ins: seq<Input>)
    ensures Grammatical(Run(ins).frames) <==> !AddressesLostTool(ins)
  {
    RunPreserves(Result(INIT, []), CALM, ins);
  }

  lemma {:induction false} NothingLost(w: Watch, ins: seq<Input>)
    requires NonNegativeTools(ins) && !w.misused && w.lost == {} && (w.live.Some? ==> w.live.value >= 0)
    ensures !Fold(Observe, w, ins).misused
    decreases |ins|
  {
    if ins != [] {
      assert ToolIndexOk(ins[0].event);
      NothingLost(Observe(w, ins[0]), ins[1..]);
    }
  }

  /** Every event sequence whose tool indices are not negative is rendered grammatically. */
  lemma GrammarForNonNegativeTools(ins: seq<Input>)
    requires NonNegativeTools(ins)
    ensures Grammatical(Run(ins).frames)
  {
    NothingLost(CALM, ins);
    GrammarExact(ins);
  }

  /** A negative index is not enough to break the grammar, but this stream does: the text closes the
      tool block, and the tool's own stop closes it a second time. */
  lemma NegativeIndexClosesTwice()
    ensures var ins := [Input(ToolUseStart(-1, "c", "f"), "", ""), Input(TextDelta(0, "t"), "", ""),
                       Input(ToolUseStop(-1, "c", "f"), "", "")];
            !Grammatical(Run(ins).frames) && Grammatical(Run(ins[..2]).frames)
  {
    var ins := [Input(ToolUseStart(-1, "c", "f"), "", ""), Input(TextDelta(0, "t"), "", ""),
                Input(ToolUseStop(-1, "c", "f"), "", "")];
    FoldTwo(Observe, CALM, ins[0], ins[1]);
    FoldSnoc(Observe, CALM, [ins[0], ins[1]], ins[2]);
    assert ins == [ins[0], ins[1]] + [ins[2]] && ins[..2] == [ins[0], ins[1]];
    GrammarExact(ins);
    GrammarExact(ins[..2]);
  }

  /** What the encoder object sends for a whole stream, against the grammar. */
  method StreamOut(ins: seq<Input>) returns (frames: seq<Frame>)
    ensures frames == Run(ins).frames
    ensures Grammatical(frames) <==> !AddressesLostTool(ins)
  {
    frames := EncodeAll(ins);
    GrammarExact(ins);
  }
}
