/** What a Responses client can rebuild from the stream, against what the terminal frame tells it. */
module ResponsesReplay {
  import opened Folds
  import opened TokenUsage
  import opened Ir
  import opened ResponsesEncoder

  /** An item after one streamed piece; a piece of the wrong kind leaves it alone. */
  function Grown(it: Item, b: Body): Item {
    match b
    case TextPiece(_, _, d) => if it.Message? then it.(text := it.text + d) else it
    case SummaryPiece(_, _, d) => if it.Reasoning? then it.(summary := it.summary + d) else it
    case ArgsPiece(_, _, d) => if it.FunctionCall? then it.(args := it.args + d) else it
    case _ => it
  }

  predicate IsPiece(b: Body) {
    b.TextPiece? || b.SummaryPiece? || b.ArgsPiece?
  }

  /** A client that trusts only the added items and the pieces, filed by output index. */
  function Rebuild(items: seq<Item>, b: Body): seq<Item> {
    if b.ItemAdded? && b.at == |items| then items + [b.item]
    else if IsPiece(b) && 0 <= b.at < |items| then items[b.at := Grown(items[b.at], b)]
    else items
  }

  function View(items: seq<Item>): seq<Item> {
    seq(|items|, k requires 0 <= k < |items| => Finished(items[k]))
  }

  /** A strict client: item k is the k-th added, nothing overlaps, every piece addresses the open
      item by index and id, every "done" frame repeats exactly what was streamed, each item is done
      once, and every embedded response object lists the finished items. */
  datatype Reader = Broken | Reading(items: seq<Item>, open: bool) {
    predicate Addresses(at: int, itemId: string)
      requires Reading?
    {
      open && at == |items| - 1 && |items| > 0 && !items[at].Replayed? && items[at].id == itemId
    }
  }

  function Read(r: Reader, b: Body): Reader {
    if r.Broken? then Broken
    else match b
      case Created(response) => if response.output == Done(r) then r else Broken
      case InProgress(response) => if response.output == Done(r) then r else Broken
      case ItemAdded(at, item) => if !r.open && at == |r.items| then Reading(r.items + [item], true) else Broken
      case PartAdded(at, itemId) => if r.Addresses(at, itemId) && r.items[at] == Message(itemId, "") then r else Broken
      case TextPiece(at, itemId, _) =>
        if r.Addresses(at, itemId) && r.items[at].Message? then Reading(Rebuild(r.items, b), true) else Broken
      case SummaryPiece(at, itemId, _) =>
        if r.Addresses(at, itemId) && r.items[at].Reasoning? then Reading(Rebuild(r.items, b), true) else Broken
      case ArgsPiece(at, itemId, _) =>
        if r.Addresses(at, itemId) && r.items[at].FunctionCall? then Reading(Rebuild(r.items, b), true) else Broken
      case TextDone(at, itemId, text) =>
        if r.Addresses(at, itemId) && r.items[at] == Message(itemId, text) then r else Broken
      case PartDone(at, itemId, text) =>
        if r.Addresses(at, itemId) && r.items[at] == Message(itemId, text) then r else Broken
      case ArgsDone(at, itemId, args) =>
        if r.Addresses(at, itemId) && r.items[at].FunctionCall? && Finished(r.items[at]).args == args then r else Broken
      case ItemDone(at, item) =>
        if r.open && at == |r.items| - 1 && |r.items| > 0 && Finished(r.items[at]) == item
        then Reading(r.items[at := item], false) else Broken
      case Final(_, response, _) => if !r.open && response.output == r.items then r else Broken
  }

  function Done(r: Reader): seq<Item>
    requires r.Reading?
  {
    if r.open && |r.items| > 0 then r.items[..|r.items| - 1] else r.items
  }

  const START := Reading([], false)

  predicate Orderly(bodies: seq<Body>) {
    !Fold(Read, START, bodies).Broken?
  }

  // ---- The encoder satisfies the strict client -------------------------------------------

  ghost predicate WellOpen(s: State) {
    s.open.Opened? ==> !s.open.item.Replayed?
  }

  ghost function Expect(s: State): Reader {
    if s.open.Idle? then Reading(s.output, false) else Reading(s.output + [s.open.item], true)
  }

  lemma CloseReads(s: State)
    requires WellOpen(s)
    ensures Fold(Read, Expect(s), Close(s).bodies) == Expect(Close(s).state)
    ensures Close(s).state.open.Idle?
  {
    if s.open.Opened? {
      var r, at, item := Expect(s), |s.output|, Finished(s.open.item);
      assert r.items[at := item] == s.output + [item];
      match item
      case Message(id, text) =>
        FoldTwo(Read, r, TextDone(at, id, text), PartDone(at, id, text));
        FoldSnoc(Read, r, [TextDone(at, id, text), PartDone(at, id, text)], ItemDone(at, item));
        assert Close(s).bodies == [TextDone(at, id, text), PartDone(at, id, text)] + [ItemDone(at, item)];
      case FunctionCall(id, _, _, args) => FoldTwo(Read, r, ArgsDone(at, id, args), ItemDone(at, item));
      case Reasoning(_, _) => FoldOne(Read, r, ItemDone(at, item));
    }
  }

  lemma StartToolReads(s: State, index: int, callId: string, name: string, i: Input)
    requires WellOpen(s)
    ensures var t := StartTool(s, index, callId, name, i); Fold(Read, Expect(s), t.bodies) == Expect(t.state)
  {
    CloseReads(s);
    var c, item := Close(s), StartTool(s, index, callId, name, i).state.open.item;
    FoldSnoc(Read, Expect(s), c.bodies, ItemAdded(|c.state.output|, item));
  }

  lemma TextReads(s: State, i: Input)
    requires WellOpen(s) && i.event.TextDelta?
    ensures Fold(Read, Expect(s), Step(s, i).bodies) == Expect(Step(s, i).state)
  {
    var e, c := EnsureText(s, i), Close(s);
    CloseReads(s);
    if !(s.open.Opened? && s.open.item.Message?) {
      var at, id := |c.state.output|, "msg_" + i.itemToken;
      FoldConcat(Read, Expect(s), c.bodies, [ItemAdded(at, Message(id, "")), PartAdded(at, id)]);
      FoldTwo(Read, Expect(c.state), ItemAdded(at, Message(id, "")), PartAdded(at, id));
    }
    assert Fold(Read, Expect(s), e.bodies) == Expect(e.state);
    PieceReads(e.state, TextPiece(|e.state.output|, e.state.open.item.id, i.event.text));
    FoldSnoc(Read, Expect(s), e.bodies, TextPiece(|e.state.output|, e.state.open.item.id, i.event.text));
  }

  /** One accepted piece rewrites the last item and nothing else. */
  lemma PieceReads(s: State, b: Body)
    requires s.open.Opened? && WellOpen(s) && IsPiece(b)
    requires b.at == |s.output| && b.itemId == s.open.item.id
    requires b.TextPiece? ==> s.open.item.Message?
    requires b.SummaryPiece? ==> s.open.item.Reasoning?
    requires b.ArgsPiece? ==> s.open.item.FunctionCall?
    ensures Read(Expect(s), b) == Reading(s.output + [Grown(s.open.item, b)], true)
  {
    assert Rebuild(Expect(s).items, b) == s.output + [Grown(s.open.item, b)];
  }

  lemma ThinkingReads(s: State, i: Input)
    requires WellOpen(s) && i.event.ThinkingDelta?
    ensures Fold(Read, Expect(s), Step(s, i).bodies) == Expect(Step(s, i).state)
  {
    var e, c := EnsureReasoning(s, i), Close(s);
    CloseReads(s);
    if !(s.open.Opened? && s.open.item.Reasoning?) {
      FoldSnoc(Read, Expect(s), c.bodies, ItemAdded(|c.state.output|, Reasoning("rs_" + i.itemToken, "")));
    }
    var b := SummaryPiece(|e.state.output|, e.state.open.item.id, i.event.text);
    PieceReads(e.state, b);
    FoldSnoc(Read, Expect(s), e.bodies, b);
  }

  lemma ToolInputReads(s: State, i: Input)
    requires WellOpen(s) && i.event.ToolInputDelta?
    ensures Fold(Read, Expect(s), Step(s, i).bodies) == Expect(Step(s, i).state)
  {
    var ev := i.event;
    StartToolReads(s, ev.index, ev.callId, ev.name, i);
    var e := if ToolOpen(s, ev.index) then Result(s, []) else StartTool(s, ev.index, ev.callId, ev.name, i);
    if ev.fragment != "" {
      var b := ArgsPiece(|e.state.output|, e.state.open.item.id, ev.fragment);
      PieceReads(e.state, b);
      FoldSnoc(Read, Expect(s), e.bodies, b);
    }
  }

  lemma StepWellOpen(s: State, i: Input)
    requires WellOpen(s)
    ensures WellOpen(Step(s, i).state)
  {
    hide StatusFor, RenderResponses, Finished;
  }

  lemma StartReads(s: State, i: Input)
    requires WellOpen(s) && i.event.MessageStart?
    ensures Fold(Read, Expect(s), Step(s, i).bodies) == Expect(Step(s, i).state)
  {
    hide Fold;
    var t := Step(s, i).state;
    assert Done(Expect(s)) == s.output;
    FoldTwo(Read, Expect(s), Created(t.Snapshot()), InProgress(t.Snapshot()));
  }

  lemma ThinkingDoneReads(s: State, i: Input)
    requires WellOpen(s) && i.event.ThinkingDone?
    ensures Fold(Read, Expect(s), Step(s, i).bodies) == Expect(Step(s, i).state)
  {
    var c := Close(s);
    CloseReads(s);
    if i.event.payload.ReasoningItem? {
      hide Fold;
      var at, item := |c.state.output|, Replayed(i.event.payload.raw);
      FoldConcat(Read, Expect(s), c.bodies, [ItemAdded(at, item), ItemDone(at, item)]);
      FoldTwo(Read, Expect(c.state), ItemAdded(at, item), ItemDone(at, item));
      assert (c.state.output + [item])[at := item] == c.state.output + [item];
    }
  }

  lemma FinalReads(s: State, i: Input)
    requires WellOpen(s) && (i.event.MessageStop? || i.event.Error?)
    ensures Fold(Read, Expect(s), Step(s, i).bodies) == Expect(Step(s, i).state)
  {
    hide Fold, StatusFor, RenderResponses;
    var c := Close(s);
    CloseReads(s);
    FoldSnoc(Read, Expect(s), c.bodies, Step(s, i).bodies[|c.bodies|]);
  }

  lemma StepReads(s: State, i: Input)
    requires WellOpen(s)
    ensures WellOpen(Step(s, i).state)
    ensures Fold(Read, Expect(s), Step(s, i).bodies) == Expect(Step(s, i).state)
  {
    StepWellOpen(s, i);
    match i.event
    case MessageStart(_, _, _) => StartReads(s, i);
    case TextDelta(_, _) => TextReads(s, i);
    case ThinkingDelta(_, _) => ThinkingReads(s, i);
    case ThinkingDone(_, _, _, _) => ThinkingDoneReads(s, i);
    case ToolUseStart(index, callId, name) => StartToolReads(s, index, callId, name, i);
    case ToolInputDelta(_, _, _, _) => ToolInputReads(s, i);
    case ToolUseStop(_, _, _) => CloseReads(s);
    case MessageStop(_, _) => FinalReads(s, i);
    case Error(_) => FinalReads(s, i);
  }

  lemma {:induction false} RunReads(acc: Result, ins: seq<Input>)
    requires WellOpen(acc.state) && Fold(Read, START, acc.bodies) == Expect(acc.state)
    ensures var r := Fold(Advance, acc, ins); WellOpen(r.state) && Fold(Read, START, r.bodies) == Expect(r.state)
    decreases |ins|
  {
    if ins != [] {
      StepReads(acc.state, ins[0]);
      FoldConcat(Read, START, acc.bodies, Step(acc.state, ins[0]).bodies);
      RunReads(Advance(acc, ins[0]), ins[1..]);
    }
  }

  // ---- What the strict client saw is what the trusting client rebuilds --------------------

  ghost predicate Mirrors(r: Reader, items: seq<Item>) {
    r.Reading? ==>
      && |r.items| == |items| && (r.open ==> |items| > 0)
      && forall k :: 0 <= k < |items| ==>
           r.items[k] == if r.open && k == |items| - 1 then items[k] else Finished(items[k])
  }

  lemma {:induction false} BrokenStays(bodies: seq<Body>)
    ensures Fold(Read, Broken, bodies) == Broken
  {
    if bodies != [] {
      BrokenStays(bodies[1..]);
    }
  }

  lemma {:induction false} FoldMirrors(r: Reader, items: seq<Item>, bodies: seq<Body>)
    requires Mirrors(r, items)
    ensures Mirrors(Fold(Read, r, bodies), Fold(Rebuild, items, bodies))
    decreases |bodies|
  {
    if bodies != [] {
      FoldMirrors(Read(r, bodies[0]), Rebuild(items, bodies[0]), bodies[1..]);
    }
  }

  lemma FinalListsRebuilt(bodies: seq<Body>, p: nat)
    requires Orderly(bodies) && p < |bodies| && bodies[p].Final?
    ensures bodies[p].response.output == View(Fold(Rebuild, [], bodies[..p]))
  {
    var before := Fold(Read, START, bodies[..p]);
    FoldMirrors(START, [], bodies[..p]);
    FoldConcat(Read, START, bodies[..p], bodies[p..]);
    assert bodies == bodies[..p] + bodies[p..];
    if Read(before, bodies[p]).Broken? {
      BrokenStays(bodies[p..][1..]);
    }
  }

  /** For every event sequence the strict client is satisfied, and each terminal frame lists exactly
      the items rebuilt from the pieces streamed before it. */
  lemma StreamAgreesWithSummary(ins: seq<Input>)
    ensures var bodies := Run(ins).bodies;
            && Orderly(bodies)
            && (forall p :: 0 <= p < |bodies| && bodies[p].Final? ==>
                  bodies[p].response.output == View(Fold(Rebuild, [], bodies[..p])))
  {
    var bodies := Run(ins).bodies;
    RunReads(Result(INIT, []), ins);
    forall p | 0 <= p < |bodies| && bodies[p].Final?
      ensures bodies[p].response.output == View(Fold(Rebuild, [], bodies[..p]))
    {
      FinalListsRebuilt(bodies, p);
    }
  }

  /** MessageStop and Error always end in the terminal frame, with nothing left open. */
  lemma TerminalFrameIsLast(ins: seq<Input>, i: Input)
    requires i.event.Terminal()
    ensures var r := Run(ins + [i]);
            |r.bodies| > 0 && r.bodies[|r.bodies| - 1].Final? && r.state.open.Idle?
            && r.bodies[|r.bodies| - 1].response.output == r.state.output
  {
    FoldSnoc(Advance, Result(INIT, []), ins, i);
  }

  function Bodies(frames: seq<Frame>): seq<Body> {
    seq(|frames|, k requires 0 <= k < |frames| => frames[k].body)
  }

  /** What the encoder object sends for a whole stream: frames numbered 0, 1, 2, ..., in good order, and
      each terminal frame summing up exactly what was streamed before it. */
  method StreamOut(ins: seq<Input>) returns (frames: seq<Frame>)
    ensures Bodies(frames) == Run(ins).bodies
    ensures forall p :: 0 <= p < |frames| ==> frames[p].number == p
    ensures Orderly(Bodies(frames))
    ensures forall p :: 0 <= p < |frames| && frames[p].body.Final? ==>
              frames[p].body.response.output == View(Fold(Rebuild, [], Bodies(frames)[..p]))
  {
    frames := EncodeAll(ins);
    StreamAgreesWithSummary(ins);
    assert Bodies(frames) == Run(ins).bodies;
    hide Run, Rebuild, View, Orderly;
    assert forall p :: 0 <= p < |frames| ==> frames[p].body == Bodies(frames)[p];
  }
}
