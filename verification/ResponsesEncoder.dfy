/** IR events to OpenAI Responses SSE frames (internal/protocol/translate/stream_openai_responses.go). */
module ResponsesEncoder {
  import opened Folds
  import opened TokenUsage
  import opened Ir

  /** An output item; `Replayed` is an opaque reasoning item re-emitted verbatim. */
  datatype Item =
    | Message(id: string, text: string)
    | Reasoning(id: string, summary: string)
    | Replayed(raw: string)
    | FunctionCall(id: string, callId: string, name: string, args: string)

  datatype Response = Response(id: string, model: string, output: seq<Item>)

  datatype Status = Completed | Incomplete(reason: string) | Failed(message: string)

  datatype Body =
    | Created(response: Response)
    | InProgress(response: Response)
    | ItemAdded(at: int, item: Item)
    | PartAdded(at: int, itemId: string)
    | TextPiece(at: int, itemId: string, delta: string)
    | SummaryPiece(at: int, itemId: string, delta: string)
    | ArgsPiece(at: int, itemId: string, delta: string)
    | TextDone(at: int, itemId: string, text: string)
    | PartDone(at: int, itemId: string, text: string)
    | ArgsDone(at: int, itemId: string, args: string)
    | ItemDone(at: int, item: Item)
    | Final(status: Status, response: Response, usage: Field<ResponsesUsage>)

  /** A frame carries its sequence_number. */
  datatype Frame = Frame(number: nat, body: Body)

  function StatusFor(s: StopReason): Status {
    match s
    case MaxTokens => Incomplete("max_output_tokens")
    case ContentFilter => Incomplete("content_filter")
    case _ => Completed
  }

  /** A function call without arguments is reported as the empty JSON object. */
  function Finished(it: Item): Item {
    if it.FunctionCall? && it.args == "" then it.(args := "{}") else it
  }

  // ---- Specification ---------------------------------------------------------------------

  datatype Open = Idle | Opened(item: Item, src: int)

  /** The open item's output index is |output|: the position it will take when it is closed. */
  datatype State = State(id: string, model: string, open: Open, output: seq<Item>) {
    function Snapshot(): Response {
      Response(id, model, output)
    }
  }

  datatype Result = Result(state: State, bodies: seq<Body>)

  const INIT := State("", "", Idle, [])

  function Close(s: State): Result {
    if s.open.Idle? then Result(s, [])
    else
      var at, item := |s.output|, Finished(s.open.item);
      Result(s.(open := Idle, output := s.output + [item]),
             match item
             case Message(id, text) => [TextDone(at, id, text), PartDone(at, id, text), ItemDone(at, item)]
             case FunctionCall(id, _, _, args) => [ArgsDone(at, id, args), ItemDone(at, item)]
             case _ => [ItemDone(at, item)])
  }

  function StartTool(s: State, index: int, callId: string, name: string, i: Input): Result {
    var c := Close(s);
    var item := FunctionCall("fc_" + i.itemToken, OrElse(callId, "call_" + i.callToken), name, "");
    Result(c.state.(open := Opened(item, index)), c.bodies + [ItemAdded(|c.state.output|, item)])
  }

  function EnsureText(s: State, i: Input): Result {
    if s.open.Opened? && s.open.item.Message? then Result(s, [])
    else
      var c := Close(s);
      var id := "msg_" + i.itemToken;
      Result(c.state.(open := Opened(Message(id, ""), 0)),
             c.bodies + [ItemAdded(|c.state.output|, Message(id, "")), PartAdded(|c.state.output|, id)])
  }

  function EnsureReasoning(s: State, i: Input): Result {
    if s.open.Opened? && s.open.item.Reasoning? then Result(s, [])
    else
      var c := Close(s);
      var item := Reasoning("rs_" + i.itemToken, "");
      Result(c.state.(open := Opened(item, 0)), c.bodies + [ItemAdded(|c.state.output|, item)])
  }

  predicate ToolOpen(s: State, index: int) {
    s.open.Opened? && s.open.item.FunctionCall? && s.open.src == index
  }

  function Step(s: State, i: Input): Result {
    match i.event
    case MessageStart(id, model, _) =>
      var t := s.(id := OrElse(id, "resp_" + i.itemToken), model := model);
      Result(t, [Created(t.Snapshot()), InProgress(t.Snapshot())])
    case TextDelta(_, text) =>
      var e := EnsureText(s, i);
      var item := e.state.open.item;
      Result(e.state.(open := Opened(item.(text := item.text + text), 0)),
             e.bodies + [TextPiece(|e.state.output|, item.id, text)])
    case ThinkingDelta(_, text) =>
      var e := EnsureReasoning(s, i);
      var item := e.state.open.item;
      Result(e.state.(open := Opened(item.(summary := item.summary + text), 0)),
             e.bodies + [SummaryPiece(|e.state.output|, item.id, text)])
    case ThinkingDone(_, _, _, payload) =>
      var c := Close(s);
      if payload.ReasoningItem? then
        var at, item := |c.state.output|, Replayed(payload.raw);
        Result(c.state.(output := c.state.output + [item]), c.bodies + [ItemAdded(at, item), ItemDone(at, item)])
      else if s.open.Opened? && s.open.item.Reasoning? then c
      else Result(s, [])
    case ToolUseStart(index, callId, name) => StartTool(s, index, callId, name, i)
    case ToolInputDelta(index, callId, name, fragment) =>
      var e := if ToolOpen(s, index) then Result(s, []) else StartTool(s, index, callId, name, i);
      if fragment == "" then e
      else
        var item := e.state.open.item;
        Result(e.state.(open := Opened(item.(args := item.args + fragment), index)),
               e.bodies + [ArgsPiece(|e.state.output|, item.id, fragment)])
    case ToolUseStop(index, _, _) => if ToolOpen(s, index) then Close(s) else Result(s, [])
    case MessageStop(stop, usage) =>
      var c := Close(s);
      Result(c.state, c.bodies + [Final(StatusFor(stop), c.state.Snapshot(), RenderResponses(usage))])
    case Error(message) =>
      var c := Close(s);
      Result(c.state, c.bodies + [Final(Failed(message), c.state.Snapshot(), Absent)])
  }

  /** One more event on top of everything emitted so far. */
  function Advance(acc: Result, i: Input): Result {
    var o := Step(acc.state, i);
    Result(o.state, acc.bodies + o.bodies)
  }

  function Run(ins: seq<Input>): Result {
    Fold(Advance, Result(INIT, []), ins)
  }

  /** Frames are numbered consecutively. */
  function Number(n: nat, bodies: seq<Body>): (fs: seq<Frame>)
    ensures |fs| == |bodies|
  {
    seq(|bodies|, k requires 0 <= k < |bodies| => Frame(n + k, bodies[k]))
  }

  // ---- Implementation --------------------------------------------------------------------

  /** An item under construction; the encoder's map and its `open` field share the object. */
  class OutItem {
    var kind: ContentKind
    var outIdx: nat
    var itemID: string
    var callID: string
    var name: string
    var text: string
    var args: string
    var srcIdx: int

    constructor (kind: ContentKind, outIdx: nat, itemID: string, callID: string, name: string, srcIdx: int)
      ensures this.kind == kind && this.outIdx == outIdx && this.itemID == itemID
      ensures this.callID == callID && this.name == name && this.srcIdx == srcIdx
      ensures text == "" && args == ""
    {
      this.kind, this.outIdx, this.itemID, this.callID := kind, outIdx, itemID, callID;
      this.name, this.srcIdx, this.text, this.args := name, srcIdx, "", "";
    }

    ghost function Value(): Item
      reads this
    {
      match kind
      case KindText => Message(itemID, text)
      case KindThinking => Reasoning(itemID, text)
      case _ => FunctionCall(itemID, callID, name, args)
    }

    ghost predicate Plain()
      reads this
    {
      kind != NoKind && (kind != KindToolUse ==> srcIdx == 0)
    }
  }

  class ResponsesStreamOut {
    var id: string
    var model: string
    var number: nat
    var nextOut: nat
    var open: OutItem?
    var srcToItem: map<int, OutItem>
    var output: seq<Item>

    ghost function Footprint(): set<object>
      reads this
    {
      if open == null then {this} else {this, open}
    }

    ghost predicate Valid()
      reads this, open
    {
      && nextOut == |output| + (if open == null then 0 else 1)
      && (open != null ==> open.Plain() && open.outIdx == |output|)
      && srcToItem == if open != null && open.kind == KindToolUse then map[open.srcIdx := open] else map[]
    }

    ghost function Abs(): State
      reads this, open
    {
      State(id, model, if open == null then Idle else Opened(open.Value(), open.srcIdx), output)
    }

    constructor ()
      ensures Valid() && Abs() == INIT && number == 0 && open == null
    {
      id, model, number, nextOut, open, srcToItem, output := "", "", 0, 0, null, map[], [];
    }

    method Emit(body: Body) returns (f: seq<Frame>)
      modifies this`number
      ensures number == old(number) + 1
      ensures f == Number(old(number), [body])
    {
      f := [Frame(number, body)];
      number := number + 1;
    }

    method CloseTool(it: OutItem) returns (out: seq<Frame>)
      modifies this`number, this`output
      ensures output == old(output) + [Finished(FunctionCall(it.itemID, it.callID, it.name, it.args))]
      ensures var item := Finished(FunctionCall(it.itemID, it.callID, it.name, it.args));
              out == Number(old(number), [ArgsDone(it.outIdx, it.itemID, item.args), ItemDone(it.outIdx, item)])
      ensures number == old(number) + |out|
    {
      var args := it.args;
      if args == "" {
        args := "{}";
      }
      var item := FunctionCall(it.itemID, it.callID, it.name, args);
      output := output + [item];
      out := Emit(ArgsDone(it.outIdx, it.itemID, args));
      var last := Emit(ItemDone(it.outIdx, item));
      out := out + last;
    }

    method CloseOpen() returns (out: seq<Frame>)
      requires Valid()
      modifies this
      ensures Valid() && open == null && number == old(number) + |out|
      ensures var c := Close(old(Abs())); Abs() == c.state && out == Number(old(number), c.bodies)
    {
      if open == null {
        return [];
      }
      var it := open;
      open := null;
      if it.kind == KindText {
        var item := Message(it.itemID, it.text);
        output := output + [item];
        out := Emit(TextDone(it.outIdx, it.itemID, it.text));
        var part := Emit(PartDone(it.outIdx, it.itemID, it.text));
        var done := Emit(ItemDone(it.outIdx, item));
        out := out + part + done;
      } else if it.kind == KindThinking {
        var item := Reasoning(it.itemID, it.text);
        output := output + [item];
        out := Emit(ItemDone(it.outIdx, item));
      } else {
        srcToItem := srcToItem - {it.srcIdx};
        out := CloseTool(it);
      }
    }

    /** Closes what is open and makes a new item the open one. */
    method OpenItem(kind: ContentKind, itemID: string, callID: string, name: string, src: int) returns (out: seq<Frame>)
      requires Valid() && kind != NoKind && (kind != KindToolUse ==> src == 0)
      modifies this
      ensures Valid() && open != null && fresh(open) && open.kind == kind && number == old(number) + |out|
      ensures var c := Close(old(Abs()));
              && Abs() == c.state.(open := Opened(open.Value(), src))
              && out == Number(old(number), c.bodies + [ItemAdded(|c.state.output|, open.Value())])
      ensures open.itemID == itemID && open.callID == callID && open.name == name && open.text == "" && open.args == ""
    {
      out := CloseOpen();
      var it := new OutItem(kind, nextOut, itemID, callID, name, src);
      nextOut := nextOut + 1;
      open := it;
      if kind == KindToolUse {
        srcToItem := srcToItem[src := it];
      }
      var added := Emit(ItemAdded(it.outIdx,
        if kind == KindText then Message(itemID, "") else if kind == KindThinking then Reasoning(itemID, "")
        else FunctionCall(itemID, callID, name, "")));
      out := out + added;
    }

    /** Makes a message the open item, unless one is open already. */
    method NeedText(i: Input) returns (out: seq<Frame>)
      requires Valid()
      modifies this
      ensures Valid() && open != null && open.kind == KindText && number == old(number) + |out|
      ensures open == old(open) || fresh(open)
      ensures var e := EnsureText(old(Abs()), i); Abs() == e.state && out == Number(old(number), e.bodies)
    {
      out := [];
      if open == null || open.kind != KindText {
        out := OpenItem(KindText, "msg_" + i.itemToken, "", "", 0);
        var part := Emit(PartAdded(open.outIdx, open.itemID));
        out := out + part;
      }
    }

    method OnText(i: Input) returns (out: seq<Frame>)
      requires Valid() && i.event.TextDelta?
      modifies Footprint()
      ensures Valid() && number == old(number) + |out| && fresh(Footprint() - old(Footprint()))
      ensures var o := Step(old(Abs()), i); Abs() == o.state && out == Number(old(number), o.bodies)
    {
      out := NeedText(i);
      open.text := open.text + i.event.text;
      var piece := Emit(TextPiece(open.outIdx, open.itemID, i.event.text));
      out := out + piece;
    }

    method OnThinking(i: Input) returns (out: seq<Frame>)
      requires Valid() && i.event.ThinkingDelta?
      modifies Footprint()
      ensures Valid() && number == old(number) + |out| && fresh(Footprint() - old(Footprint()))
      ensures var o := Step(old(Abs()), i); Abs() == o.state && out == Number(old(number), o.bodies)
    {
      out := [];
      if open == null || open.kind != KindThinking {
        out := OpenItem(KindThinking, "rs_" + i.itemToken, "", "", 0);
      }
      open.text := open.text + i.event.text;
      var piece := Emit(SummaryPiece(open.outIdx, open.itemID, i.event.text));
      out := out + piece;
    }

    method OnThinkingDone(i: Input) returns (out: seq<Frame>)
      requires Valid() && i.event.ThinkingDone?
      modifies this
      ensures Valid() && number == old(number) + |out| && Footprint() <= old(Footprint())
      ensures var o := Step(old(Abs()), i); Abs() == o.state && out == Number(old(number), o.bodies)
    {
      out := [];
      if i.event.payload.ReasoningItem? {
        out := CloseOpen();
        var item := Replayed(i.event.payload.raw);
        var idx := nextOut;
        nextOut := nextOut + 1;
        var added := Emit(ItemAdded(idx, item));
        var done := Emit(ItemDone(idx, item));
        output := output + [item];
        out := out + added + done;
      } else if open != null && open.kind == KindThinking {
        out := CloseOpen();
      }
    }

    method OnToolInput(i: Input) returns (out: seq<Frame>)
      requires Valid() && i.event.ToolInputDelta?
      modifies Footprint()
      ensures Valid() && number == old(number) + |out| && fresh(Footprint() - old(Footprint()))
      ensures var o := Step(old(Abs()), i); Abs() == o.state && out == Number(old(number), o.bodies)
    {
      var e := i.event;
      out := [];
      if e.index !in srcToItem {
        out := OpenItem(KindToolUse, "fc_" + i.itemToken, OrElse(e.callId, "call_" + i.callToken), e.name, e.index);
      }
      var it := srcToItem[e.index];
      if e.fragment == "" {
        return;
      }
      it.args := it.args + e.fragment;
      var piece := Emit(ArgsPiece(it.outIdx, it.itemID, e.fragment));
      out := out + piece;
    }

    method OnToolStop(i: Input) returns (out: seq<Frame>)
      requires Valid() && i.event.ToolUseStop?
      modifies this
      ensures Valid() && number == old(number) + |out| && Footprint() <= old(Footprint())
      ensures var o := Step(old(Abs()), i); Abs() == o.state && out == Number(old(number), o.bodies)
    {
      var index := i.event.index;
      if index !in srcToItem {
        return [];
      }
      var it := srcToItem[index];
      srcToItem := srcToItem - {index};
      if open == it {
        open := null;
      }
      out := CloseTool(it);
    }

    method OnStart(i: Input) returns (out: seq<Frame>)
      requires Valid() && i.event.MessageStart?
      modifies this
      ensures Valid() && number == old(number) + |out| && open == old(open)
      ensures var o := Step(old(Abs()), i); Abs() == o.state && out == Number(old(number), o.bodies)
    {
      id, model := if i.event.id == "" then "resp_" + i.itemToken else i.event.id, i.event.model;
      out := Emit(Created(Response(id, model, output)));
      var progress := Emit(InProgress(Response(id, model, output)));
      out := out + progress;
    }

    method OnTerminal(i: Input) returns (out: seq<Frame>)
      requires Valid() && i.event.Terminal()
      modifies this
      ensures Valid() && number == old(number) + |out| && open == null
      ensures var o := Step(old(Abs()), i); Abs() == o.state && out == Number(old(number), o.bodies)
    {
      out := CloseOpen();
      var status := if i.event.MessageStop? then StatusFor(i.event.stop) else Failed(i.event.message);
      var usage := if i.event.MessageStop? then RenderResponses(i.event.usage) else Absent;
      var last := Emit(Final(status, Response(id, model, output), usage));
      out := out + last;
    }

    method FromIR(i: Input) returns (out: seq<Frame>)
      requires Valid()
      modifies Footprint()
      ensures Valid() && number == old(number) + |out| && fresh(Footprint() - old(Footprint()))
      ensures var o := Step(old(Abs()), i); Abs() == o.state && out == Number(old(number), o.bodies)
    {
      match i.event {
        case MessageStart(_, _, _) => out := OnStart(i);
        case TextDelta(_, _) => out := OnText(i);
        case ThinkingDelta(_, _) => out := OnThinking(i);
        case ThinkingDone(_, _, _, _) => out := OnThinkingDone(i);
        case ToolUseStart(index, callId, name) =>
          out := OpenItem(KindToolUse, "fc_" + i.itemToken, OrElse(callId, "call_" + i.callToken), name, index);
        case ToolInputDelta(_, _, _, _) => out := OnToolInput(i);
        case ToolUseStop(_, _, _) => out := OnToolStop(i);
        case MessageStop(_, _) => out := OnTerminal(i);
        case Error(_) => out := OnTerminal(i);
      }
    }
  }

  /** A whole stream through one fresh encoder: its frames are numbered 0, 1, 2, ... from the first to
      the last. */
  method EncodeAll(ins: seq<Input>) returns (frames: seq<Frame>)
    ensures |frames| == |Run(ins).bodies|
    ensures forall p :: 0 <= p < |frames| ==> frames[p].number == p && frames[p].body == Run(ins).bodies[p]
  {
    hide Step;
    var encoder := new ResponsesStreamOut();
    frames := [];
    for k := 0 to |ins|
      invariant encoder.Valid() && fresh(encoder) && (encoder.open != null ==> fresh(encoder.open))
      invariant encoder.Abs() == Run(ins[..k]).state && encoder.number == |frames|
      invariant frames == Number(0, Run(ins[..k]).bodies)
    {
      FoldSnoc(Advance, Result(INIT, []), ins[..k], ins[k]);
      assert ins[..k] + [ins[k]] == ins[..k + 1];
      var more := encoder.FromIR(ins[k]);
      frames := frames + more;
    }
    assert ins[..|ins|] == ins;
  }
}
