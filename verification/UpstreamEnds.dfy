/** What the three decoders make of the first and the last payloads of a stream: model, stop reason, error
    (internal/protocol/translate, the decoders and the stop-reason maps of response.go). */
module UpstreamEnds {
  import opened Folds
  import opened TokenUsage
  import opened Ir
  import Claude = AnthropicDecoder
  import ClaudeRun = AnthropicUpstream
  import Responses = ResponsesDecoder
  import ResponsesRun = ResponsesUpstream
  import Chat = ChatDecoder

  // ---- Anthropic ------------------------------------------------------------------------------------

  /** The stop reason of the last message_delta that carries a delta; absent if there is none. */
  function LastReason(ps: seq<Claude.Payload>): Option<Option<string>> {
    if ps == [] then None
    else if ps[|ps| - 1].DeltaPayload? && ps[|ps| - 1].reason.Some? then ps[|ps| - 1].reason
    else LastReason(ps[..|ps| - 1])
  }

  function AnthropicStop(reason: Option<Option<string>>): StopReason {
    match reason
    case None => EndTurn
    case Some(None) => OtherStop
    case Some(Some(name)) =>
      if name in ["end_turn", "pause_turn"] then EndTurn
      else if name == "max_tokens" then MaxTokens
      else if name == "tool_use" then ToolUse
      else if name == "stop_sequence" then StopSequence
      else if name == "refusal" then ContentFilter
      else OtherStop
  }

  lemma ReasonStep(s: Claude.State, p: Claude.Payload)
    requires Claude.Step(s, p).ok
    ensures Claude.Step(s, p).state.stop ==
            if p.DeltaPayload? && p.reason.Some? then Some(Claude.StopOf(p.reason.value)) else s.stop
  {
    hide Claude.StopOf;
  }

  lemma {:induction false} ReasonIsKept(ps: seq<Claude.Payload>)
    requires ClaudeRun.Run(ps).ok
    ensures var r := LastReason(ps);
            ClaudeRun.Run(ps).state.stop == if r.None? then None else Some(Claude.StopOf(r.value))
    decreases |ps|
  {
    if ps != [] {
      var n := |ps| - 1;
      var start := Claude.Result(Claude.INIT, [], true);
      FoldSnoc(ClaudeRun.Advance, start, ps[..n], ps[n]);
      assert ps[..n] + [ps[n]] == ps;
      hide Claude.Step, Claude.StopOf, Fold;
      ReasonIsKept(ps[..n]);
      ReasonStep(ClaudeRun.Run(ps[..n]).state, ps[n]);
    }
  }

  /** message_stop gives the reason of the last message_delta. */
  lemma {:induction false} AnthropicStops(ps: seq<Claude.Payload>)
    requires ClaudeRun.Run(ps).ok
    ensures var es := Claude.Step(ClaudeRun.Run(ps).state, Claude.StopPayload).events;
            |es| == 1 && es[0].MessageStop? && es[0].stop == AnthropicStop(LastReason(ps))
  {
    ReasonIsKept(ps);
    hide ClaudeRun.Run;
  }

  /** message_start names the message and the model, and error its cause. */
  lemma AnthropicNames(s: Claude.State, m: Claude.Envelope, cause: string)
    requires !m.usage.Malformed?
    ensures var es := Claude.Step(s, Claude.StartPayload(Some(m))).events;
            |es| == 1 && es[0].MessageStart? && es[0].id == m.id && es[0].model == m.model
    ensures Claude.Step(s, Claude.ErrorPayload(Some(cause))).events == [Error(cause)]
  {
  }

  // ---- Chat -----------------------------------------------------------------------------------------

  function LastFinish(ops: seq<Chat.Op>): Option<string> {
    if ops == [] then None
    else if ops[|ops| - 1].Finish? then Some(ops[|ops| - 1].reason)
    else LastFinish(ops[..|ops| - 1])
  }

  predicate AnyCall(ops: seq<Chat.Op>) {
    exists k :: 0 <= k < |ops| && ops[k].Call?
  }

  /** A "stop" after tool calls counts as a tool stop. */
  function ChatStop(finish: Option<string>, hasTools: bool): StopReason {
    match finish
    case None => if hasTools then ToolUse else OtherStop
    case Some(name) =>
      if name == "stop" then (if hasTools then ToolUse else EndTurn)
      else if name == "length" then MaxTokens
      else if name in ["tool_calls", "function_call"] then ToolUse
      else if name == "content_filter" then ContentFilter
      else OtherStop
  }

  lemma FinishStep(s: Chat.State, op: Chat.Op)
    ensures var t := Chat.Step(s, op).state;
            && t.finish == (if op.Finish? then Some(op.reason) else s.finish)
            && t.hasTools == (s.hasTools || op.Call?)
  {
    hide Chat.FinishReason, Chat.InputOf;
  }

  lemma {:induction false} FinishIsKept(ops: seq<Chat.Op>)
    ensures var r := Chat.RunOps(Chat.Result(Chat.INIT, [], true), ops);
            r.ok ==> r.state.finish == LastFinish(ops) && r.state.hasTools == AnyCall(ops)
    decreases |ops|
  {
    if ops != [] {
      var n := |ops| - 1;
      var start := Chat.Result(Chat.INIT, [], true);
      FinishIsKept(ops[..n]);
      FoldSnoc(Chat.Advance, start, ops[..n], ops[n]);
      assert ops[..n] + [ops[n]] == ops;
      FinishStep(Chat.RunOps(start, ops[..n]).state, ops[n]);
      hide Chat.Step, Fold;
      if AnyCall(ops[..n]) {
        var k :| 0 <= k < n && ops[..n][k].Call?;
        assert ops[k].Call?;
      }
    }
  }

  /** The operation that stops the message gives the last finish reason, and whether tools were called. */
  lemma {:induction false} ChatStops(ops: seq<Chat.Op>, op: Chat.Op, e: Event)
    requires var r := Chat.RunOps(Chat.Result(Chat.INIT, [], true), ops); r.ok && e in Chat.Step(r.state, op).events
    requires e.MessageStop?
    ensures e.stop == ChatStop(LastFinish(ops), AnyCall(ops))
  {
    FinishIsKept(ops);
    StopTold(Chat.RunOps(Chat.Result(Chat.INIT, [], true), ops).state, op, e);
  }

  lemma StopTold(s: Chat.State, op: Chat.Op, e: Event)
    requires e in Chat.Step(s, op).events && e.MessageStop?
    ensures e.stop == ChatStop(s.finish, s.hasTools)
  {
    hide Chat.OnCall;
    if op.Call? {
      CallsDoNotStop(s, op.f);
    }
  }

  lemma CallsDoNotStop(s: Chat.State, f: Chat.Fragment)
    ensures forall e :: e in Chat.OnCall(s, f).events ==> !e.MessageStop?
  {
  }

  /** The first chunk names the message and the model; an error its kind and its message. */
  lemma ChatNames(id: string, model: string, kind: string, message: string)
    ensures Chat.Step(Chat.INIT, Chat.Begin(id, model)).events == [MessageStart(id, model, NO_USAGE)]
    ensures Chat.Ops(Chat.ErrorPayload(kind, message, Absent)) == [Chat.Fail(kind + ": " + message)]
    ensures Chat.Step(Chat.INIT, Chat.Fail(kind + ": " + message)).events == [Error(kind + ": " + message)]
  {
  }

  // ---- Responses ------------------------------------------------------------------------------------

  predicate AnyCallAdded(ps: seq<Responses.Payload>) {
    exists k :: 0 <= k < |ps| && ps[k].ItemAdded? && ps[k].item.Some? && ps[k].item.value.kind.CallItem?
  }

  lemma CallStep(s: Responses.State, p: Responses.Payload)
    ensures Responses.Step(s, p).state.hasTool ==
            (s.hasTool || (p.ItemAdded? && p.item.Some? && p.item.value.kind.CallItem?))
  {
  }

  lemma {:induction false} CallsAreKept(ps: seq<Responses.Payload>)
    requires ResponsesRun.Run(ps).ok
    ensures ResponsesRun.Run(ps).state.hasTool == AnyCallAdded(ps)
    decreases |ps|
  {
    if ps != [] {
      var n := |ps| - 1;
      FoldSnoc(ResponsesRun.Advance, Responses.Result(Responses.INIT, [], true), ps[..n], ps[n]);
      assert ps[..n] + [ps[n]] == ps;
      hide Responses.Step, Fold;
      CallsAreKept(ps[..n]);
      CallStep(ResponsesRun.Run(ps[..n]).state, ps[n]);
      if AnyCallAdded(ps[..n]) {
        var k :| 0 <= k < n && ps[..n][k].ItemAdded? && ps[..n][k].item.Some? && ps[..n][k].item.value.kind.CallItem?;
        assert ps[k] == ps[..n][k];
      }
    }
  }

  function ResponsesStop(final: Option<Responses.WireResponse>, hasTools: bool): StopReason {
    match final
    case None => if hasTools then ToolUse else EndTurn
    case Some(r) =>
      if r.status in ["completed", ""] then (if hasTools then ToolUse else EndTurn)
      else if r.status == "incomplete" && r.incomplete == Some("max_output_tokens") then MaxTokens
      else if r.status == "incomplete" && r.incomplete == Some("content_filter") then ContentFilter
      else OtherStop
  }

  /** The first final response ends the stream: with its error if it failed with one, or with its status. */
  lemma {:induction false} ResponsesStops(ps: seq<Responses.Payload>, kind: Responses.EndType,
                                          final: Option<Responses.WireResponse>)
    requires ResponsesRun.Run(ps).ok && !ResponsesRun.Run(ps).state.stopped
    ensures var es := Responses.Step(ResponsesRun.Run(ps).state, Responses.EndPayload(kind, final)).events;
            && |es| == 1
            && if kind.FailedEnd? && final.Some? && final.value.error.Some? then es[0] == Error(final.value.error.value)
               else es[0].MessageStop? && es[0].stop == ResponsesStop(final, AnyCallAdded(ps))
  {
    CallsAreKept(ps);
    hide ResponsesRun.Run, AnyCallAdded;
  }

  /** response.created names the message and the model, and error its cause. */
  lemma ResponsesNames(s: Responses.State, id: string, model: string, cause: string)
    requires !s.started
    ensures Responses.Step(s, Responses.CreatedPayload(Some((id, model)))).events == [MessageStart(id, model, NO_USAGE)]
    ensures Responses.Step(s, Responses.ErrorPayload(Some(cause))).events == [Error(cause)]
  {
  }

  // ---- Ids and names of Chat calls -------------------------------------------------------------------

  /** The first id that a call's fragments give, and the first name. */
  function FirstId(ops: seq<Chat.Op>, index: int): string {
    if ops == [] then ""
    else
      var before, op := FirstId(ops[..|ops| - 1], index), ops[|ops| - 1];
      if before == "" && op.Call? && op.f.index == index then op.f.id else before
  }

  function FirstName(ops: seq<Chat.Op>, index: int): string {
    if ops == [] then ""
    else
      var before, op := FirstName(ops[..|ops| - 1], index), ops[|ops| - 1];
      if before == "" && op.Call? && op.f.index == index then op.f.name else before
  }

  predicate Unnamed(s: Chat.State, index: int) {
    Chat.Lookup(s.phase, index, Chat.Unseen) == Chat.Unseen ==>
      Chat.Lookup(s.ids, index, "") == "" && Chat.Lookup(s.names, index, "") == ""
  }

  lemma NamesStep(s: Chat.State, op: Chat.Op, index: int)
    requires Unnamed(s, index) && Chat.Step(s, op).ok
    ensures var t := Chat.Step(s, op).state;
            var id, name := Chat.Lookup(s.ids, index, ""), Chat.Lookup(s.names, index, "");
            && Unnamed(t, index)
            && Chat.Lookup(t.ids, index, "") == (if id == "" && op.Call? && op.f.index == index then op.f.id else id)
            && Chat.Lookup(t.names, index, "")
               == (if name == "" && op.Call? && op.f.index == index then op.f.name else name)
  {
    hide Chat.FinishReason, Chat.InputOf;
    if op.Call? { CallNames(s, op.f, index); hide Chat.OnCall; }
  }

  lemma ClosedPhases(s: Chat.State, index: int)
    ensures var t, r := Chat.CloseTool(s).state, Chat.CloseReasoning(s).state;
            && t.ids == s.ids && t.names == s.names && r.ids == s.ids && r.names == s.names && r.phase == s.phase
            && (Chat.Lookup(t.phase, index, Chat.Unseen) == Chat.Unseen ==>
                  Chat.Lookup(s.phase, index, Chat.Unseen) == Chat.Unseen)
  {
  }

  lemma OpenedNames(s: Chat.State, f: Chat.Fragment, index: int)
    ensures var t := Chat.OpenTool(s, f).state;
            && t.ids == s.ids[f.index := f.id] && t.names == s.names[f.index := f.name]
            && (Chat.Lookup(t.phase, index, Chat.Unseen) == Chat.Unseen ==>
                  index != f.index && Chat.Lookup(s.phase, index, Chat.Unseen) == Chat.Unseen)
  {
    forall u: Chat.State ensures
      var r := Chat.CloseReasoning(u).state;
      r.ids == u.ids && r.names == u.names && r.phase == u.phase
    {
      ClosedPhases(u, index);
    }
    ClosedPhases(s, index);
    hide Chat.CloseTool, Chat.CloseReasoning;
  }

  lemma CallNames(s: Chat.State, f: Chat.Fragment, index: int)
    requires Unnamed(s, index) && Chat.OnCall(s, f).ok
    ensures var t := Chat.OnCall(s, f).state;
            var id, name := Chat.Lookup(s.ids, index, ""), Chat.Lookup(s.names, index, "");
            && Unnamed(t, index)
            && Chat.Lookup(t.ids, index, "") == (if id == "" && f.index == index then f.id else id)
            && Chat.Lookup(t.names, index, "") == (if name == "" && f.index == index then f.name else name)
  {
    hide Chat.InputOf, Chat.OpenTool;
    var t := s.(hasTools := true);
    OpenedNames(t, f, index);
  }

  lemma {:induction false} NamesAreKept(ops: seq<Chat.Op>, index: int)
    requires Chat.RunOps(Chat.Result(Chat.INIT, [], true), ops).ok
    ensures var s := Chat.RunOps(Chat.Result(Chat.INIT, [], true), ops).state;
            && Unnamed(s, index)
            && Chat.Lookup(s.ids, index, "") == FirstId(ops, index)
            && Chat.Lookup(s.names, index, "") == FirstName(ops, index)
    decreases |ops|
  {
    if ops != [] {
      var n := |ops| - 1;
      var start := Chat.Result(Chat.INIT, [], true);
      assert ops[..n] + [ops[n]] == ops;
      FoldSnoc(Chat.Advance, start, ops[..n], ops[n]);
      hide Chat.Step, Fold, Unnamed;
      NamesAreKept(ops[..n], index);
      NamesStep(Chat.RunOps(start, ops[..n]).state, ops[n], index);
    }
  }

  /** Arguments are announced with the first id and the first name that any fragment of their call gave so
      far, even if the first fragment had none. */
  lemma {:induction false} ChatCallsAreNamed(ops: seq<Chat.Op>, f: Chat.Fragment)
    requires Chat.RunOps(Chat.Result(Chat.INIT, [], true), ops + [Chat.Call(f)]).ok && f.args != ""
    ensures var es := Chat.Step(Chat.RunOps(Chat.Result(Chat.INIT, [], true), ops).state, Chat.Call(f)).events;
            var all := ops + [Chat.Call(f)];
            && es != []
            && es[|es| - 1] == ToolInputDelta(f.index + 1, FirstId(all, f.index), FirstName(all, f.index), f.args)
  {
    var start := Chat.Result(Chat.INIT, [], true);
    FoldSnoc(Chat.Advance, start, ops, Chat.Call(f));
    NamesAreKept(ops + [Chat.Call(f)], f.index);
    hide Fold, FirstId, FirstName, Chat.Opening;
  }

  // ---- Finished thinking ----------------------------------------------------------------------------

  function ThinkingAt(index: int, p: Claude.Payload): string {
    match p
    case BlockGrew(at, Some(ThinkingPiece(text))) => if at == index then text else ""
    case _ => ""
  }

  function SignatureAt(index: int, p: Claude.Payload): string {
    match p
    case BlockGrew(at, Some(SignaturePiece(text))) => if at == index then text else ""
    case _ => ""
  }

  predicate Leaves(index: int, p: Claude.Payload) {
    !(p.BlockStarted? && p.index == index) && !(p.BlockStopped? && p.index == index)
  }

  lemma SealGrows(s: Claude.State, index: int, p: Claude.Payload)
    requires index in s.blocks && s.blocks[index].kind.KindThinking? && Leaves(index, p)
    ensures var t, b := Claude.Step(s, p).state, s.blocks[index];
            && index in t.blocks && t.blocks[index].kind.KindThinking?
            && t.blocks[index].thinking == b.thinking + ThinkingAt(index, p)
            && t.blocks[index].signature == b.signature + SignatureAt(index, p)
  {
    hide Claude.Merge, Claude.StopOf, Claude.Typed;
    var b := s.blocks[index];
    assert b.thinking + "" == b.thinking && b.signature + "" == b.signature;
  }

  function ThinkingIn(index: int, ps: seq<Claude.Payload>): string {
    FlatMap(p => ThinkingAt(index, p), ps)
  }

  function SignatureIn(index: int, ps: seq<Claude.Payload>): string {
    FlatMap(p => SignatureAt(index, p), ps)
  }

  lemma OneMorePiece(index: int, ps: seq<Claude.Payload>, p: Claude.Payload, text: string, signature: string)
    ensures text + ThinkingIn(index, ps + [p]) == text + ThinkingIn(index, ps) + ThinkingAt(index, p)
    ensures signature + SignatureIn(index, ps + [p]) == signature + SignatureIn(index, ps) + SignatureAt(index, p)
  {
    hide FlatMap, ThinkingAt, SignatureAt;
    FlatMapSnoc(q => ThinkingAt(index, q), ps, p);
    FlatMapSnoc(q => SignatureAt(index, q), ps, p);
  }

  lemma NoPieces(index: int, text: string, signature: string)
    ensures text + ThinkingIn(index, []) == text && signature + SignatureIn(index, []) == signature
  {
  }

  lemma {:induction false} SealsGrow(s: Claude.State, index: int, ps: seq<Claude.Payload>)
    requires index in s.blocks && s.blocks[index].kind.KindThinking?
    requires forall k :: 0 <= k < |ps| ==> Leaves(index, ps[k])
    requires Fold(ClaudeRun.Advance, Claude.Result(s, [], true), ps).ok
    ensures var t, b := Fold(ClaudeRun.Advance, Claude.Result(s, [], true), ps).state, s.blocks[index];
            && index in t.blocks && t.blocks[index].kind.KindThinking?
            && t.blocks[index].thinking == b.thinking + ThinkingIn(index, ps)
            && t.blocks[index].signature == b.signature + SignatureIn(index, ps)
    decreases |ps|
  {
    var start, b := Claude.Result(s, [], true), s.blocks[index];
    hide Claude.Step, Leaves, ThinkingAt, SignatureAt, ThinkingIn, SignatureIn;
    if ps == [] {
      NoPieces(index, b.thinking, b.signature);
    } else {
      var n := |ps| - 1;
      var front, p := ps[..n], ps[n];
      assert ps == front + [p];
      FoldSnoc(ClaudeRun.Advance, start, front, p);
      hide Fold;
      SealsGrow(s, index, front);
      SealGrows(Fold(ClaudeRun.Advance, start, front).state, index, p);
      OneMorePiece(index, front, p, b.thinking, b.signature);
    }
  }

  /** When a thinking block stops, it is sealed with all its text and all its signature, whatever other
      blocks did in between; a redacted block is sealed when it starts. */
  lemma {:induction false} ThinkingIsSealed(s: Claude.State, index: int, text: string, signature: string,
                                            ps: seq<Claude.Payload>)
    requires forall k :: 0 <= k < |ps| ==> Leaves(index, ps[k])
    ensures var begun := Claude.Step(s, Claude.BlockStarted(index, Some(Claude.ThinkingStart(text, signature))));
            var r := Fold(ClaudeRun.Advance, Claude.Result(begun.state, [], true), ps);
            r.ok ==>
              Claude.Step(r.state, Claude.BlockStopped(index)).events
              == [ThinkingDone(index, text + ThinkingIn(index, ps), signature + SignatureIn(index, ps), NoPayload)]
    ensures Claude.Step(s, Claude.BlockStarted(index, Some(Claude.RedactedStart(text)))).events
            == [ThinkingDone(index, "", "", Redacted(text))]
  {
    var begun := Claude.Step(s, Claude.BlockStarted(index, Some(Claude.ThinkingStart(text, signature))));
    if Fold(ClaudeRun.Advance, Claude.Result(begun.state, [], true), ps).ok {
      SealsGrow(begun.state, index, ps);
    }
  }

  lemma ToolStays(s: Claude.State, index: int, p: Claude.Payload)
    requires index in s.blocks && Leaves(index, p)
    ensures var t := Claude.Step(s, p).state;
            && index in t.blocks && t.blocks[index].toolId == s.blocks[index].toolId
            && t.blocks[index].toolName == s.blocks[index].toolName
  {
    hide Claude.Merge, Claude.StopOf, Claude.Typed;
  }

  lemma {:induction false} ToolsStay(s: Claude.State, index: int, ps: seq<Claude.Payload>)
    requires index in s.blocks && forall k :: 0 <= k < |ps| ==> Leaves(index, ps[k])
    ensures var t := Fold(ClaudeRun.Advance, Claude.Result(s, [], true), ps).state;
            && index in t.blocks && t.blocks[index].toolId == s.blocks[index].toolId
            && t.blocks[index].toolName == s.blocks[index].toolName
    decreases |ps|
  {
    if ps != [] {
      var n := |ps| - 1;
      var start := Claude.Result(s, [], true);
      assert ps == ps[..n] + [ps[n]];
      hide Claude.Step, Leaves;
      FoldSnoc(ClaudeRun.Advance, start, ps[..n], ps[n]);
      hide Fold;
      ToolsStay(s, index, ps[..n]);
      ToolStays(Fold(ClaudeRun.Advance, start, ps[..n]).state, index, ps[n]);
    }
  }

  /** Arguments are announced with the id and the name their block was started with, whatever other blocks
      did in between. */
  lemma {:induction false} AnthropicCallsAreNamed(s: Claude.State, index: int, id: string, name: string,
                                                  ps: seq<Claude.Payload>, text: string)
    requires forall k :: 0 <= k < |ps| ==> Leaves(index, ps[k])
    ensures var begun := Claude.Step(s, Claude.BlockStarted(index, Some(Claude.ToolStart(id, name))));
            var t := Fold(ClaudeRun.Advance, Claude.Result(begun.state, [], true), ps).state;
            Claude.Step(t, Claude.BlockGrew(index, Some(Claude.JsonPiece(text)))).events
            == [ToolInputDelta(index, id, name, text)]
  {
    var begun := Claude.Step(s, Claude.BlockStarted(index, Some(Claude.ToolStart(id, name))));
    ToolsStay(begun.state, index, ps);
  }

  predicate AddsElsewhere(index: int, id: string, p: Responses.Payload) {
    p.ItemAdded? && p.item.Some? ==> p.index != index && p.item.value.id != id
  }

  /** Its kind, and its call id and name once they are known. */
  predicate Stays(was: Responses.ItemState, now: Responses.ItemState) {
    && now.kind == was.kind && (was.callId != "" ==> now.callId == was.callId)
    && (was.name != "" ==> now.name == was.name)
  }

  lemma ItemStays(s: Responses.State, index: int, id: string, p: Responses.Payload)
    requires AddsElsewhere(index, id, p)
    ensures var t := Responses.Step(s, p).state;
            && (index in s.items ==> index in t.items && Stays(s.items[index], t.items[index]))
            && (id in s.byId ==> id in t.byId && t.byId[id] == s.byId[id])
  {
  }

  lemma {:induction false} ItemsStay(s: Responses.State, index: int, id: string, ps: seq<Responses.Payload>)
    requires index in s.items && id in s.byId && s.byId[id] == index
    requires forall k :: 0 <= k < |ps| ==> AddsElsewhere(index, id, ps[k])
    ensures var t := Fold(ResponsesRun.Advance, Responses.Result(s, [], true), ps).state;
            && index in t.items && Stays(s.items[index], t.items[index])
            && id in t.byId && t.byId[id] == index
    decreases |ps|
  {
    if ps != [] {
      var n := |ps| - 1;
      var start := Responses.Result(s, [], true);
      assert ps == ps[..n] + [ps[n]];
      hide Responses.Step, AddsElsewhere;
      FoldSnoc(ResponsesRun.Advance, start, ps[..n], ps[n]);
      hide Fold;
      ItemsStay(s, index, id, ps[..n]);
      ItemStays(Fold(ResponsesRun.Advance, start, ps[..n]).state, index, id, ps[n]);
    }
  }

  /** When a reasoning item is done, by its id whatever index it is sent with, it is passed on whole. */
  lemma {:induction false} ReasoningIsPassedOn(s: Responses.State, index: int, added: Responses.WireItem,
                                               ps: seq<Responses.Payload>, anywhere: int, done: Responses.WireItem)
    requires added.kind.ThoughtItem? && done.kind.ThoughtItem? && added.id != ""
    requires forall k :: 0 <= k < |ps| ==> AddsElsewhere(index, added.id, ps[k])
    ensures var begun := Responses.Step(s, Responses.ItemAdded(index, Some(added)));
            var r := Fold(ResponsesRun.Advance, Responses.Result(begun.state, [], true), ps);
            Responses.Step(r.state, Responses.ItemDone(anywhere, added.id, Some(done))).events
            == [ThinkingDone(index, done.summary, "", ReasoningItem(done.raw))]
  {
    var begun := Responses.Step(s, Responses.ItemAdded(index, Some(added)));
    ItemsStay(begun.state, index, added.id, ps);
  }

  /** Arguments find their call by its item id, and are announced with its call id and name. */
  lemma {:induction false} ResponsesCallsAreNamed(s: Responses.State, index: int, added: Responses.WireItem,
                                                  ps: seq<Responses.Payload>, anywhere: int, text: string)
    requires added.kind.CallItem? && added.id != "" && added.callId != "" && added.name != ""
    requires forall k :: 0 <= k < |ps| ==> AddsElsewhere(index, added.id, ps[k])
    ensures var begun := Responses.Step(s, Responses.ItemAdded(index, Some(added)));
            var t := Fold(ResponsesRun.Advance, Responses.Result(begun.state, [], true), ps).state;
            Responses.Step(t, Responses.ArgsPayload(anywhere, added.id, text)).events
            == [ToolInputDelta(index, added.callId, added.name, text)]
  {
    var begun := Responses.Step(s, Responses.ItemAdded(index, Some(added)));
    ItemsStay(begun.state, index, added.id, ps);
  }
}
