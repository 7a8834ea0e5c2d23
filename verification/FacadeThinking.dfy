/** The reasoning a client is shown, against the reasoning its provider streams. */
module FacadeThinking {
  import opened Folds
  import opened TokenUsage
  import opened Ir
  import opened Facade
  import opened StreamMeaning
  import opened FacadeMeaning

  function EventThought(e: Event): string {
    if e.ThinkingDelta? then e.text else ""
  }

  function AnthropicThought(f: AnthropicOut.Frame): string {
    if f.BlockDelta? && f.delta.ThinkingPart? then f.delta.text else ""
  }

  function ChatThought(f: ChatOut.Frame): string {
    if f.ReasoningChunk? then f.text else ""
  }

  function ResponsesThought(b: ResponsesOut.Body): string {
    if b.SummaryPiece? then b.delta else ""
  }

  /** All reasoning among a client's frames. */
  function Shown(client: Protocol, sent: seq<Frame>): string {
    match client
    case Anthropic => FlatMap(AnthropicThought, OnlyAnthropic(sent))
    case OpenAIChat => FlatMap(ChatThought, OnlyChat(sent))
    case OpenAIResponses => FlatMap(ResponsesThought, OnlyResponses(sent))
  }

  // ---- Encoders -------------------------------------------------------------------------------------

  lemma AnthropicStepIsSilent(s: AnthropicOut.State, i: Input)
    requires !i.event.ThinkingDelta?
    ensures FlatMap(AnthropicThought, AnthropicOut.Step(s, i).frames) == ""
  {
    hide FlatMap;
    var frames := AnthropicOut.Step(s, i).frames;
    assert forall f :: f in frames ==> AnthropicThought(f) == "";
    FlatMapNothing(AnthropicThought, frames);
  }

  lemma AnthropicStepShows(s: AnthropicOut.State, i: Input)
    ensures FlatMap(AnthropicThought, AnthropicOut.Step(s, i).frames) == EventThought(i.event)
  {
    hide FlatMap;
    if i.event.ThinkingDelta? {
      var e := AnthropicOut.Ensure(s, AnthropicOut.ThinkingOpen, AnthropicOut.ThinkingBlock);
      assert forall f :: f in e.frames ==> AnthropicThought(f) == "";
      FlatMapNothing(AnthropicThought, e.frames);
      FlatMapSnoc(AnthropicThought, e.frames,
                  AnthropicOut.BlockDelta(e.state.next - 1, AnthropicOut.ThinkingPart(i.event.text)));
    } else {
      AnthropicStepIsSilent(s, i);
    }
  }

  lemma ChatStepShows(s: ChatOut.State, i: Input)
    ensures FlatMap(ChatThought, ChatOut.Step(s, i).frames) == EventThought(i.event)
  {
    hide FlatMap;
    var frames := ChatOut.Step(s, i).frames;
    if i.event.ThinkingDelta? && i.event.text != "" {
      FlatMapOne(ChatThought, ChatOut.ReasoningChunk(i.event.text));
    } else {
      assert forall f :: f in frames ==> ChatThought(f) == "";
      FlatMapNothing(ChatThought, frames);
    }
  }

  predicate Quiet(bodies: seq<ResponsesOut.Body>) {
    forall k :: 0 <= k < |bodies| ==> !bodies[k].SummaryPiece?
  }

  lemma ClosingIsQuiet(s: ResponsesOut.State)
    ensures Quiet(ResponsesOut.Close(s).bodies)
  {
  }

  lemma ResponsesStepIsQuiet(s: ResponsesOut.State, i: Input)
    ensures !i.event.ThinkingDelta? ==> Quiet(ResponsesOut.Step(s, i).bodies)
    ensures Quiet(ResponsesOut.EnsureReasoning(s, i).bodies)
  {
    ClosingIsQuiet(s);
    hide ResponsesOut.Close;
  }

  lemma ResponsesStepShows(s: ResponsesOut.State, i: Input)
    ensures FlatMap(ResponsesThought, ResponsesOut.Step(s, i).bodies) == EventThought(i.event)
  {
    ResponsesStepIsQuiet(s, i);
    var bodies := ResponsesOut.Step(s, i).bodies;
    if i.event.ThinkingDelta? {
      var e := ResponsesOut.EnsureReasoning(s, i);
      var piece := ResponsesOut.SummaryPiece(|e.state.output|, e.state.open.item.id, i.event.text);
      assert bodies == e.bodies + [piece];
      hide FlatMap, ResponsesOut.EnsureReasoning, ResponsesOut.Step;
      FlatMapNothing(ResponsesThought, e.bodies);
      FlatMapSnoc(ResponsesThought, e.bodies, piece);
    } else {
      hide FlatMap, ResponsesOut.Step;
      FlatMapNothing(ResponsesThought, bodies);
    }
  }

  /** What an encoder shows of a stream of any shape. */
  lemma {:induction false} RunsShow(ins: seq<Input>)
    ensures FlatMap(AnthropicThought, AnthropicOut.Run(ins).frames) == FlatMap(EventThought, Events(ins))
    ensures FlatMap(ChatThought, ChatOut.Run(ins).frames) == FlatMap(EventThought, Events(ins))
    ensures FlatMap(ResponsesThought, ResponsesOut.Run(ins).bodies) == FlatMap(EventThought, Events(ins))
    decreases |ins|
  {
    hide FlatMap, AnthropicOut.Step, ChatOut.Step, ResponsesOut.Step;
    FlatMapNothing(AnthropicThought, []);
    FlatMapNothing(ChatThought, []);
    FlatMapNothing(ResponsesThought, []);
    FlatMapNothing(EventThought, []);
    if ins != [] {
      var n := |ins| - 1;
      var front, i := ins[..n], ins[n];
      RunsShow(front);
      assert ins == front + [i] && Events(ins) == Events(front) + [i.event];
      FlatMapSnoc(EventThought, Events(front), i.event);
      FoldSnoc(AnthropicOut.Advance, AnthropicOut.Result(AnthropicOut.INIT, []), front, i);
      FoldSnoc(ChatOut.Advance, ChatOut.Result(ChatOut.INIT, []), front, i);
      FoldSnoc(ResponsesOut.Advance, ResponsesOut.Result(ResponsesOut.INIT, []), front, i);
      var a, c, r := AnthropicOut.Run(front), ChatOut.Run(front), ResponsesOut.Run(front);
      hide Fold, EventThought, AnthropicThought, ChatThought, ResponsesThought;
      FlatMapConcat(AnthropicThought, a.frames, AnthropicOut.Step(a.state, i).frames);
      FlatMapConcat(ChatThought, c.frames, ChatOut.Step(c.state, i).frames);
      FlatMapConcat(ResponsesThought, r.bodies, ResponsesOut.Step(r.state, i).bodies);
      AnthropicStepShows(a.state, i);
      ChatStepShows(c.state, i);
      ResponsesStepShows(r.state, i);
    }
  }

  // ---- Decoders -------------------------------------------------------------------------------------

  function ChoiceThought(c: ChatIn.Choice): string {
    if c.index == 0 then c.reasoning else ""
  }

  /** The reasoning in a provider's payload. */
  function PayloadThought(provider: Protocol, raw: Raw): string {
    match provider
    case Anthropic =>
      (match raw.anthropic
       case BlockGrew(_, Some(ThinkingPiece(text))) => text
       case _ => "")
    case OpenAIResponses =>
      (match raw.responses
       case ThoughtPayload(_, _, delta) => delta
       case _ => "")
    case OpenAIChat =>
      (match raw.chat
       case Chunk(_, _, choices, _) => FlatMap(ChoiceThought, choices)
       case _ => "")
  }

  lemma AnthropicDecodesThought(s: AnthropicIn.State, raw: Raw)
    requires AnthropicIn.Step(s, raw.anthropic).ok
    ensures FlatMap(EventThought, AnthropicIn.Step(s, raw.anthropic).events) == PayloadThought(Anthropic, raw)
  {
    hide FlatMap;
    var es := AnthropicIn.Step(s, raw.anthropic).events;
    if es == [] { FlatMapNothing(EventThought, es); } else { FlatMapOne(EventThought, es[0]); assert es == [es[0]]; }
  }

  lemma ResponsesDecodesThought(s: ResponsesIn.State, raw: Raw)
    requires ResponsesIn.Step(s, raw.responses).ok
    ensures FlatMap(EventThought, ResponsesIn.Step(s, raw.responses).events) == PayloadThought(OpenAIResponses, raw)
  {
    hide FlatMap;
    var es := ResponsesIn.Step(s, raw.responses).events;
    if es == [] { FlatMapNothing(EventThought, es); } else { FlatMapOne(EventThought, es[0]); assert es == [es[0]]; }
  }

  function OpThought(op: ChatIn.Op): string {
    if op.Reason? then op.text else ""
  }

  predicate Silent(es: seq<Event>) {
    forall k :: 0 <= k < |es| ==> !es[k].ThinkingDelta?
  }

  lemma SilentSaysNothing(es: seq<Event>)
    requires Silent(es)
    ensures FlatMap(EventThought, es) == ""
  {
    FlatMapNothing(EventThought, es);
  }

  lemma ClosingIsSilent(s: ChatIn.State)
    ensures Silent(ChatIn.CloseTool(s).events) && Silent(ChatIn.CloseReasoning(s).events)
  {
  }

  lemma CallIsSilent(s: ChatIn.State, f: ChatIn.Fragment)
    ensures Silent(ChatIn.OnCall(s, f).events)
  {
    var t := s.(hasTools := true);
    ClosingIsSilent(t);
    forall u: ChatIn.State ensures Silent(ChatIn.CloseReasoning(u).events) {
      ClosingIsSilent(u);
    }
    hide ChatIn.CloseTool, ChatIn.CloseReasoning;
  }

  lemma OpDecodesThought(s: ChatIn.State, op: ChatIn.Op)
    requires ChatIn.Step(s, op).ok
    ensures FlatMap(EventThought, ChatIn.Step(s, op).events) == OpThought(op)
  {
    hide FlatMap;
    if op.Reason? {
      FlatMapOne(EventThought, ThinkingDelta(-1, op.text));
    } else {
      OpIsSilent(s, op);
      SilentSaysNothing(ChatIn.Step(s, op).events);
    }
  }

  lemma OpIsSilent(s: ChatIn.State, op: ChatIn.Op)
    requires !op.Reason?
    ensures Silent(ChatIn.Step(s, op).events)
  {
    forall u: ChatIn.State
      ensures Silent(ChatIn.CloseTool(u).events) && Silent(ChatIn.CloseReasoning(u).events)
    {
      ClosingIsSilent(u);
    }
    hide ChatIn.CloseTool, ChatIn.CloseReasoning, ChatIn.OnCall;
    if op.Call? { CallIsSilent(s, op.f); }
  }

  lemma OneMoreOp(acc: ChatIn.Result, front: seq<ChatIn.Op>, op: ChatIn.Op)
    requires acc.ok && ChatIn.RunOps(acc, front + [op]).ok
    ensures var r := ChatIn.RunOps(acc, front);
            && r.ok && ChatIn.Step(r.state, op).ok
            && ChatIn.RunOps(acc, front + [op]).events == r.events + ChatIn.Step(r.state, op).events
  {
    hide ChatIn.Step;
    FoldSnoc(ChatIn.Advance, acc, front, op);
  }

  lemma NoOps(acc: ChatIn.Result)
    ensures ChatIn.RunOps(acc, []) == acc
    ensures FlatMap(EventThought, acc.events) + "" == FlatMap(EventThought, acc.events)
  {
  }

  lemma InThree(a: string, b: string, c: string)
    ensures a + b + c == a + (b + c)
  {
  }

  lemma {:induction false} OpsDecodeThought(acc: ChatIn.Result, ops: seq<ChatIn.Op>)
    requires acc.ok && ChatIn.RunOps(acc, ops).ok
    ensures FlatMap(EventThought, ChatIn.RunOps(acc, ops).events)
            == FlatMap(EventThought, acc.events) + FlatMap(OpThought, ops)
    decreases |ops|
  {
    hide FlatMap, ChatIn.Step, ChatIn.RunOps, OpThought, EventThought;
    if ops == [] {
      NoOps(acc);
      FlatMapNothing(OpThought, ops);
    } else {
      var n := |ops| - 1;
      var front, op := ops[..n], ops[n];
      assert ops == front + [op];
      OneMoreOp(acc, front, op);
      var r := ChatIn.RunOps(acc, front);
      OpsDecodeThought(acc, front);
      OpDecodesThought(r.state, op);
      FlatMapConcat(EventThought, r.events, ChatIn.Step(r.state, op).events);
      FlatMapSnoc(OpThought, front, op);
      InThree(FlatMap(EventThought, acc.events), FlatMap(OpThought, front), OpThought(op));
    }
  }

  lemma ChoiceOpsThought(c: ChatIn.Choice)
    ensures FlatMap(OpThought, ChatIn.ChoiceOps(c)) == ChoiceThought(c)
  {
    hide FlatMap;
    if c.index != 0 {
      FlatMapNothing(OpThought, []);
    } else {
      var first := if c.reasoning != "" then [ChatIn.Reason(c.reasoning)] else [];
      var content := if c.content != "" then [ChatIn.Content(c.content)] else [];
      var finish := if c.finish != "" then [ChatIn.Finish(c.finish)] else [];
      var rest := content + ChatIn.CallOps(c.toolCalls) + finish;
      assert ChatIn.ChoiceOps(c) == first + rest;
      FlatMapConcat(OpThought, first, rest);
      assert forall op :: op in rest ==> OpThought(op) == "";
      FlatMapNothing(OpThought, rest);
      if first == [] { FlatMapNothing(OpThought, []); } else { FlatMapOne(OpThought, first[0]); }
      assert c.reasoning + "" == c.reasoning;
    }
  }

  lemma {:induction false} ChoicesOpsThought(cs: seq<ChatIn.Choice>)
    ensures FlatMap(OpThought, ChatIn.ChoicesOps(cs)) == FlatMap(ChoiceThought, cs)
    decreases |cs|
  {
    if cs != [] {
      var n := |cs| - 1;
      ChoicesOpsThought(cs[..n]);
      ChoiceOpsThought(cs[n]);
      FlatMapConcat(OpThought, ChatIn.ChoicesOps(cs[..n]), ChatIn.ChoiceOps(cs[n]));
    }
  }

  lemma PayloadOpsThought(raw: Raw)
    ensures FlatMap(OpThought, ChatIn.Ops(raw.chat)) == PayloadThought(OpenAIChat, raw)
  {
    var p := raw.chat;
    if p.Chunk? {
      var head, said := ChatIn.HeadOps(p.id, p.model, p.usage), ChatIn.ChoicesOps(p.choices);
      var tail := if p.usage.Absent? then [] else [ChatIn.StopIfFinished];
      assert ChatIn.Ops(p) == head + said + tail;
      hide FlatMap, ChatIn.ChoicesOps;
      ChoicesOpsThought(p.choices);
      FlatMapNothing(OpThought, head);
      FlatMapNothing(OpThought, tail);
      FlatMapConcat(OpThought, head, said);
      FlatMapConcat(OpThought, head + said, tail);
      assert "" + FlatMap(OpThought, said) + "" == FlatMap(OpThought, said);
    } else {
      hide FlatMap;
      FlatMapNothing(OpThought, ChatIn.Ops(p));
    }
  }

  lemma {:induction false} ChatDecodesThought(s: ChatIn.State, raw: Raw)
    requires Decode(FromChat(s), raw).ok
    ensures FlatMap(EventThought, Decode(FromChat(s), raw).events) == PayloadThought(OpenAIChat, raw)
  {
    hide FlatMap, ChatIn.Ops, ChatIn.RunOps, PayloadThought;
    OpsDecodeThought(ChatIn.Result(s, [], true), ChatIn.Ops(raw.chat));
    FlatMapNothing(EventThought, []);
    PayloadOpsThought(raw);
    assert "" + PayloadThought(OpenAIChat, raw) == PayloadThought(OpenAIChat, raw);
  }

  predicate Speaks(d: Decoder, provider: Protocol) {
    match provider
    case OpenAIChat => d.FromChat?
    case OpenAIResponses => d.FromResponses?
    case Anthropic => d.FromAnthropic?
  }

  lemma {:induction false} DecodesThought(d: Decoder, provider: Protocol, raw: Raw)
    requires Speaks(d, provider) && Decode(d, raw).ok
    ensures FlatMap(EventThought, Decode(d, raw).events) == PayloadThought(provider, raw)
    ensures Speaks(Decode(d, raw).state, provider)
  {
    hide FlatMap, PayloadThought, EventThought, AnthropicIn.Step, ResponsesIn.Step, ChatIn.RunOps;
    match provider {
      case Anthropic => AnthropicDecodesThought(d.a, raw);
      case OpenAIResponses => ResponsesDecodesThought(d.r, raw);
      case OpenAIChat => ChatDecodesThought(d.c, raw);
    }
  }

  lemma {:induction false} AllDecodeThought(provider: Protocol, raws: seq<Raw>)
    requires DecodeAll(provider, raws).ok
    ensures FlatMap(EventThought, DecodeAll(provider, raws).events)
            == FlatMap(raw => PayloadThought(provider, raw), raws)
    ensures Speaks(DecodeAll(provider, raws).state, provider)
    decreases |raws|
  {
    var start := Decoded(NewDecoder(provider), [], true);
    if raws != [] {
      var n := |raws| - 1;
      var front, raw := raws[..n], raws[n];
      assert raws == front + [raw];
      FoldSnoc(More, start, front, raw);
      hide FlatMap, Decode, PayloadThought, EventThought, Fold;
      var d := DecodeAll(provider, front);
      AllDecodeThought(provider, front);
      DecodesThought(d.state, provider, raw);
      FlatMapConcat(EventThought, d.events, Decode(d.state, raw).events);
      FlatMapSnoc(raw => PayloadThought(provider, raw), front, raw);
    }
  }

  /** In every direction: of the payloads that a session takes, the client is shown all reasoning text, in
      order, and nothing else. */
  lemma {:induction false} ReasoningIsShown(client: Protocol, provider: Protocol, acts: seq<Action>)
    requires AllFeeds(acts) && DecodeAll(provider, TakenPayloads(client, provider, acts)).ok
    ensures Shown(client, Fold(Act, Fresh(client, provider), acts).sent)
            == FlatMap(raw => PayloadThought(provider, raw), TakenPayloads(client, provider, acts))
  {
    hide Act, Passed, TakenPayloads, DecodeAll, HeardBy, FlatMap, Fresh, LastOnly, Ended;
    hide OnlyAnthropic, OnlyChat, OnlyResponses, AnthropicOut.Run, ChatOut.Run, ResponsesOut.Run, PayloadThought;
    FedStream(client, provider, acts);
    SentToClient(client, provider, acts);
    RunsShow(Passed(Fresh(client, provider), acts));
    AllDecodeThought(provider, TakenPayloads(client, provider, acts));
  }
}
