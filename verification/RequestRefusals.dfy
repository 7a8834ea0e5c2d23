/** Which requests are refused: exactly when a body can be read, and when what was read can be written. */
module RequestRefusals {
  import opened Folds
  import opened TokenUsage
  import opened RequestIr
  import opened RequestTranslation
  import Gist = RequestGist
  import AG = AnthropicGist
  import A = AnthropicRequest
  import C = ChatRequest
  import R = ResponsesRequest

  lemma {:induction false} CollectOk<X, Y>(f: X -> Result<seq<Y>>, xs: seq<X>)
    ensures Collect(f, xs).Ok? <==> forall x :: x in xs ==> f(x).Ok?
    decreases |xs|
  {
    if xs != [] {
      var n := |xs| - 1;
      CollectOk(f, xs[..n]);
      assert xs == xs[..n] + [xs[n]] && xs[n] in xs;
    }
  }

  // ---- Reading --------------------------------------------------------------------------------------

  predicate KnownBlocks(b: A.Body) {
    b.Blocks? ==> forall x :: x in b.blocks ==> !x.UnknownB?
  }

  predicate ReadableAnthropic(w: A.Wire) {
    && w.model != "" && KnownBlocks(w.system)
    && (forall m :: m in w.messages ==> m.role in {UserR, AssistantR, SystemR} && KnownBlocks(m.content))
    && (w.choice.Some? ==> w.choice.value.kind in {"", "auto", "any", "none", "tool"})
  }

  predicate KnownParts(b: C.Body) {
    b.Parts? ==> forall p :: p in b.parts ==> !p.OtherP?
  }

  /** A tool message is read whatever its parts are. */
  predicate ReadableChat(w: C.Wire) {
    && w.model != ""
    && forall m :: m in w.messages ==>
         m.role == ToolR || (m.role in {SystemR, DeveloperR, UserR, AssistantR} && KnownParts(m.content))
  }

  predicate ReadableItem(i: R.Item) {
    match i
    case MessageItem(role, body) =>
      && role in {SystemR, DeveloperR, UserR, AssistantR}
      && (body.Parts? ==> forall p :: p in body.parts ==> !p.OtherPart?)
    case OtherItem(_) => false
    case _ => true
  }

  predicate ReadableResponses(w: R.Wire) {
    && w.model != "" && w.previousResponseId == ""
    && (w.input.Items? ==> forall i :: i in w.input.items ==> ReadableItem(i))
  }

  predicate Readable(w: Wire) {
    match w
    case AnthropicWire(a) => ReadableAnthropic(a)
    case ChatWire(c) => ReadableChat(c)
    case ResponsesWire(r) => ReadableResponses(r)
  }

  lemma {:induction false} ReadsBlocks(b: A.Body)
    ensures A.ReadBody(b).Ok? <==> KnownBlocks(b)
  {
    if b.Blocks? {
      hide Collect;
      CollectOk(A.ReadBlock, b.blocks);
    }
  }

  lemma {:induction false} ReadsAnthropic(w: A.Wire)
    ensures A.ToIR(w).Ok? <==> ReadableAnthropic(w)
  {
    ReadsBlocks(w.system);
    CollectOk(A.ReadMessage, w.messages);
    forall m: A.Msg
      ensures A.ReadMessage(m).Ok? <==> m.role in {UserR, AssistantR, SystemR} && KnownBlocks(m.content)
    {
      hide A.ReadBody, KnownBlocks;
      ReadsBlocks(m.content);
    }
    hide A.ReadBody, KnownBlocks, A.ReadMessage, Collect;
  }

  lemma {:induction false} ReadsParts(b: C.Body)
    ensures C.ReadBody(b).Ok? <==> KnownParts(b)
  {
    if b.Parts? {
      hide Collect, ImageOf;
      CollectOk(C.ReadPart, b.parts);
    }
  }

  predicate ReadableTurn(m: C.Msg) {
    m.role == ToolR || (m.role in {SystemR, DeveloperR, UserR, AssistantR} && KnownParts(m.content))
  }

  lemma {:induction false} ReadsTurn(m: C.Msg)
    ensures C.ReadMessage(m).Ok? <==> ReadableTurn(m)
    ensures C.Instructs(m) ==> (C.ReadInstructions(m).Ok? <==> ReadableTurn(m))
  {
    hide C.ReadBody, KnownParts, C.ToolText, FlatMap;
    ReadsParts(m.content);
  }

  lemma {:induction false} ReadsChat(w: C.Wire)
    ensures C.ToIR(w).Ok? <==> ReadableChat(w)
  {
    var n := C.Leading(w.messages);
    var lead, rest := w.messages[..n], w.messages[n..];
    C.LeadingExact(w.messages);
    CollectOk(C.ReadInstructions, lead);
    CollectOk(C.ReadMessage, rest);
    assert w.messages == lead + rest;
    forall m: C.Msg
      ensures C.ReadMessage(m).Ok? <==> ReadableTurn(m)
      ensures C.Instructs(m) ==> (C.ReadInstructions(m).Ok? <==> ReadableTurn(m))
    {
      ReadsTurn(m);
    }
    assert ReadableChat(w) <==> w.model != "" && forall m :: m in w.messages ==> ReadableTurn(m);
    hide ReadableTurn, C.ReadMessage, C.ReadInstructions, Collect, C.Leading, C.Instructs;
  }

  lemma {:induction false} ReadsItem(i: R.Item)
    ensures R.ReadItem(i).Ok? <==> ReadableItem(i)
  {
    if i.MessageItem? && i.content.Parts? {
      hide Collect, ImageOf;
      CollectOk(R.ReadPart, i.content.parts);
    }
  }

  lemma {:induction false} ReadsResponses(w: R.Wire)
    ensures R.ToIR(w).Ok? <==> ReadableResponses(w)
  {
    if w.input.Items? {
      CollectOk(R.ReadItem, w.input.items);
      forall i: R.Item ensures R.ReadItem(i).Ok? <==> ReadableItem(i) {
        ReadsItem(i);
      }
      hide R.ReadItem, ReadableItem, Collect, R.Join;
    }
  }

  // ---- Writing --------------------------------------------------------------------------------------

  predicate NoToolBlocks(cs: seq<Content>) {
    forall c :: c in cs ==> !c.ToolUse? && !c.ToolResult?
  }

  /** Anthropic needs a limit, and has no place for tool blocks where the instructions are. */
  predicate WritableAnthropic(r: Request, fallback: int) {
    && ((r.maxTokens.Some? && r.maxTokens.value > 0) || fallback > 0)
    && NoToolBlocks(r.system)
    && forall k :: 0 <= k < Gist.OpeningTurns(r.messages) ==> NoToolBlocks(r.messages[k].content)
  }

  /** Chat has a place for calls only in assistant turns, and none for results in them; a tool turn holds
      results only. System turns are reduced to their words. */
  predicate ChatTakes(m: Message) {
    match m.role
    case System => true
    case User => forall c :: c in m.content ==> !c.ToolUse?
    case Assistant => forall c :: c in m.content ==> !c.ToolResult?
    case Tool => forall c :: c in m.content ==> c.ToolResult?
  }

  predicate Writable(r: Request, to: Protocol, opts: Options) {
    match to
    case Anthropic => WritableAnthropic(r, opts.defaultMaxTokens)
    case OpenAIChat => forall m :: m in r.messages ==> ChatTakes(m)
    case OpenAIResponses => true
  }

  lemma {:induction false} Hoisted(ms: seq<Message>)
    ensures NoToolBlocks(FlatMap(ContentOf, ms)) <==> forall k :: 0 <= k < |ms| ==> NoToolBlocks(ms[k].content)
    decreases |ms|
  {
    if ms != [] {
      var n := |ms| - 1;
      Hoisted(ms[..n]);
      var front, last := FlatMap(ContentOf, ms[..n]), ms[n].content;
      assert FlatMap(ContentOf, ms) == front + last;
      hide FlatMap;
      BothPlain(front, last);
      assert forall k :: 0 <= k < n ==> ms[..n][k] == ms[k];
      hide NoToolBlocks;
    }
  }

  lemma BothPlain(xs: seq<Content>, ys: seq<Content>)
    ensures NoToolBlocks(xs + ys) <==> NoToolBlocks(xs) && NoToolBlocks(ys)
  {
    if NoToolBlocks(xs + ys) {
      assert forall c :: c in xs ==> c in xs + ys;
      assert forall c :: c in ys ==> c in xs + ys;
    }
  }

  lemma {:induction false} BlocksPrint(m: Message)
    ensures A.PrintMessage(m).Ok?
  {
    CollectOk(A.PrintBlock, m.content);
    hide Collect;
  }

  lemma {:induction false} SystemPrints(cs: seq<Content>)
    ensures Collect(A.PrintSystem, cs).Ok? <==> NoToolBlocks(cs)
  {
    CollectOk(A.PrintSystem, cs);
    hide Collect;
  }

  lemma {:induction false} WritesAnthropic(r: Request, model: string, fallback: int)
    ensures A.FromIR(r, model, fallback).Ok? <==> WritableAnthropic(r, fallback)
  {
    var n := A.Leading(r.messages);
    var lead, rest := r.messages[..n], r.messages[n..];
    AG.OpeningIsLeading(r.messages);
    CollectOk(A.PrintMessage, rest);
    forall m: Message ensures A.PrintMessage(m).Ok? {
      BlocksPrint(m);
    }
    SystemPrints(r.system + FlatMap(ContentOf, lead));
    BothPlain(r.system, FlatMap(ContentOf, lead));
    Hoisted(lead);
    assert forall k :: 0 <= k < n ==> lead[k] == r.messages[k];
    hide NoToolBlocks, A.PrintMessage, A.PrintSystem, A.Leading, A.Merge, Collect, FlatMap, Map, Gist.OpeningTurns;
  }

  lemma {:induction false} OnlyResults(cs: seq<Content>)
    ensures Collect(C.PrintResult, FlatMap(C.OnlyResult, cs)).Ok?
  {
    FlatMapAll(C.OnlyResult, (c: Content) => c.ToolResult?, cs);
    CollectOk(C.PrintResult, FlatMap(C.OnlyResult, cs));
    hide Collect, FlatMap;
  }

  lemma {:induction false} WritesTurn(m: Message)
    ensures C.PrintMessage(m).Ok? <==> ChatTakes(m)
  {
    OnlyResults(m.content);
    CollectOk(C.UserPart, m.content);
    CollectOk(C.AssistantPart, m.content);
    CollectOk(C.PrintResult, m.content);
    hide Collect, FlatMap, C.ContentBody, JoinText, ImageUrl, MarkError;
  }

  lemma {:induction false} WritesChat(r: Request, model: string, bedrock: bool)
    ensures C.FromIR(r, model, bedrock).Ok? <==> forall m :: m in r.messages ==> ChatTakes(m)
  {
    CollectOk(C.PrintMessage, r.messages);
    forall m: Message ensures C.PrintMessage(m).Ok? <==> ChatTakes(m) {
      WritesTurn(m);
    }
    hide C.PrintMessage, ChatTakes, Collect, Map, C.SystemMessage;
  }

  /** A request is translated exactly when its body can be read and what is read can be written. */
  lemma {:induction false} TranslatedExactly(w: Wire, to: Protocol, model: string, opts: Options)
    ensures Read(w).Ok? <==> Readable(w)
    ensures Translate(w, to, model, opts).Ok? <==> Readable(w) && Writable(Read(w).value, to, opts)
  {
    hide A.ToIR, C.ToIR, R.ToIR, A.FromIR, C.FromIR, R.FromIR, ChatTakes;
    hide ReadableAnthropic, ReadableChat, ReadableResponses, WritableAnthropic;
    match w {
      case AnthropicWire(a) => ReadsAnthropic(a);
      case ChatWire(c) => ReadsChat(c);
      case ResponsesWire(r) => ReadsResponses(r);
    }
    if Read(w).Ok? {
      var r := Read(w).value;
      WritesAnthropic(r, model, opts.defaultMaxTokens);
      WritesChat(r, model, opts.bedrock);
    }
  }
}
