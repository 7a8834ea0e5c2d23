/** One request from protocol to protocol (`Translator.Request`, internal/protocol/translate/translate.go). */
module RequestTranslation {
  import opened Folds
  import opened TokenUsage
  import opened RequestIr
  import opened RequestGist
  import A = AnthropicRequest
  import C = ChatRequest
  import R = ResponsesRequest
  import AG = AnthropicGist
  import CG = ChatGist
  import RG = ResponsesGist

  datatype Wire = AnthropicWire(a: A.Wire) | ChatWire(c: C.Wire) | ResponsesWire(r: R.Wire)

  datatype Options = Options(defaultMaxTokens: int, bedrock: bool)

  function Read(w: Wire): Result<Request> {
    match w
    case AnthropicWire(a) => A.ToIR(a)
    case ChatWire(c) => C.ToIR(c)
    case ResponsesWire(r) => R.ToIR(r)
  }

  function Print(r: Request, to: Protocol, model: string, opts: Options): Result<Wire> {
    match to
    case Anthropic =>
      var w := A.FromIR(r, model, opts.defaultMaxTokens);
      if w.Err? then Err(w.error) else Ok(AnthropicWire(w.value))
    case OpenAIChat =>
      var w := C.FromIR(r, model, opts.bedrock);
      if w.Err? then Err(w.error) else Ok(ChatWire(w.value))
    case OpenAIResponses => Ok(ResponsesWire(R.FromIR(r, model)))
  }

  function Translate(w: Wire, to: Protocol, model: string, opts: Options): Result<Wire> {
    var r := Read(w);
    if r.Err? then Err(r.error) else Print(r.value, to, model, opts)
  }

  function Calls(w: Wire): seq<ToolCall> {
    match w
    case AnthropicWire(a) => A.WireCalls(a)
    case ChatWire(c) => C.WireCalls(c)
    case ResponsesWire(r) => R.WireCalls(r)
  }

  function Results(w: Wire): seq<string> {
    match w
    case AnthropicWire(a) => A.WireResults(a)
    case ChatWire(c) => C.WireResults(c)
    case ResponsesWire(r) => R.WireResults(r)
  }

  /** Only an Anthropic body can hold a tool block in a turn where the other protocols have no place for it. */
  predicate InPlace(w: Wire) {
    w.AnthropicWire? ==> A.WireInPlace(w.a)
  }

  /** Only the OpenAI protocols carry arguments as a string, which need not be valid JSON. */
  predicate Intact(w: Wire) {
    match w
    case AnthropicWire(_) => true
    case ChatWire(c) => C.ArgumentsIntact(c)
    case ResponsesWire(r) => R.ArgumentsIntact(r)
  }

  lemma ReadFindsTools(w: Wire)
    requires Read(w).Ok?
    ensures AllCalls(Read(w).value.messages) == Calls(w) <==> Intact(w)
    ensures AllResults(Read(w).value.messages) == Results(w)
    ensures AllInPlace(Read(w).value.messages) <==> InPlace(w)
    ensures w.AnthropicWire? ==> Intact(w)
    ensures !w.AnthropicWire? ==> InPlace(w)
  {
    match w {
      case AnthropicWire(a) => A.FindsTools(a); A.InPlaceExact(a);
      case ChatWire(c) => C.FindsTools(c);
      case ResponsesWire(r) => R.FindsTools(r);
    }
  }

  lemma PrintKeepsTools(r: Request, to: Protocol, model: string, opts: Options)
    requires Print(r, to, model, opts).Ok?
    ensures var out := Print(r, to, model, opts).value;
            Calls(out) == AllCalls(r.messages) && Results(out) == AllResults(r.messages)
            <==> to == Anthropic || AllInPlace(r.messages)
  {
    hide A.FromIR, C.FromIR, R.FromIR, A.WireCalls, C.WireCalls, R.WireCalls, A.WireResults, C.WireResults,
        R.WireResults;
    match to {
      case Anthropic => A.KeepsTools(r, model, opts.defaultMaxTokens);
      case OpenAIChat => C.KeepsTools(r, model, opts.bedrock);
      case OpenAIResponses => R.KeepsTools(r, model);
    }
  }

  /**
   * In every direction, a translated request asks for the same tool calls, with the arguments to the
   * letter, and answers the same call ids, in order, exactly when no tool block is out of place for
   * the target and all arguments are empty or valid JSON.
   */
  lemma {:induction false} EveryDirectionKeepsTools(w: Wire, to: Protocol, model: string, opts: Options)
    requires Translate(w, to, model, opts).Ok?
    ensures var out := Translate(w, to, model, opts).value;
            Calls(out) == Calls(w) && Results(out) == Results(w) <==> (to == Anthropic || InPlace(w)) && Intact(w)
  {
    hide Calls, Results, Print, Read, InPlace, Intact;
    ReadFindsTools(w);
    PrintKeepsTools(Read(w).value, to, model, opts);
  }

  /** A call in a user turn is accepted, and silently lost on the way to a Responses provider. */
  lemma {:induction false} MisplacedCallIsLost(model: string, opts: Options)
    ensures var turn := A.Msg(UserR, A.Blocks([A.ToolUseB("id", "f", Json("{}"))]));
            var w := AnthropicWire(A.Wire("m", A.NoBody, [turn], [], None, None, None, None, [], false));
            && Translate(w, OpenAIResponses, model, opts).Ok?
            && Calls(w) == [ToolCall("id", "f", "{}")]
            && Calls(Translate(w, OpenAIResponses, model, opts).value) == []
  {
    hide FlatMap, Collect, R.FromIR;
    var block := A.ToolUseB("id", "f", Json("{}"));
    var turn := A.Msg(UserR, A.Blocks([block]));
    var a := A.Wire("m", A.NoBody, [turn], [], None, None, None, None, [], false);
    var m := Message(User, [ToolUse("id", "f", Json("{}"))]);
    CollectOne(A.ReadBlock, block);
    CollectOne(A.ReadMessage, turn);
    assert A.ToIR(a).value.messages == [m];
    FlatMapOne(A.BlockCall, block);
    FlatMapOne(A.MsgCalls, turn);
    R.KeepsTools(A.ToIR(a).value, model);
    FlatMapOne(PlacedCalls, m);
  }

  /** Arguments that were cut off are accepted, and replaced by the empty object. */
  lemma {:induction false} TruncatedArgumentsAreLost(model: string, opts: Options)
    ensures var call := C.Call("id", "f", Arguments("{\"path\":\"/a", false));
            var turn := C.Msg(AssistantR, C.NoBody, [call], "");
            var w := ChatWire(C.Wire("m", [turn], [], C.NoChoice, None, None, None, None, None, C.NoStop, false, false,
                None, ""));
            && Translate(w, OpenAIResponses, model, opts).Ok?
            && Calls(w) == [ToolCall("id", "f", "{\"path\":\"/a")]
            && Calls(Translate(w, OpenAIResponses, model, opts).value) == [ToolCall("id", "f", "{}")]
  {
    hide FlatMap, Collect, R.FromIR;
    var call := C.Call("id", "f", Arguments("{\"path\":\"/a", false));
    var turn := C.Msg(AssistantR, C.NoBody, [call], "");
    var c := C.Wire("m", [turn], [], C.NoChoice, None, None, None, None, None, C.NoStop, false, false, None, "");
    var m := Message(Assistant, [ToolUse("id", "f", Json("{}"))]);
    FlatMapOne(C.ReadCall, call);
    assert [] + m.content == m.content;
    CollectOne(C.ReadMessage, turn);
    CollectNone(C.ReadInstructions);
    assert c.messages[..0] == [] && c.messages[0..] == [turn];
    assert C.ToIR(c).value.messages == [m];
    FlatMapOne(C.WireCall, call);
    FlatMapOne(C.MsgCalls, turn);
    R.KeepsTools(C.ToIR(c).value, model);
    FlatMapOne(PlacedCalls, m);
    FlatMapOne(CallOf, m.content[0]);
  }

  // ---- What is said ---------------------------------------------------------------------------------

  /** What a body says to somebody who looks at the pictures behind data URLs. */
  function Gists(w: Wire): seq<Utterance> {
    match w
    case AnthropicWire(a) => AG.WireGists(a)
    case ChatWire(c) => Map(Look, CG.WireGists(c))
    case ResponsesWire(r) => Map(Look, RG.WireGists(r))
  }

  /** What a protocol can say of a request. */
  function Sayable(r: Request, to: Protocol): seq<Utterance> {
    match to
    case Anthropic => AnthropicSays(r)
    case OpenAIChat => Map(Look, ChatSays(r))
    case OpenAIResponses => Map(Look, ResponsesSays(r))
  }

  /**
   * In every direction, what is read from a body is all that it says, utterance by utterance, and the
   * translated body says of it all that the target can say.
   */
  lemma {:induction false} EveryDirectionKeepsWhatIsSaid(w: Wire, to: Protocol, model: string, opts: Options)
    requires Translate(w, to, model, opts).Ok?
    ensures RequestGists(Read(w).value) == Gists(w)
    ensures Gists(Translate(w, to, model, opts).value) == Sayable(Read(w).value, to)
  {
    ReadKeepsWhatIsSaid(w);
    assert Read(w).Ok?;
    hide Read, Gists, Sayable, RequestGists;
    PrintKeepsWhatIsSaid(Read(w).value, to, model, opts);
  }

  lemma {:induction false} ReadKeepsWhatIsSaid(w: Wire)
    requires Read(w).Ok?
    ensures RequestGists(Read(w).value) == Gists(w)
  {
    hide A.ToIR, C.ToIR, R.ToIR, RequestGists, Map, AG.WireGists, CG.WireGists, RG.WireGists;
    match w {
      case AnthropicWire(a) => AG.Finds(a);
      case ChatWire(c) => CG.Finds(c);
      case ResponsesWire(x) => RG.Finds(x);
    }
  }

  lemma {:induction false} PrintKeepsWhatIsSaid(r: Request, to: Protocol, model: string, opts: Options)
    requires Print(r, to, model, opts).Ok?
    ensures Gists(Print(r, to, model, opts).value) == Sayable(r, to)
  {
    hide A.FromIR, C.FromIR, R.FromIR, Map, AnthropicSays, ChatSays, ResponsesSays;
    hide AG.WireGists, CG.WireGists, RG.WireGists;
    match to {
      case Anthropic => AG.Keeps(r, model, opts.defaultMaxTokens);
      case OpenAIChat => CG.Keeps(r, model, opts.bedrock);
      case OpenAIResponses => RG.Keeps(r, model);
    }
  }

  function Taken(u: Utterance): seq<Utterance> {
    Uttered(u.who, AnthropicTakes(u.what))
  }

  /** Instructions of words only. */
  predicate PlainlyInstructed(us: seq<Utterance>) {
    forall k :: 0 <= k < |us| && us[k].who == Instructor ==> us[k].what.Words?
  }

  lemma {:induction false} TakenFrom(who: Speaker, gs: seq<Gist>)
    ensures FlatMap(Taken, Uttered(who, gs)) == Uttered(who, FlatMap(AnthropicTakes, gs))
    decreases |gs|
  {
    if gs != [] {
      var n := |gs| - 1;
      TakenFrom(who, gs[..n]);
      assert Uttered(who, gs) == Uttered(who, gs[..n]) + [Utterance(who, gs[n])];
      assert gs == gs[..n] + [gs[n]];
      hide Uttered, AnthropicTakes;
      FlatMapSnoc(Taken, Uttered(who, gs[..n]), Utterance(who, gs[n]));
      FlatMapSnoc(AnthropicTakes, gs[..n], gs[n]);
      UtteredConcat(who, FlatMap(AnthropicTakes, gs[..n]), AnthropicTakes(gs[n]));
    }
  }

  lemma {:induction false} WordsTaken(gs: seq<Gist>)
    requires PlainlyInstructed(Uttered(Instructor, gs))
    ensures FlatMap(OnlyWords, gs) == FlatMap(AnthropicTakes, gs)
    decreases |gs|
  {
    if gs != [] {
      var n := |gs| - 1;
      assert Uttered(Instructor, gs)[n].what.Words?;
      assert forall k :: 0 <= k < n ==> Uttered(Instructor, gs[..n])[k] == Uttered(Instructor, gs)[k];
      WordsTaken(gs[..n]);
    }
  }

  lemma {:induction false} OpeningTaken(ms: seq<Message>)
    requires PlainlyInstructed(FlatMap(TurnGists, ms))
    requires forall m :: m in ms ==> m.role == System
    ensures FlatMap(WordsTurn, ms) == FlatMap(AnthropicTurn, ms)
    decreases |ms|
  {
    if ms != [] {
      var n := |ms| - 1;
      var m, front := ms[n], FlatMap(TurnGists, ms[..n]);
      var all := FlatMap(TurnGists, ms);
      assert all == front + TurnGists(m) && m in ms;
      assert forall k :: 0 <= k < |front| ==> front[k] == all[k];
      assert forall k :: 0 <= k < |TurnGists(m)| ==> TurnGists(m)[k] == all[|front| + k];
      OpeningTaken(ms[..n]);
      hide FlatMap, Uttered;
      WordsTaken(GistsIn(m.content));
      FlatMapSnoc(WordsTurn, ms[..n], m);
      FlatMapSnoc(AnthropicTurn, ms[..n], m);
      assert ms == ms[..n] + [m];
    }
  }

  /** An Anthropic body says the same, one utterance after the other, but for reasoning it could not replay. */
  lemma {:induction false} AnthropicSaysTheSame(w: Wire, model: string, opts: Options)
    requires Translate(w, Anthropic, model, opts).Ok? && PlainlyInstructed(Gists(w))
    ensures Gists(Translate(w, Anthropic, model, opts).value) == FlatMap(Taken, Gists(w))
  {
    assert Read(w).Ok?;
    hide Translate, Gists, Read;
    EveryDirectionKeepsWhatIsSaid(w, Anthropic, model, opts);
    TakesAll(Read(w).value);
  }

  lemma {:induction false} TakesTurns(ms: seq<Message>)
    ensures FlatMap(Taken, FlatMap(TurnGists, ms)) == FlatMap(AnthropicTurn, ms)
  {
    forall m: Message
      ensures FlatMap(Taken, TurnGists(m)) == AnthropicTurn(m)
    {
      TakenFrom(SpeakerOf(m.role), GistsIn(m.content));
    }
    hide TurnGists, AnthropicTurn, Taken;
    FlatMapCompose(TurnGists, Taken, AnthropicTurn, ms);
  }

  /** The system prompt and the opening turns hold words only. */
  lemma {:induction false} OpeningIsPlain(r: Request)
    requires PlainlyInstructed(RequestGists(r))
    ensures PlainlyInstructed(Uttered(Instructor, GistsIn(r.system)))
    ensures PlainlyInstructed(FlatMap(TurnGists, r.messages[..OpeningTurns(r.messages)]))
  {
    var n := OpeningTurns(r.messages);
    var lead, rest := r.messages[..n], r.messages[n..];
    assert r.messages == lead + rest;
    hide FlatMap, Uttered, TurnGists, OpeningTurns, GistsIn, PlainlyInstructed;
    FlatMapConcat(TurnGists, lead, rest);
    var xs, ys, zs := Uttered(Instructor, GistsIn(r.system)), FlatMap(TurnGists, lead), FlatMap(TurnGists, rest);
    assert xs + (ys + zs) == xs + ys + zs;
    Apart(xs, ys, zs);
  }

  lemma {:induction false} TakesAll(r: Request)
    requires PlainlyInstructed(RequestGists(r))
    ensures AnthropicSays(r) == FlatMap(Taken, RequestGists(r))
  {
    var n := OpeningTurns(r.messages);
    var lead, rest := r.messages[..n], r.messages[n..];
    AG.OpeningIsLeading(r.messages);
    assert r.messages == lead + rest;
    assert forall m :: m in lead ==> m.role == System;
    OpeningIsPlain(r);
    hide FlatMap, Uttered, TurnGists, AnthropicTurn, WordsTurn, Taken, OpeningTurns, GistsIn, PlainlyInstructed;
    hide AnthropicSays;
    OpeningTaken(lead);
    FlatMapConcat(AnthropicTurn, lead, rest);
    TakesParts(r.system, r.messages);
    AnthropicSaysParts(r);
  }

  lemma AnthropicSaysParts(r: Request)
    requires var ms, n := r.messages, OpeningTurns(r.messages);
             && FlatMap(WordsTurn, ms[..n]) == FlatMap(AnthropicTurn, ms[..n])
             && FlatMap(AnthropicTurn, ms) == FlatMap(AnthropicTurn, ms[..n]) + FlatMap(AnthropicTurn, ms[n..])
    ensures AnthropicSays(r)
            == Uttered(Instructor, FlatMap(OnlyWords, GistsIn(r.system))) + FlatMap(AnthropicTurn, r.messages)
  {
    hide FlatMap, Uttered, GistsIn, AnthropicTurn, WordsTurn, OpeningTurns;
  }

  lemma {:induction false} TakesParts(system: seq<Content>, ms: seq<Message>)
    requires PlainlyInstructed(Uttered(Instructor, GistsIn(system)))
    ensures FlatMap(Taken, Uttered(Instructor, GistsIn(system)) + FlatMap(TurnGists, ms))
            == Uttered(Instructor, FlatMap(OnlyWords, GistsIn(system))) + FlatMap(AnthropicTurn, ms)
  {
    hide FlatMap, TurnGists, AnthropicTurn, Taken, GistsIn;
    FlatMapConcat(Taken, Uttered(Instructor, GistsIn(system)), FlatMap(TurnGists, ms));
    TakesTurns(ms);
    TakenFrom(Instructor, GistsIn(system));
    WordsTaken(GistsIn(system));
  }

  lemma Apart(xs: seq<Utterance>, ys: seq<Utterance>, zs: seq<Utterance>)
    requires PlainlyInstructed(xs + ys + zs)
    ensures PlainlyInstructed(xs) && PlainlyInstructed(ys)
  {
    var all := xs + ys + zs;
    assert forall k :: 0 <= k < |xs| ==> xs[k] == all[k];
    assert forall k :: 0 <= k < |ys| ==> ys[k] == all[|xs| + k];
  }

  /** The flag that `Request` returns beside the body. */
  function Defaulted(r: Request, to: Protocol, opts: Options): bool {
    to == Anthropic && (r.maxTokens.None? || r.maxTokens.value <= 0) && opts.defaultMaxTokens > 0
  }

  /** The flag is computed apart from the body, and tells exactly whether the body's limit is the default. */
  lemma DefaultIsReported(w: Wire, model: string, opts: Options)
    requires Translate(w, Anthropic, model, opts).Ok?
    ensures var r, out := Read(w).value, Translate(w, Anthropic, model, opts).value.a;
            && out.maxTokens == (if Defaulted(r, Anthropic, opts) then Some(opts.defaultMaxTokens) else r.maxTokens)
            && out.maxTokens.Some? && out.maxTokens.value > 0
  {
  }
}
