/** The Anthropic Messages request codec (internal/protocol/translate/anthropic.go). */
module AnthropicRequest {
  import opened Folds
  import opened RequestIr

  datatype Source = Source(kind: string, mediaType: string, data: string, url: string)

  /** `tool_result.content`; a nested block is its text, or None when it is not a text block. */
  datatype ResultBody =
    | NoResult
    | ResultText(text: string)
    | ResultBlocks(texts: seq<Option<string>>, raw: string)
    | ResultOther(raw: string)

  datatype Block =
    | TextB(text: string)
    | ThinkingB(thinking: string, signature: string)
    | RedactedB(data: string)
    | ToolUseB(id: string, name: string, input: Json)
    | ToolResultB(toolUseId: string, content: ResultBody, isError: bool)
    | ImageB(source: Option<Source>)
    | UnknownB(kind: string)

  datatype Body = NoBody | Plain(text: string) | Blocks(blocks: seq<Block>)

  datatype Msg = Msg(role: WireRole, content: Body)

  datatype Choice = Choice(kind: string, name: string)

  datatype Wire = Wire(model: string, system: Body, messages: seq<Msg>, tools: seq<ToolDef>, choice: Option<Choice>,
                       maxTokens: Option<int>, temperature: Option<real>, topP: Option<real>, stop: seq<string>,
                       stream: bool)

  // ---- ToIR -------------------------------------------------------------------------------------

  function RoleOf(role: WireRole): Result<Role> {
    if role == UserR then Ok(User)
    else if role == AssistantR then Ok(Assistant)
    else if role == SystemR then Ok(System)
    else Err("unknown role")
  }

  /** All nested texts in a row, unless some block is not text. */
  function Joined(texts: seq<Option<string>>): Option<string> {
    if texts == [] then Some("")
    else
      var front, t := Joined(texts[..|texts| - 1]), texts[|texts| - 1];
      if front.Some? && t.Some? then Some(front.value + t.value) else None
  }

  function ReadResult(b: ResultBody): Payload {
    match b
    case NoResult => Str("")
    case ResultText(s) => Str(s)
    case ResultBlocks(texts, raw) => if Joined(texts).Some? then Str(Joined(texts).value) else OtherJson(raw)
    case ResultOther(raw) => OtherJson(raw)
  }

  lemma {:induction false} JoinedFails(texts: seq<Option<string>>, k: nat)
    requires k < |texts| && texts[k].None?
    ensures Joined(texts).None?
    decreases |texts|
  {
    if k < |texts| - 1 { JoinedFails(texts[..|texts| - 1], k); }
  }

  /** The flattening loop of `toolResultToIR`. */
  method ReadResultLoop(b: ResultBody) returns (p: Payload)
    ensures p == ReadResult(b)
  {
    match b
    case NoResult => p := Str("");
    case ResultText(s) => p := Str(s);
    case ResultOther(raw) => p := OtherJson(raw);
    case ResultBlocks(texts, raw) =>
      var s, allText, k := "", true, 0;
      while k < |texts|
        invariant k <= |texts| && allText && Joined(texts[..k]) == Some(s)
      {
        assert texts[..k + 1][..k] == texts[..k];
        if texts[k].None? {
          JoinedFails(texts, k);
          allText := false;
          break;
        }
        s := s + texts[k].value;
        k := k + 1;
      }
      assert texts[..|texts|] == texts;
      p := if allText then Str(s) else OtherJson(raw);
  }

  function ReadBlock(b: Block): Result<seq<Content>> {
    match b
    case TextB(s) => Ok([Text(s)])
    case ThinkingB(s, sig) => Ok([Thinking(s, sig, NoOpaque)])
    case RedactedB(data) => Ok([Thinking("", "", RedactedRaw(data))])
    case ToolUseB(id, name, input) => Ok([ToolUse(id, name, OrEmptyObject(input))])
    case ToolResultB(id, content, isError) => Ok([ToolResult(id, ReadResult(content), isError)])
    case ImageB(None) => Ok([Image("", "", "")])
    case ImageB(Some(src)) => Ok([Image(src.mediaType, src.data, src.url)])
    case UnknownB(_) => Err("unsupported block type")
  }

  function ReadBody(b: Body): Result<seq<Content>> {
    match b
    case NoBody => Ok([])
    case Plain(s) => Ok([Text(s)])
    case Blocks(bs) => Collect(ReadBlock, bs)
  }

  function ReadMessage(m: Msg): Result<seq<Message>> {
    var role := RoleOf(m.role);
    var content := ReadBody(m.content);
    if role.Err? then Err(role.error)
    else if content.Err? then Err(content.error)
    else Ok([Message(role.value, content.value)])
  }

  function ReadChoice(c: Option<Choice>): Result<ToolChoice> {
    if c.None? || c.value.kind == "" || c.value.kind == "auto" then Ok(Unset)
    else if c.value.kind == "any" then Ok(Required)
    else if c.value.kind == "none" then Ok(Never)
    else if c.value.kind == "tool" then Ok(Named(c.value.name))
    else Err("unknown tool_choice.type")
  }

  function ToIR(w: Wire): Result<Request> {
    if w.model == "" then Err("model is required")
    else
      var system, messages, choice := ReadBody(w.system), Collect(ReadMessage, w.messages), ReadChoice(w.choice);
      if system.Err? then Err(system.error)
      else if messages.Err? then Err(messages.error)
      else if choice.Err? then Err(choice.error)
      else Ok(Request(w.model, system.value, messages.value, w.tools, choice.value, None, w.maxTokens, w.temperature,
                      w.topP, w.stop, w.stream, None))
  }

  // ---- FromIR -----------------------------------------------------------------------------------

  function PrintImage(c: Content): Block
    requires c.Image?
  {
    if c.url != "" then ImageB(Some(Source("url", "", "", c.url)))
    else ImageB(Some(Source("base64", c.mediaType, c.data, "")))
  }

  /** One block of a message. Thinking is kept only when Anthropic could validate it. */
  function PrintBlock(c: Content): Result<seq<Block>> {
    match c
    case Text(s) => Ok([TextB(s)])
    case Thinking(s, sig, raw) =>
      if raw.RedactedRaw? then Ok([RedactedB(raw.data)])
      else if !raw.NoOpaque? || sig == "" then Ok([])
      else Ok([ThinkingB(s, sig)])
    case ToolUse(id, name, input) => Ok([ToolUseB(id, name, OrEmptyObject(input))])
    case ToolResult(id, result, isError) => Ok([ToolResultB(id, ResultText(result.AsText()), isError)])
    case Image(_, _, _) => Ok([PrintImage(c)])
  }

  /** One block of the top-level system prompt, where only text is legal. */
  function PrintSystem(c: Content): Result<seq<Block>> {
    match c
    case Text(s) => Ok([TextB(s)])
    case ToolUse(_, _, _) => Err("tool_use not allowed in system")
    case ToolResult(_, _, _) => Err("tool_result not allowed in system")
    case Thinking(_, _, _) => Ok([])
    case Image(_, _, _) => Ok([])
  }

  function RoleName(role: Role): WireRole {
    match role
    case User => UserR
    case Assistant => AssistantR
    case System => SystemR
    case Tool => UserR
  }

  function PrintMessage(m: Message): Result<seq<Msg>> {
    var bs := Collect(PrintBlock, m.content);
    if bs.Err? then Err(bs.error) else Ok([Msg(RoleName(m.role), Blocks(bs.value))])
  }

  /** How many system messages open the conversation. */
  function Leading(ms: seq<Message>): (n: nat)
    ensures n <= |ms|
  {
    if ms == [] || ms[0].role != System then 0 else 1 + Leading(ms[1..])
  }

  lemma {:induction false} LeadingStops(ms: seq<Message>)
    ensures Leading(ms) < |ms| ==> ms[Leading(ms)].role != System
    decreases |ms|
  {
    if ms != [] && ms[0].role == System {
      LeadingStops(ms[1..]);
    }
  }

  /** The hoisting loop of `FromIR`. */
  method Hoist(system: seq<Content>, messages: seq<Message>) returns (hoisted: seq<Content>, rest: seq<Message>)
    ensures hoisted == system + FlatMap(ContentOf, messages[..Leading(messages)])
    ensures rest == messages[Leading(messages)..]
  {
    hide FlatMap, Leading;
    hoisted, rest := system, messages;
    ghost var n: nat := 0;
    FlatMapNothing(ContentOf, []);
    assert messages[..0] == [] && messages[0..] == messages;
    while |rest| > 0 && rest[0].role == System
      invariant n + Leading(rest) == Leading(messages) && n <= |messages| && rest == messages[n..]
      invariant hoisted == system + FlatMap(ContentOf, messages[..n])
      decreases |rest|
    {
      FlatMapSnoc(ContentOf, messages[..n], messages[n]);
      assert messages[..n] + [messages[n]] == messages[..n + 1];
      LeadingStep(rest);
      assert rest[1..] == messages[n + 1..];
      hoisted := hoisted + rest[0].content;
      rest := rest[1..];
      n := n + 1;
    }
    LeadingStep(rest);
  }

  lemma LeadingStep(ms: seq<Message>)
    ensures Leading(ms) == if ms == [] || ms[0].role != System then 0 else 1 + Leading(ms[1..])
  {
  }

  function BlocksOf(m: Msg): seq<Block> {
    if m.content.Blocks? then m.content.blocks else []
  }

  predicate Same(a: Msg, b: Msg) {
    a.role == b.role && b.role != SystemR
  }

  function Glue(a: Msg, b: Msg): Msg {
    a.(content := Blocks(BlocksOf(a) + BlocksOf(b)))
  }

  /** Adding one message to a list that has been merged. */
  function MergeOne(out: seq<Msg>, m: Msg): seq<Msg> {
    var n := |out|;
    if n > 0 && Same(out[n - 1], m) then out[..n - 1] + [Glue(out[n - 1], m)] else out + [m]
  }

  function Merge(ms: seq<Msg>): seq<Msg> {
    if ms == [] then [] else MergeOne(Merge(ms[..|ms| - 1]), ms[|ms| - 1])
  }

  /** `mergeAdjacentAnthropic`, which edits the last message it has written. */
  method MergeAdjacent(ms: seq<Msg>) returns (out: seq<Msg>)
    ensures out == Merge(ms)
  {
    out := [];
    if |ms| < 2 {
      if |ms| == 1 {
        assert ms[..0] == [] && Merge(ms[..0]) == [];
        assert ms == [] + [ms[0]];
      }
      return ms;
    }
    for k := 0 to |ms|
      invariant out == Merge(ms[..k])
    {
      assert ms[..k + 1][..k] == ms[..k];
      var n := |out|;
      if n > 0 && out[n - 1].role == ms[k].role && ms[k].role != SystemR {
        assert out[n - 1 := Glue(out[n - 1], ms[k])] == out[..n - 1] + [Glue(out[n - 1], ms[k])];
        out := out[n - 1 := out[n - 1].(content := Blocks(BlocksOf(out[n - 1]) + BlocksOf(ms[k])))];
      } else {
        out := out + [ms[k]];
      }
    }
    assert ms[..|ms|] == ms;
  }

  function PrintChoice(c: ToolChoice): Option<Choice> {
    match c
    case Unset => None
    case Auto => None
    case Required => Some(Choice("any", ""))
    case Never => Some(Choice("none", ""))
    case Named(name) => Some(Choice("tool", name))
  }

  function Limit(requested: Option<int>, fallback: int): Option<int> {
    if requested.Some? && requested.value > 0 then requested
    else if fallback > 0 then Some(fallback)
    else None
  }

  function FromIR(r: Request, providerModel: string, defaultMaxTokens: int): Result<Wire> {
    var limit := Limit(r.maxTokens, defaultMaxTokens);
    var n := Leading(r.messages);
    var all := r.system + FlatMap(ContentOf, r.messages[..n]);
    var system, messages := Collect(PrintSystem, all), Collect(PrintMessage, r.messages[n..]);
    if limit.None? then Err("max_tokens is required and no default is configured")
    else if system.Err? then Err(system.error)
    else if messages.Err? then Err(messages.error)
    else Ok(Wire(providerModel, if all == [] then NoBody else Blocks(system.value), Merge(messages.value),
                 Map(WithSchema, r.tools), PrintChoice(r.toolChoice), limit, r.temperature, r.topP, r.stop, r.stream))
  }

  /** `FromIR` as a sequence of loops. */
  method Build(r: Request, providerModel: string, defaultMaxTokens: int) returns (out: Result<Wire>)
    ensures out == FromIR(r, providerModel, defaultMaxTokens)
  {
    var limit := Limit(r.maxTokens, defaultMaxTokens);
    if limit.None? {
      return Err("max_tokens is required and no default is configured");
    }
    var hoisted, rest := Hoist(r.system, r.messages);
    var system := NoBody;
    var blocks := AppendAll(PrintSystem, hoisted);
    if blocks.Err? {
      return Err(blocks.error);
    }
    if |hoisted| > 0 {
      system := Blocks(blocks.value);
    }
    var messages := AppendAll(PrintMessage, rest);
    if messages.Err? {
      return Err(messages.error);
    }
    var merged := MergeAdjacent(messages.value);
    out := Ok(Wire(providerModel, system, merged, Map(WithSchema, r.tools), PrintChoice(r.toolChoice), limit,
                   r.temperature, r.topP, r.stop, r.stream));
  }

  // ---- Merging keeps what is said ----------------------------------------------------------------

  /** Every block with the role that says it. */
  function Said(m: Msg): seq<(WireRole, Block)> {
    Map(b => (m.role, b), BlocksOf(m))
  }

  /** A view of messages that sees a glued message as its two halves. */
  ghost predicate Additive<T>(see: Msg -> seq<T>) {
    forall a, b :: Same(a, b) ==> see(Glue(a, b)) == see(a) + see(b)
  }

  lemma MergeOneKeeps<T>(see: Msg -> seq<T>, out: seq<Msg>, m: Msg)
    requires Additive(see)
    ensures FlatMap(see, MergeOne(out, m)) == FlatMap(see, out) + see(m)
  {
    var n := |out|;
    if n > 0 && Same(out[n - 1], m) {
      assert see(Glue(out[n - 1], m)) == see(out[n - 1]) + see(m);
      hide Glue, Additive;
      FlatMapSnoc(see, out[..n - 1], Glue(out[n - 1], m));
    } else {
      FlatMapSnoc(see, out, m);
    }
  }

  /** What can be seen block by block is the same before and after merging. */
  lemma {:induction false} MergeKeeps<T>(see: Msg -> seq<T>, ms: seq<Msg>)
    requires Additive(see)
    ensures FlatMap(see, Merge(ms)) == FlatMap(see, ms)
    decreases |ms|
  {
    hide Additive, MergeOne;
    if ms != [] {
      MergeKeeps(see, ms[..|ms| - 1]);
      MergeOneKeeps(see, Merge(ms[..|ms| - 1]), ms[|ms| - 1]);
    }
  }

  predicate Alternating(ms: seq<Msg>) {
    forall j, k :: 0 <= j < |ms| && 0 <= k < |ms| && k == j + 1 ==> !Same(ms[j], ms[k])
  }

  lemma {:induction false} MergeShape(ms: seq<Msg>)
    ensures Alternating(Merge(ms))
    ensures Alternating(ms) ==> Merge(ms) == ms
    ensures |Merge(ms)| > 0 <==> |ms| > 0
    ensures |ms| > 0 ==> Merge(ms)[0].role == ms[0].role
    decreases |ms|
  {
    if ms != [] {
      var n := |ms| - 1;
      hide MergeOne, Same;
      var out := Merge(ms[..n]);
      MergeShape(ms[..n]);
      MergeOneShape(out, ms[n]);
      assert Merge(ms) == MergeOne(out, ms[n]);
      hide Merge;
      if Alternating(ms) {
        assert Alternating(ms[..n]);
        hide Alternating;
        assert n > 0 ==> !Same(ms[n - 1], ms[n]);
        assert ms[..n] + [ms[n]] == ms;
      }
    }
  }

  lemma MergeOneShape(out: seq<Msg>, m: Msg)
    requires Alternating(out)
    ensures var next := MergeOne(out, m);
            && Alternating(next)
            && next != []
            && next[0].role == (if out == [] then m else out[0]).role
            && (out == [] || !Same(out[|out| - 1], m) ==> next == out + [m])
  {
  }

  lemma SaidIsAdditive()
    ensures Additive(Said)
  {
    forall a, b | Same(a, b)
      ensures Said(Glue(a, b)) == Said(a) + Said(b)
    {
      GluedSays(a, b);
    }
  }

  lemma GluedSays(a: Msg, b: Msg)
    requires Same(a, b)
    ensures Said(Glue(a, b)) == Said(a) + Said(b)
  {
    hide Map;
    assert |Said(Glue(a, b))| == |Said(a) + Said(b)|;
  }

  function SystemTurn(m: Msg): seq<Msg> {
    if m.role == SystemR then [m] else []
  }

  /** Merging loses no block, moves none to another role, leaves no two turns of one role side by side but
      system turns, and those as they are. */
  lemma {:induction false} MergeExact(ms: seq<Msg>)
    ensures FlatMap(Said, Merge(ms)) == FlatMap(Said, ms)
    ensures Alternating(Merge(ms))
    ensures Alternating(ms) ==> Merge(ms) == ms
    ensures var out := Merge(ms);
            forall j, k :: 0 <= j && k == j + 1 < |out| ==> out[j].role != out[k].role || out[k].role == SystemR
    ensures FlatMap(SystemTurn, Merge(ms)) == FlatMap(SystemTurn, ms)
  {
    MergeShape(ms);
    SaidIsAdditive();
    assert Additive(SystemTurn);
    hide Additive, Merge;
    MergeKeeps(Said, ms);
    MergeKeeps(SystemTurn, ms);
  }

  // ---- Printer and parser ------------------------------------------------------------------------

  /** A block that reading and printing gives back. */
  predicate Stable(b: Block) {
    ReadBlock(b).Ok? && Collect(PrintBlock, ReadBlock(b).value) == Ok([b])
  }

  predicate StableMsg(m: Msg) {
    RoleOf(m.role).Ok? && m.content.Blocks? && forall b :: b in m.content.blocks ==> Stable(b)
  }

  lemma PrintedIsStable(c: Content, b: Block)
    requires PrintBlock(c).Ok? && b in PrintBlock(c).value
    ensures Stable(b)
  {
    CollectOne(PrintBlock, ReadBlock(b).value[0]);
  }

  lemma PrintedMessageIsStable(m: Message, p: Msg)
    requires PrintMessage(m).Ok? && p in PrintMessage(m).value
    ensures StableMsg(p)
  {
    forall c, b | c in m.content && PrintBlock(c).Ok? && b in PrintBlock(c).value
      ensures Stable(b)
    {
      PrintedIsStable(c, b);
    }
    CollectAll(PrintBlock, Stable, m.content);
  }

  lemma {:induction false} MergeKeepsStable(ms: seq<Msg>)
    requires forall m :: m in ms ==> StableMsg(m)
    ensures forall m :: m in Merge(ms) ==> StableMsg(m)
    decreases |ms|
  {
    if ms != [] {
      var out, m := Merge(ms[..|ms| - 1]), ms[|ms| - 1];
      MergeKeepsStable(ms[..|ms| - 1]);
      assert StableMsg(m);
      var n := |out|;
      if n > 0 && Same(out[n - 1], m) {
        assert out[n - 1] in out && StableMsg(out[n - 1]);
        assert StableMsg(Glue(out[n - 1], m));
      }
    }
  }

  function Itself<A>(x: A): A { x }

  lemma StableMessageReturns(m: Msg)
    requires StableMsg(m)
    ensures ReadMessage(m).Ok? && Collect(PrintMessage, ReadMessage(m).value) == Ok([m])
  {
    hide ReadBlock, PrintBlock;
    CollectTwice(ReadBlock, PrintBlock, Itself<Block>, m.content.blocks);
    MapIdle(Itself<Block>, m.content.blocks);
    hide Collect, Map, StableMsg;
    CollectOne(PrintMessage, ReadMessage(m).value[0]);
  }

  /** What `FromIR` writes: a system prompt of texts only, then stable turns that need no merging. */
  predicate Canonical(w: Wire) {
    && !w.system.Plain?
    && (w.system.Blocks? ==> forall b :: b in w.system.blocks ==> b.TextB?)
    && (forall m :: m in w.messages ==> StableMsg(m))
    && Alternating(w.messages)
    && (w.messages != [] ==> w.messages[0].role != SystemR)
    && (forall t :: t in w.tools ==> WithSchema(t) == t)
    && ReadChoice(w.choice).Ok? && PrintChoice(ReadChoice(w.choice).value) == w.choice
    && w.maxTokens.Some? && w.maxTokens.value > 0
  }

  lemma PrintedRoles(ms: seq<Message>)
    requires Collect(PrintMessage, ms).Ok?
    ensures |Collect(PrintMessage, ms).value| == |ms|
    ensures forall k :: 0 <= k < |ms| ==> Collect(PrintMessage, ms).value[k].role == RoleName(ms[k].role)
    decreases |ms|
  {
    if ms != [] {
      PrintedRoles(ms[..|ms| - 1]);
    }
  }

  lemma PrintedTurns(ms: seq<Message>)
    requires Collect(PrintMessage, ms).Ok?
    ensures forall m :: m in Merge(Collect(PrintMessage, ms).value) ==> StableMsg(m)
  {
    forall m, p | m in ms && PrintMessage(m).Ok? && p in PrintMessage(m).value
      ensures StableMsg(p)
    {
      PrintedMessageIsStable(m, p);
    }
    hide PrintMessage, StableMsg, Merge;
    CollectAll(PrintMessage, StableMsg, ms);
    MergeKeepsStable(Collect(PrintMessage, ms).value);
  }

  lemma ChoiceReturns(c: ToolChoice)
    ensures ReadChoice(PrintChoice(c)).Ok? && PrintChoice(ReadChoice(PrintChoice(c)).value) == PrintChoice(c)
  {
  }

  lemma PrintedIsCanonical(r: Request, model: string, fallback: int)
    requires FromIR(r, model, fallback).Ok?
    ensures Canonical(FromIR(r, model, fallback).value)
  {
    hide Leading, Merge, PrintMessage, StableMsg, Alternating, FlatMap, Collect, ReadChoice, PrintChoice;
    ChoiceReturns(r.toolChoice);
    var n := Leading(r.messages);
    var rest := r.messages[n..];
    LeadingStops(r.messages);
    PrintedTurns(rest);
    PrintedRoles(rest);
    MergeShape(Collect(PrintMessage, rest).value);
    CollectAll(PrintSystem, (b: Block) => b.TextB?, r.system + FlatMap(ContentOf, r.messages[..n]));
  }

  lemma {:induction false} TextsReturn(bs: seq<Block>)
    requires forall b :: b in bs ==> b.TextB?
    ensures Collect(ReadBlock, bs).Ok? && |Collect(ReadBlock, bs).value| == |bs|
    ensures Collect(PrintSystem, Collect(ReadBlock, bs).value) == Ok(bs)
  {
    forall b | b in bs
      ensures ReadBlock(b).Ok? && Collect(PrintSystem, ReadBlock(b).value) == Ok([Itself(b)])
    {
      CollectOne(PrintSystem, Text(b.text));
    }
    CollectTwice(ReadBlock, PrintSystem, Itself<Block>, bs);
    MapIdle(Itself<Block>, bs);
    OneEach(bs);
  }

  lemma {:induction false} OneEach(bs: seq<Block>)
    requires forall b :: b in bs ==> b.TextB?
    ensures Collect(ReadBlock, bs).Ok? && |Collect(ReadBlock, bs).value| == |bs|
    decreases |bs|
  {
    if bs != [] {
      OneEach(bs[..|bs| - 1]);
    }
  }

  /** An empty system prompt is the same as none. */
  function Trim(w: Wire): Wire {
    if w.system == Blocks([]) then w.(system := NoBody) else w
  }

  lemma {:induction false} ReadRoles(ms: seq<Msg>)
    requires Collect(ReadMessage, ms).Ok?
    ensures |Collect(ReadMessage, ms).value| == |ms|
    ensures forall k :: 0 <= k < |ms| ==> RoleOf(ms[k].role) == Ok(Collect(ReadMessage, ms).value[k].role)
    decreases |ms|
  {
    if ms != [] {
      ReadRoles(ms[..|ms| - 1]);
    }
  }

  lemma {:induction false} TurnsReturn(ms: seq<Msg>)
    requires forall m :: m in ms ==> StableMsg(m)
    ensures Collect(ReadMessage, ms).Ok? && Collect(PrintMessage, Collect(ReadMessage, ms).value) == Ok(ms)
  {
    forall m | m in ms
      ensures ReadMessage(m).Ok? && Collect(PrintMessage, ReadMessage(m).value) == Ok([Itself(m)])
    {
      StableMessageReturns(m);
    }
    hide ReadMessage, PrintMessage, StableMsg;
    CollectTwice(ReadMessage, PrintMessage, Itself<Msg>, ms);
    MapIdle(Itself<Msg>, ms);
  }

  lemma SystemReturns(b: Body)
    requires !b.Plain? && (b.Blocks? ==> forall x :: x in b.blocks ==> x.TextB?)
    ensures ReadBody(b).Ok?
    ensures var cs := ReadBody(b).value;
            Collect(PrintSystem, cs).Ok?
            && (if cs == [] then NoBody else Blocks(Collect(PrintSystem, cs).value))
                == (if b == Blocks([]) then NoBody else b)
  {
    if b.Blocks? { TextsReturn(b.blocks); }
  }

  lemma FirstReads(ms: seq<Msg>)
    requires Collect(ReadMessage, ms).Ok? && (ms != [] ==> ms[0].role != SystemR)
    ensures var q := Collect(ReadMessage, ms).value; q != [] ==> q[0].role != System
  {
    ReadRoles(ms);
  }

  /** Messages that do not open with a system turn are left to themselves. */
  lemma NothingToHoist(q: Request)
    requires q.messages != [] ==> q.messages[0].role != System
    ensures var n := Leading(q.messages);
            q.system + FlatMap(ContentOf, q.messages[..n]) == q.system && q.messages[n..] == q.messages
  {
    assert q.messages[..0] == [];
    assert FlatMap(ContentOf, q.messages[..0]) == [];
  }

  /** What is read from a canonical request, before it is put together. */
  lemma {:induction false} CanonicalParts(w: Wire)
    requires Canonical(w)
    ensures Collect(ReadMessage, w.messages).Ok? && ReadBody(w.system).Ok? && ReadChoice(w.choice).Ok?
    ensures var q := Collect(ReadMessage, w.messages).value;
            (q != [] ==> q[0].role != System) && Collect(PrintMessage, q) == Ok(w.messages)
    ensures Merge(w.messages) == w.messages
    ensures Map(WithSchema, w.tools) == w.tools
  {
    TurnsReturn(w.messages);
    FirstReads(w.messages);
    MergeShape(w.messages);
    SystemReturns(w.system);
    MapIdle(WithSchema, w.tools);
  }

  /** The parser undoes the printer, and the printer the parser, on everything the printer writes. */
  lemma CanonicalReturns(w: Wire, fallback: int)
    requires Canonical(w) && w.model != ""
    ensures ToIR(w).Ok? && ToIR(Trim(w)) == ToIR(w)
    ensures FromIR(ToIR(w).value, w.model, fallback) == Ok(Trim(w))
  {
    CanonicalParts(w);
    SystemReturns(w.system);
    assert PrintChoice(ReadChoice(w.choice).value) == w.choice && w.maxTokens == Limit(w.maxTokens, fallback);
    hide Canonical, Merge, ReadMessage, PrintMessage, Leading, WithSchema, PrintSystem, ReadChoice, PrintChoice;
    hide Collect, FlatMap, Map, Limit;
    NothingToHoist(ToIR(w).value);
  }

  function Pass(r: Request, model: string, fallback: int): Result<Request> {
    match FromIR(r, model, fallback)
    case Err(e) => Err(e)
    case Ok(w) => ToIR(w)
  }

  /** One pass settles everything: the next changes nothing, whatever default it is given. */
  lemma {:induction false} OnePassIsEnough(r: Request, model: string, fallback: int, later: int)
    requires Pass(r, model, fallback).Ok?
    ensures Pass(Pass(r, model, fallback).value, model, later) == Pass(r, model, fallback)
  {
    PrintedIsCanonical(r, model, fallback);
    CanonicalReturns(FromIR(r, model, fallback).value, later);
  }

  // ---- Tools ------------------------------------------------------------------------------------

  function BlockCall(b: Block): seq<ToolCall> {
    if b.ToolUseB? then [ToolCall(b.id, b.name, OrEmptyObject(b.input).text)] else []
  }

  function BlockResult(b: Block): seq<string> {
    if b.ToolResultB? then [b.toolUseId] else []
  }

  function MsgCalls(m: Msg): seq<ToolCall> {
    FlatMap(BlockCall, BlocksOf(m))
  }

  function MsgResults(m: Msg): seq<string> {
    FlatMap(BlockResult, BlocksOf(m))
  }

  function WireCalls(w: Wire): seq<ToolCall> {
    FlatMap(MsgCalls, w.messages)
  }

  function WireResults(w: Wire): seq<string> {
    FlatMap(MsgResults, w.messages)
  }

  lemma PrintedTools(m: Message)
    ensures PrintMessage(m).Ok? ==>
              FlatMap(MsgCalls, PrintMessage(m).value) == Calls(m)
                  && FlatMap(MsgResults, PrintMessage(m).value) == Results(m)
  {
    forall c | PrintBlock(c).Ok?
      ensures FlatMap(BlockCall, PrintBlock(c).value) == CallOf(c)
      ensures FlatMap(BlockResult, PrintBlock(c).value) == ResultOf(c)
    {
      if PrintBlock(c).value != [] {
        FlatMapOne(BlockCall, PrintBlock(c).value[0]);
        FlatMapOne(BlockResult, PrintBlock(c).value[0]);
      }
    }
    CollectFlat(PrintBlock, BlockCall, CallOf, m.content);
    CollectFlat(PrintBlock, BlockResult, ResultOf, m.content);
    if PrintMessage(m).Ok? {
      FlatMapOne(MsgCalls, PrintMessage(m).value[0]);
      FlatMapOne(MsgResults, PrintMessage(m).value[0]);
    }
  }

  lemma {:induction false} SystemHasNoTools(cs: seq<Content>)
    requires Collect(PrintSystem, cs).Ok?
    ensures FlatMap(CallOf, cs) == [] && FlatMap(ResultOf, cs) == []
    decreases |cs|
  {
    if cs != [] {
      SystemHasNoTools(cs[..|cs| - 1]);
    }
  }

  lemma ToolsAreAdditive()
    ensures Additive(MsgCalls) && Additive(MsgResults)
  {
    forall a, b | Same(a, b)
      ensures MsgCalls(Glue(a, b)) == MsgCalls(a) + MsgCalls(b)
      ensures MsgResults(Glue(a, b)) == MsgResults(a) + MsgResults(b)
    {
      FlatMapConcat(BlockCall, BlocksOf(a), BlocksOf(b));
      FlatMapConcat(BlockResult, BlocksOf(a), BlocksOf(b));
    }
  }

  lemma {:induction false} TurnsKeepTools(ms: seq<Message>)
    requires Collect(PrintMessage, ms).Ok?
    ensures var out := Merge(Collect(PrintMessage, ms).value);
            FlatMap(MsgCalls, out) == AllCalls(ms) && FlatMap(MsgResults, out) == AllResults(ms)
  {
    forall m | PrintMessage(m).Ok?
      ensures FlatMap(MsgCalls, PrintMessage(m).value) == Calls(m)
      ensures FlatMap(MsgResults, PrintMessage(m).value) == Results(m)
    {
      PrintedTools(m);
    }
    hide PrintMessage, Calls, Results, MsgCalls, MsgResults, Merge;
    CollectFlat(PrintMessage, MsgCalls, Calls, ms);
    CollectFlat(PrintMessage, MsgResults, Results, ms);
    ToolsAreAdditive();
    hide Additive;
    MergeKeeps(MsgCalls, Collect(PrintMessage, ms).value);
    MergeKeeps(MsgResults, Collect(PrintMessage, ms).value);
  }

  /** A request that can be sent keeps every tool call and every result, in order. */
  lemma KeepsTools(r: Request, model: string, fallback: int)
    requires FromIR(r, model, fallback).Ok?
    ensures var w := FromIR(r, model, fallback).value;
            WireCalls(w) == AllCalls(r.messages) && WireResults(w) == AllResults(r.messages)
  {
    hide Merge, PrintMessage, PrintSystem, Leading, Collect, FlatMap, Map;
    var n := Leading(r.messages);
    var lead, rest := r.messages[..n], r.messages[n..];
    TurnsKeepTools(rest);
    CollectConcat(PrintSystem, r.system, FlatMap(ContentOf, lead));
    SystemHasNoTools(FlatMap(ContentOf, lead));
    FlatMapCompose(ContentOf, CallOf, Calls, lead);
    FlatMapCompose(ContentOf, ResultOf, Results, lead);
    assert lead + rest == r.messages;
    FlatMapConcat(Calls, lead, rest);
    FlatMapConcat(Results, lead, rest);
  }

  lemma ReadTools(m: Msg)
    ensures ReadMessage(m).Ok? ==>
              FlatMap(Calls, ReadMessage(m).value) == MsgCalls(m)
                  && FlatMap(Results, ReadMessage(m).value) == MsgResults(m)
  {
    forall b | ReadBlock(b).Ok?
      ensures FlatMap(CallOf, ReadBlock(b).value) == BlockCall(b)
      ensures FlatMap(ResultOf, ReadBlock(b).value) == BlockResult(b)
    {
      FlatMapOne(CallOf, ReadBlock(b).value[0]);
      FlatMapOne(ResultOf, ReadBlock(b).value[0]);
    }
    CollectFlat(ReadBlock, CallOf, BlockCall, BlocksOf(m));
    CollectFlat(ReadBlock, ResultOf, BlockResult, BlocksOf(m));
    if ReadMessage(m).Ok? {
      var x := ReadMessage(m).value[0];
      FlatMapOne(Calls, x);
      FlatMapOne(Results, x);
      if m.content.Plain? {
        FlatMapOne(CallOf, x.content[0]);
        FlatMapOne(ResultOf, x.content[0]);
      }
    }
  }

  /** Reading a request finds every tool call and every result, in order. */
  lemma FindsTools(w: Wire)
    requires ToIR(w).Ok?
    ensures AllCalls(ToIR(w).value.messages) == WireCalls(w) && AllResults(ToIR(w).value.messages) == WireResults(w)
  {
    forall m | ReadMessage(m).Ok?
      ensures FlatMap(Calls, ReadMessage(m).value) == MsgCalls(m)
      ensures FlatMap(Results, ReadMessage(m).value) == MsgResults(m)
    {
      ReadTools(m);
    }
    CollectFlat(ReadMessage, Calls, MsgCalls, w.messages);
    CollectFlat(ReadMessage, Results, MsgResults, w.messages);
  }

  /** Calls only in assistant messages, results only in user messages. */
  predicate WireInPlace(w: Wire) {
    forall k :: 0 <= k < |w.messages| ==>
      && (w.messages[k].role != AssistantR ==> MsgCalls(w.messages[k]) == [])
      && (w.messages[k].role != UserR ==> MsgResults(w.messages[k]) == [])
  }

  lemma {:induction false} ReadOneByOne(ms: seq<Msg>, k: nat)
    requires Collect(ReadMessage, ms).Ok? && k < |ms|
    ensures |Collect(ReadMessage, ms).value| == |ms|
    ensures ReadMessage(ms[k]) == Ok([Collect(ReadMessage, ms).value[k]])
    decreases |ms|
  {
    var n := |ms| - 1;
    ReadRoles(ms);
    ReadRoles(ms[..n]);
    if k < n {
      ReadOneByOne(ms[..n], k);
    }
  }

  lemma {:induction false} InPlaceAt(ms: seq<Msg>, k: nat)
    requires Collect(ReadMessage, ms).Ok? && k < |ms|
    ensures |Collect(ReadMessage, ms).value| == |ms|
    ensures InPlace(Collect(ReadMessage, ms).value[k]) <==>
            (ms[k].role != AssistantR ==> MsgCalls(ms[k]) == []) && (ms[k].role != UserR ==> MsgResults(ms[k]) == [])
  {
    ReadRoles(ms);
    ReadOneByOne(ms, k);
    hide Collect, FlatMap;
    ReadTools(ms[k]);
    FlatMapOne(Calls, Collect(ReadMessage, ms).value[k]);
    FlatMapOne(Results, Collect(ReadMessage, ms).value[k]);
    hide ReadMessage, Calls, Results, MsgCalls, MsgResults;
  }

  /** Tool blocks are in place in what is read exactly when they are in the body. */
  lemma InPlaceExact(w: Wire)
    requires ToIR(w).Ok?
    ensures AllInPlace(ToIR(w).value.messages) <==> WireInPlace(w)
  {
    hide ReadMessage, Collect, MsgCalls, MsgResults, InPlace;
    var ms := w.messages;
    ReadRoles(ms);
    forall k | 0 <= k < |ms|
      ensures InPlace(Collect(ReadMessage, ms).value[k]) <==>
              (ms[k].role != AssistantR ==> MsgCalls(ms[k]) == []) && (ms[k].role != UserR ==> MsgResults(ms[k]) == [])
    {
      InPlaceAt(ms, k);
    }
  }
}
