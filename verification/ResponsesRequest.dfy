/** The OpenAI Responses request codec (internal/protocol/translate/openai_responses.go). */
module ResponsesRequest {
  import opened Folds
  import opened RequestIr

  datatype TextKind = InputText | OutputText | BareText

  datatype Part =
    | TextPart(kind: TextKind, text: string)
    | RefusalPart(text: string)
    | ImagePart(url: string)
    | OtherPart(kindName: string)

  datatype Body = NoBody | Plain(text: string) | Parts(parts: seq<Part>)

  /** `function_call_output.output`; parts are given by their texts. */
  datatype Output = NoOutput | OutText(text: string) | OutParts(texts: seq<string>) | OutOther(raw: string)

  datatype Item =
    | MessageItem(role: WireRole, content: Body)
    | CallItem(callId: string, name: string, args: Arguments)
    | OutputItem(callId: string, output: Output)
    | ReasoningItem(raw: string, summary: string)
    | OtherItem(kind: string)

  datatype Input = NoInput | Prompt(text: string) | Items(items: seq<Item>)

  datatype ToolW = FunctionTool(def: ToolDef) | Namespace(tools: seq<ToolW>) | HostedTool(kind: string)

  datatype Choice = NoChoice | Word(word: string) | Chosen(kind: string, name: string)

  datatype Wire = Wire(model: string, instructions: string, input: Input, tools: seq<ToolW>, choice: Choice,
                       parallel: Option<bool>, maxOutputTokens: Option<int>, temperature: Option<real>,
                       topP: Option<real>, stream: bool, format: Option<string>, previousResponseId: string)

  // ---- ToIR -------------------------------------------------------------------------------------

  function ReadPart(p: Part): Result<seq<Content>> {
    match p
    case TextPart(_, s) => Ok([Text(s)])
    case RefusalPart(s) => Ok([Text(s)])
    case ImagePart(u) => Ok([ImageOf(u)])
    case OtherPart(_) => Err("unsupported part type")
  }

  function ReadBody(b: Body): Result<seq<Content>> {
    match b
    case NoBody => Ok([])
    case Plain(s) => Ok([Text(s)])
    case Parts(ps) => Collect(ReadPart, ps)
  }

  function Itself(s: string): string { s }

  function ReadOutput(o: Output): Payload {
    match o
    case NoOutput => Str("")
    case OutText(s) => Str(s)
    case OutParts(texts) => Str(FlatMap(Itself, texts))
    case OutOther(raw) => OtherJson(raw)
  }

  /** What one item says, as a turn of its own. */
  function ReadItem(i: Item): Result<seq<Message>> {
    match i
    case MessageItem(role, body) =>
      var content := ReadBody(body);
      if content.Err? then Err(content.error)
      else if role == DeveloperR || role == SystemR then Ok([Message(System, content.value)])
      else if role == UserR then Ok([Message(User, content.value)])
      else if role == AssistantR then Ok([Message(Assistant, content.value)])
      else Err("unknown role")
    case CallItem(id, name, args) => Ok([Message(Assistant, [ToolUse(id, name, args.Read())])])
    case OutputItem(id, output) => Ok([Message(Tool, [ToolResult(id, ReadOutput(output), false)])])
    case ReasoningItem(raw, summary) => Ok([Message(Assistant, [Thinking(summary, "", ReasoningRaw(raw, summary))])])
    case OtherItem(_) => Err("unsupported item type")
  }

  /** Adding a turn: an assistant turn continues the one before it. */
  function AppendTurn(out: seq<Message>, m: Message): seq<Message> {
    var n := |out|;
    if m.role == Assistant && n > 0 && out[n - 1].role == Assistant
    then out[..n - 1] + [Message(Assistant, out[n - 1].content + m.content)]
    else out + [m]
  }

  function Join(ms: seq<Message>): seq<Message> {
    Fold(AppendTurn, [], ms)
  }

  function ReadInput(i: Input): Result<seq<Message>> {
    match i
    case NoInput => Ok([])
    case Prompt(s) => Ok([Message(User, [Text(s)])])
    case Items(items) =>
      var turns := Collect(ReadItem, items);
      if turns.Err? then turns else Ok(Join(turns.value))
  }

  /** `appendAssistant`, which edits the last message. */
  method AppendAssistant(messages: seq<Message>, cs: seq<Content>) returns (out: seq<Message>)
    ensures out == AppendTurn(messages, Message(Assistant, cs))
  {
    var n := |messages|;
    if n > 0 && messages[n - 1].role == Assistant {
      var last := messages[n - 1];
      out := messages[n - 1 := last.(content := last.content + cs)];
    } else {
      out := messages + [Message(Assistant, cs)];
    }
  }

  /** The item loop of `ToIR`. */
  method ReadItems(items: seq<Item>) returns (r: Result<seq<Message>>)
    ensures r == ReadInput(Items(items))
  {
    hide AppendTurn, Fold, Collect, ReadItem;
    var out: seq<Message> := [];
    ghost var turns: seq<Message> := [];
    CollectNone(ReadItem);
    JoinNone();
    assert items[..0] == [];
    for k := 0 to |items|
      invariant Collect(ReadItem, items[..k]) == Ok(turns) && out == Join(turns)
    {
      CollectSnoc(ReadItem, items[..k], items[k]);
      assert items[..k] + [items[k]] == items[..k + 1];
      var next := ReadItem(items[k]);
      if next.Err? {
        CollectConcat(ReadItem, items[..k + 1], items[k + 1..]);
        assert items[..k + 1] + items[k + 1..] == items;
        return next;
      }
      OneTurnEach(items[k]);
      var m := next.value[0];
      FoldSnoc(AppendTurn, [], turns, m);
      if m.role == Assistant {
        out := AppendAssistant(out, m.content);
      } else {
        NotAssistant(out, m);
        out := out + [m];
      }
      turns := turns + [m];
    }
    assert items[..|items|] == items;
    r := Ok(out);
  }

  lemma JoinNone()
    ensures Join([]) == []
  {
  }

  lemma NotAssistant(out: seq<Message>, m: Message)
    requires m.role != Assistant
    ensures AppendTurn(out, m) == out + [m]
  {
  }

  lemma OneTurnEach(i: Item)
    requires ReadItem(i).Ok?
    ensures |ReadItem(i).value| == 1 && ReadItem(i).value == [ReadItem(i).value[0]]
    ensures ReadItem(i).value[0] == Message(ReadItem(i).value[0].role, ReadItem(i).value[0].content)
  {
  }

  /** The functions of a tool definition; namespaces are flattened, hosted tools dropped. */
  function Flatten(t: ToolW): seq<ToolDef> {
    match t
    case FunctionTool(def) => [def]
    case Namespace(tools) => FlattenAll(tools)
    case HostedTool(_) => []
  }

  function FlattenAll(ts: seq<ToolW>): seq<ToolDef> {
    if ts == [] then [] else FlattenAll(ts[..|ts| - 1]) + Flatten(ts[|ts| - 1])
  }

  function ReadChoice(c: Choice): ToolChoice {
    match c
    case NoChoice => Unset
    case Word(s) => if s == "none" then Never else if s == "required" then Required else Unset
    case Chosen(kind, name) => if kind == "function" && name != "" then Named(name) else Unset
  }

  function ReadFormat(f: Option<string>): Option<string> {
    if f.Some? && (f.value == "" || f.value == "null") then None else f
  }

  function ReadSystem(instructions: string): seq<Content> {
    if instructions == "" then [] else [Text(instructions)]
  }

  function ToIR(w: Wire): Result<Request> {
    if w.model == "" then Err("model is required")
    else if w.previousResponseId != "" then Err("previous_response_id is not supported")
    else
      var messages := ReadInput(w.input);
      if messages.Err? then Err(messages.error)
      else Ok(Request(w.model, ReadSystem(w.instructions), messages.value, FlattenAll(w.tools), ReadChoice(w.choice),
                      w.parallel, w.maxOutputTokens, w.temperature, w.topP, [], w.stream, ReadFormat(w.format)))
  }

  // ---- FromIR -----------------------------------------------------------------------------------

  /** `toolResultString`: only a string result is marked as an error. */
  function ResultString(c: Content): string
    requires c.ToolResult?
  {
    if c.result.Str? then MarkError(c.result.text, c.isError) else c.result.AsText()
  }

  function PrintOutput(c: Content): seq<Item> {
    if c.ToolResult? then [OutputItem(c.id, OutText(ResultString(c)))] else []
  }

  function SystemPart(c: Content): seq<Part> {
    if c.Text? then [TextPart(InputText, c.text)] else []
  }

  function UserPart(c: Content): seq<Part> {
    if c.Text? then [TextPart(InputText, c.text)] else if c.Image? then [ImagePart(ImageUrl(c))] else []
  }

  function Flushed(role: WireRole, parts: seq<Part>): seq<Item> {
    if parts == [] then [] else [MessageItem(role, Parts(parts))]
  }

  /** An assistant turn being written: finished items, then text not yet flushed. */
  datatype Draft = Draft(items: seq<Item>, parts: seq<Part>) {
    function Flush(): Draft {
      Draft(items + Flushed(AssistantR, parts), [])
    }
  }

  function Write(d: Draft, c: Content): Draft {
    match c
    case Text(s) => d.(parts := d.parts + [TextPart(OutputText, s)])
    case ToolUse(id, name, input) => Draft(d.Flush().items + [CallItem(id, name, PrintArguments(input))], [])
    case Thinking(_, _, raw) =>
      if raw.ReasoningRaw? then Draft(d.Flush().items + [ReasoningItem(raw.raw, raw.summary)], []) else d.Flush()
    case Image(_, _, _) => d
    case ToolResult(_, _, _) => d
  }

  function PrintAssistant(cs: seq<Content>): seq<Item> {
    Fold(Write, Draft([], []), cs).Flush().items
  }

  function PrintMessage(m: Message): seq<Item> {
    match m.role
    case System => Flushed(DeveloperR, FlatMap(SystemPart, m.content))
    case User => FlatMap(PrintOutput, m.content) + Flushed(UserR, FlatMap(UserPart, m.content))
    case Tool => FlatMap(PrintOutput, m.content)
    case Assistant => PrintAssistant(m.content)
  }

  /** The loop for an assistant turn, with its `flushParts`. */
  method BuildAssistant(before: seq<Item>, cs: seq<Content>) returns (items: seq<Item>)
    ensures items == before + PrintAssistant(cs)
  {
    items := before;
    var parts: seq<Part> := [];
    ghost var d := Draft([], []);
    for k := 0 to |cs|
      invariant d == Fold(Write, Draft([], []), cs[..k]) && items == before + d.items && parts == d.parts
    {
      FoldSnoc(Write, Draft([], []), cs[..k], cs[k]);
      assert cs[..k] + [cs[k]] == cs[..k + 1];
      var c := cs[k];
      d := Write(d, c);
      if c.Text? {
        parts := parts + [TextPart(OutputText, c.text)];
      } else if c.ToolUse? || c.Thinking? {
        if |parts| > 0 {
          items := items + [MessageItem(AssistantR, Parts(parts))];
          parts := [];
        }
        if c.ToolUse? {
          items := items + [CallItem(c.id, c.name, PrintArguments(c.input))];
        } else if c.raw.ReasoningRaw? {
          items := items + [ReasoningItem(c.raw.raw, c.raw.summary)];
        }
      }
    }
    assert cs[..|cs|] == cs;
    if |parts| > 0 {
      items := items + [MessageItem(AssistantR, Parts(parts))];
    }
  }

  /** The loop for a user turn: results become items at once, text and images follow. */
  method BuildUser(before: seq<Item>, cs: seq<Content>) returns (items: seq<Item>)
    ensures items == before + (FlatMap(PrintOutput, cs) + Flushed(UserR, FlatMap(UserPart, cs)))
  {
    hide FlatMap, ImageUrl, MarkError;
    items := before;
    var parts: seq<Part> := [];
    FlatMapNothing(PrintOutput, []);
    FlatMapNothing(UserPart, []);
    assert cs[..0] == [];
    for k := 0 to |cs|
      invariant items == before + FlatMap(PrintOutput, cs[..k]) && parts == FlatMap(UserPart, cs[..k])
    {
      FlatMapSnoc(PrintOutput, cs[..k], cs[k]);
      FlatMapSnoc(UserPart, cs[..k], cs[k]);
      assert cs[..k] + [cs[k]] == cs[..k + 1];
      var c := cs[k];
      if c.Text? {
        parts := parts + [TextPart(InputText, c.text)];
      } else if c.Image? {
        parts := parts + [ImagePart(ImageUrl(c))];
      } else if c.ToolResult? {
        items := items + [OutputItem(c.id, OutText(ResultString(c)))];
      }
    }
    assert cs[..|cs|] == cs;
    if |parts| > 0 {
      items := items + [MessageItem(UserR, Parts(parts))];
    }
  }

  /** The message loop of `FromIR`. */
  method BuildItems(ms: seq<Message>) returns (items: seq<Item>)
    ensures items == FlatMap(PrintMessage, ms)
  {
    hide FlatMap;
    items := [];
    FlatMapNothing(PrintMessage, []);
    assert ms[..0] == [];
    for k := 0 to |ms|
      invariant items == FlatMap(PrintMessage, ms[..k])
    {
      var m := ms[k];
      FlatMapSnoc(PrintMessage, ms[..k], m);
      assert ms[..k] + [m] == ms[..k + 1];
      if m.role == Assistant {
        items := BuildAssistant(items, m.content);
      } else if m.role == User {
        items := BuildUser(items, m.content);
      } else if m.role == Tool {
        items := items + FlatMap(PrintOutput, m.content);
      } else {
        items := items + Flushed(DeveloperR, FlatMap(SystemPart, m.content));
      }
    }
    assert ms[..|ms|] == ms;
  }

  function PrintTool(t: ToolDef): ToolW {
    FunctionTool(WithSchema(t))
  }

  function PrintChoice(c: ToolChoice): Choice {
    match c
    case Unset => NoChoice
    case Auto => NoChoice
    case Required => Word("required")
    case Never => Word("none")
    case Named(name) => Chosen("function", name)
  }

  /** Printing never fails. */
  function FromIR(r: Request, providerModel: string): Wire {
    Wire(providerModel, JoinText(r.system), Items(FlatMap(PrintMessage, r.messages)), Map(PrintTool, r.tools),
         PrintChoice(r.toolChoice), r.parallel, PositiveOnly(r.maxTokens), r.temperature, r.topP, r.stream,
         Present(r.responseFormat), "")
  }

  // ---- Joining turns ------------------------------------------------------------------------------

  predicate NoPairs(ms: seq<Message>) {
    forall j, k :: 0 <= j < |ms| && 0 <= k < |ms| && k == j + 1 ==>
        !(ms[j].role == Assistant && ms[k].role == Assistant)
  }

  lemma AppendKeepsApart(out: seq<Message>, m: Message)
    requires NoPairs(out)
    ensures NoPairs(AppendTurn(out, m))
  {
  }

  lemma {:induction false} JoinKeepsApart(ms: seq<Message>)
    ensures NoPairs(Join(ms))
    decreases |ms|
  {
    if ms != [] {
      var n := |ms| - 1;
      JoinKeepsApart(ms[..n]);
      FoldSnoc(AppendTurn, [], ms[..n], ms[n]);
      assert ms[..n] + [ms[n]] == ms;
      hide NoPairs, AppendTurn;
      AppendKeepsApart(Join(ms[..n]), ms[n]);
    }
  }

  lemma {:induction false} JoinConcat(xs: seq<Message>, ys: seq<Message>)
    ensures Join(xs + ys) == Fold(AppendTurn, Join(xs), ys)
  {
    FoldConcat(AppendTurn, [], xs, ys);
  }

  /** Assistant turns in a row become one, after anything that is not an assistant turn. */
  lemma {:induction false} AssistantsJoin(out: seq<Message>, ms: seq<Message>)
    requires ms != [] && (forall m :: m in ms ==> m.role == Assistant)
    requires out != [] ==> out[|out| - 1].role != Assistant
    ensures Fold(AppendTurn, out, ms) == out + [Message(Assistant, FlatMap(ContentOf, ms))]
    decreases |ms|
  {
    hide Fold, FlatMap;
    var n := |ms| - 1;
    var front, m := ms[..n], ms[n];
    assert m in ms && m == Message(Assistant, m.content);
    if n == 0 {
      assert ms == [m];
      FoldOne(AppendTurn, out, m);
      FlatMapOne(ContentOf, m);
    } else {
      assert ms == front + [m];
      AssistantsJoin(out, front);
      FoldSnoc(AppendTurn, out, front, m);
      FlatMapSnoc(ContentOf, front, m);
      Continued(out, FlatMap(ContentOf, front), m);
    }
  }

  lemma Continued(out: seq<Message>, cs: seq<Content>, m: Message)
    requires m.role == Assistant
    ensures AppendTurn(out + [Message(Assistant, cs)], m) == out + [Message(Assistant, cs + m.content)]
  {
    var was := out + [Message(Assistant, cs)];
    assert was[..|out|] == out;
  }

  // ---- One turn through printer and parser ----------------------------------------------------------

  predicate IsReasoning(c: Content) {
    c.Thinking? && c.signature == "" && c.raw.ReasoningRaw? && c.text == c.raw.summary
  }

  predicate AssistantContent(c: Content) {
    c.Text? || IsCall(c) || IsReasoning(c)
  }

  /** The turns the parser makes of what the printer wrote. */
  predicate Regular(m: Message) {
    && m.content != []
    && match m.role
       case System => forall c :: c in m.content ==> c.Text?
       case User => forall c :: c in m.content ==> IsPart(c) && Settles(c)
       case Tool => |m.content| == 1 && m.content[0].ToolResult? && m.content[0].result.Str? && !m.content[0].isError
       case Assistant => forall c :: c in m.content ==> AssistantContent(c)
  }

  predicate AllAssistant(ms: seq<Message>) {
    forall m :: m in ms ==> m.role == Assistant
  }

  /** Items of one assistant turn, read back. */
  predicate Speaks(items: seq<Item>, cs: seq<Content>) {
    && Collect(ReadItem, items).Ok?
    && AllAssistant(Collect(ReadItem, items).value)
    && FlatMap(ContentOf, Collect(ReadItem, items).value) == cs
  }

  lemma SpeaksMore(items: seq<Item>, cs: seq<Content>, i: Item, more: seq<Content>)
    requires Speaks(items, cs) && ReadItem(i) == Ok([Message(Assistant, more)])
    ensures Speaks(items + [i], cs + more)
  {
    hide ReadItem, FlatMap, Collect;
    CollectSnoc(ReadItem, items, i);
    FlatMapSnoc(ContentOf, Collect(ReadItem, items).value, Message(Assistant, more));
  }

  /** A draft says what its items say and then its pending text. */
  predicate Drafts(d: Draft, said: seq<Content>, pending: seq<Content>) {
    Speaks(d.items, said) && Collect(ReadPart, d.parts) == Ok(pending) && (pending == [] ==> d.parts == [])
  }

  lemma {:induction false} FlushSpeaks(d: Draft, said: seq<Content>, pending: seq<Content>)
    requires Drafts(d, said, pending)
    ensures Speaks(d.Flush().items, said + pending) && Drafts(d.Flush(), said + pending, [])
  {
    CollectNone(ReadPart);
    hide Speaks, Collect;
    if d.parts != [] {
      SpeaksMore(d.items, said, MessageItem(AssistantR, Parts(d.parts)), pending);
    } else {
      assert d.items + [] == d.items && said + pending == said;
    }
  }

  lemma {:induction false} AssistantSpeaks(cs: seq<Content>) returns (said: seq<Content>, pending: seq<Content>)
    requires forall c :: c in cs ==> AssistantContent(c)
    ensures Drafts(Fold(Write, Draft([], []), cs), said, pending) && said + pending == cs
    decreases |cs|
  {
    if cs == [] {
      said, pending := [], [];
      FlatMapNothing(ContentOf, []);
    } else {
      var n := |cs| - 1;
      var c := cs[n];
      var d := Fold(Write, Draft([], []), cs[..n]);
      assert c in cs && cs == cs[..n] + [c];
      FoldSnoc(Write, Draft([], []), cs[..n], c);
      hide Fold, FlatMap, Collect;
      said, pending := AssistantSpeaks(cs[..n]);
      if c.Text? {
        CollectSnoc(ReadPart, d.parts, TextPart(OutputText, c.text));
        pending := pending + [c];
      } else {
        FlushSpeaks(d, said, pending);
        said, pending := cs[..n], [];
        var item := if c.ToolUse? then CallItem(c.id, c.name, PrintArguments(c.input))
                    else ReasoningItem(c.raw.raw, c.raw.summary);
        SpeaksMore(d.Flush().items, said, item, [c]);
        said := said + [c];
      }
    }
  }

  lemma AssistantReturns(cs: seq<Content>)
    requires forall c :: c in cs ==> AssistantContent(c)
    ensures Speaks(PrintAssistant(cs), cs)
  {
    var said, pending := AssistantSpeaks(cs);
    FlushSpeaks(Fold(Write, Draft([], []), cs), said, pending);
  }

  lemma {:induction false} UserReads(cs: seq<Content>)
    requires forall c :: c in cs ==> IsPart(c)
    ensures Collect(ReadPart, FlatMap(UserPart, cs)) == Ok(Map(Settle, cs)) && |FlatMap(UserPart, cs)| == |cs|
    ensures FlatMap(PrintOutput, cs) == []
    decreases |cs|
  {
    if cs != [] {
      var n := |cs| - 1;
      assert cs[n] in cs;
      UserReads(cs[..n]);
      CollectSnoc(ReadPart, FlatMap(UserPart, cs[..n]), UserPart(cs[n])[0]);
    }
  }

  lemma {:induction false} SystemReads(cs: seq<Content>)
    requires forall c :: c in cs ==> c.Text?
    ensures Collect(ReadPart, FlatMap(SystemPart, cs)) == Ok(cs) && |FlatMap(SystemPart, cs)| == |cs|
    decreases |cs|
  {
    if cs != [] {
      var n := |cs| - 1;
      assert cs[n] in cs && cs == cs[..n] + [cs[n]];
      SystemReads(cs[..n]);
      CollectSnoc(ReadPart, FlatMap(SystemPart, cs[..n]), SystemPart(cs[n])[0]);
    }
  }

  /** What comes back from a regular turn. */
  predicate Returns(m: Message, back: Result<seq<Message>>) {
    && back.Ok?
    && if m.role == Assistant
       then back.value != [] && AllAssistant(back.value) && m == Message(Assistant, FlatMap(ContentOf, back.value))
       else back.value == [SettleMessage(m)]
  }

  lemma TurnReturns(m: Message)
    requires Regular(m)
    ensures Returns(m, Collect(ReadItem, PrintMessage(m)))
    ensures m.role == Assistant ==> SettleMessage(m) == m
  {
    hide Collect, FlatMap, Map;
    match m.role {
      case Assistant =>
        AssistantReturns(m.content);
        NoImageNoChange(m);
        hide PrintAssistant;
        var back := Collect(ReadItem, PrintMessage(m)).value;
        if back == [] { FlatMapNothing(ContentOf, back); }
      case User =>
        UserReads(m.content);
        var item := MessageItem(UserR, Parts(FlatMap(UserPart, m.content)));
        CollectOne(ReadItem, item);
        assert [] + [item] == [item];
      case System =>
        SystemReads(m.content);
        NoImageNoChange(m);
        CollectOne(ReadItem, MessageItem(DeveloperR, Parts(FlatMap(SystemPart, m.content))));
      case Tool =>
        assert m.content == [m.content[0]];
        NoImageNoChange(m);
        FlatMapOne(PrintOutput, m.content[0]);
        CollectOne(ReadItem, PrintOutput(m.content[0])[0]);
    }
  }

  /** Regular turns, no two of them assistant turns in a row, come back one by one. */
  lemma {:induction false} TurnsReturn(ms: seq<Message>)
    requires (forall m :: m in ms ==> Regular(m)) && NoPairs(ms)
    ensures ReadInput(Items(FlatMap(PrintMessage, ms))) == Ok(Map(SettleMessage, ms))
    decreases |ms|
  {
    if ms != [] {
      hide Regular, PrintMessage, ReadItem, AppendTurn, SettleMessage;
      hide Collect, Fold, FlatMap;
      var n := |ms| - 1;
      var front, m := ms[..n], ms[n];
      assert m in ms && ms == front + [m];
      TurnsReturn(front);
      TurnReturns(m);
      var items := FlatMap(PrintMessage, front);
      FlatMapSnoc(PrintMessage, front, m);
      var was, back := Collect(ReadItem, items).value, Collect(ReadItem, PrintMessage(m)).value;
      CollectConcat(ReadItem, items, PrintMessage(m));
      JoinConcat(was, back);
      OneMore(front, m, back);
    }
  }

  lemma {:induction false} OneMore(front: seq<Message>, m: Message, back: seq<Message>)
    requires NoPairs(front + [m]) && Returns(m, Ok(back)) && (m.role == Assistant ==> SettleMessage(m) == m)
    ensures Fold(AppendTurn, Map(SettleMessage, front), back) == Map(SettleMessage, front) + [SettleMessage(m)]
  {
    var out := Map(SettleMessage, front);
    if m.role == Assistant {
      if front != [] {
        var ms, n := front + [m], |front|;
        assert ms[n - 1] == front[n - 1] && ms[n] == m;
      }
      hide Map;
      AssistantsJoin(out, back);
    } else {
      hide Map;
      FoldOne(AppendTurn, out, SettleMessage(m));
      NotAssistant(out, SettleMessage(m));
    }
  }

  // ---- What the printer writes --------------------------------------------------------------------

  predicate PrintedPart(p: Part) {
    p.TextPart? || (p.ImagePart? && p.url != "")
  }

  predicate PrintedItem(i: Item) {
    match i
    case MessageItem(role, body) =>
      && body.Parts?
      && body.parts != []
      && (role == DeveloperR || role == UserR || role == AssistantR)
      && (forall p :: p in body.parts ==> PrintedPart(p))
      && (role != UserR ==> forall p :: p in body.parts ==> p.TextPart?)
    case CallItem(_, _, _) => true
    case OutputItem(_, output) => output.OutText?
    case ReasoningItem(_, _) => true
    case OtherItem(_) => false
  }

  predicate PrintedDraft(d: Draft) {
    (forall i :: i in d.items ==> PrintedItem(i)) && forall p :: p in d.parts ==> p.TextPart?
  }

  lemma FlushPrints(d: Draft)
    requires PrintedDraft(d)
    ensures PrintedDraft(d.Flush())
  {
  }

  lemma {:induction false} AssistantPrints(cs: seq<Content>)
    ensures PrintedDraft(Fold(Write, Draft([], []), cs))
    decreases |cs|
  {
    if cs != [] {
      var n := |cs| - 1;
      AssistantPrints(cs[..n]);
      FoldSnoc(Write, Draft([], []), cs[..n], cs[n]);
      assert cs[..n] + [cs[n]] == cs;
      hide Fold;
      FlushPrints(Fold(Write, Draft([], []), cs[..n]));
    }
  }

  lemma MessagePrints(m: Message)
    ensures forall i :: i in PrintMessage(m) ==> PrintedItem(i)
  {
    match m.role {
      case Assistant =>
        AssistantPrints(m.content);
        hide Fold;
        FlushPrints(Fold(Write, Draft([], []), m.content));
      case System =>
        FlatMapAll(SystemPart, (p: Part) => p.TextPart?, m.content);
        hide FlatMap;
      case User =>
        FlatMapAll(PrintOutput, PrintedItem, m.content);
        FlatMapAll(UserPart, PrintedPart, m.content);
        hide FlatMap;
      case Tool =>
        FlatMapAll(PrintOutput, PrintedItem, m.content);
    }
  }

  lemma {:induction false} PartsRead(ps: seq<Part>)
    requires forall p :: p in ps ==> PrintedPart(p)
    ensures Collect(ReadPart, ps).Ok? && |Collect(ReadPart, ps).value| == |ps|
    ensures forall c :: c in Collect(ReadPart, ps).value ==> IsPart(c) && Settles(c)
    ensures (forall p :: p in ps ==> p.TextPart?) ==> forall c :: c in Collect(ReadPart, ps).value ==> c.Text?
    decreases |ps|
  {
    if ps != [] {
      var n := |ps| - 1;
      var p := ps[n];
      assert p in ps;
      PartsRead(ps[..n]);
      if p.ImagePart? { ReadImageSettles(p.url); } else { TextSettles(p.text); }
      hide Settles;
      assert forall q :: q in ps[..n] ==> q in ps;
    }
  }

  lemma ItemReads(i: Item)
    requires PrintedItem(i)
    ensures ReadItem(i).Ok? && |ReadItem(i).value| == 1 && Regular(ReadItem(i).value[0])
  {
    if i.MessageItem? {
      hide Collect, Settles;
      PartsRead(i.content.parts);
    }
  }

  lemma {:induction false} ItemsRead(items: seq<Item>)
    requires forall i :: i in items ==> PrintedItem(i)
    ensures Collect(ReadItem, items).Ok? && forall m :: m in Collect(ReadItem, items).value ==> Regular(m)
    decreases |items|
  {
    if items != [] {
      hide ReadItem, PrintedItem, Regular;
      var n := |items| - 1;
      ItemsRead(items[..n]);
      assert items[n] in items;
      ItemReads(items[n]);
    }
  }

  lemma AppendKeepsRegular(out: seq<Message>, m: Message)
    requires Regular(m) && forall x :: x in out ==> Regular(x)
    ensures forall x :: x in AppendTurn(out, m) ==> Regular(x)
  {
    hide Settles;
    var n := |out|;
    if m.role == Assistant && n > 0 && out[n - 1].role == Assistant {
      assert out[n - 1] in out;
      assert Regular(Message(Assistant, out[n - 1].content + m.content));
      hide Regular;
    }
  }

  lemma {:induction false} JoinKeepsRegular(ms: seq<Message>)
    requires forall m :: m in ms ==> Regular(m)
    ensures forall m :: m in Join(ms) ==> Regular(m)
    decreases |ms|
  {
    if ms != [] {
      var n := |ms| - 1;
      hide Regular, AppendTurn;
      JoinKeepsRegular(ms[..n]);
      FoldSnoc(AppendTurn, [], ms[..n], ms[n]);
      assert ms[..n] + [ms[n]] == ms && ms[n] in ms;
      AppendKeepsRegular(Join(ms[..n]), ms[n]);
    }
  }

  /** Whatever the turns were, what comes back is regular and has no two assistant turns in a row. */
  lemma PrintedReads(ms: seq<Message>)
    ensures var back := ReadInput(Items(FlatMap(PrintMessage, ms)));
            back.Ok? && (forall m :: m in back.value ==> Regular(m)) && NoPairs(back.value)
  {
    hide PrintedItem, PrintMessage, Regular, NoPairs, Collect, FlatMap, Join;
    forall m, i | m in ms && i in PrintMessage(m)
      ensures PrintedItem(i)
    {
      MessagePrints(m);
    }
    FlatMapAll(PrintMessage, PrintedItem, ms);
    var items := FlatMap(PrintMessage, ms);
    ItemsRead(items);
    JoinKeepsRegular(Collect(ReadItem, items).value);
    JoinKeepsApart(Collect(ReadItem, items).value);
  }

  // ---- Whole requests -----------------------------------------------------------------------------

  /** What the parser makes of anything the printer wrote. */
  predicate RegularRequest(q: Request) {
    && q.model != ""
    && q.system == ReadSystem(JoinText(q.system))
    && (forall m :: m in q.messages ==> Regular(m))
    && NoPairs(q.messages)
    && (forall t :: t in q.tools ==> WithSchema(t) == t)
    && ReadChoice(PrintChoice(q.toolChoice)) == q.toolChoice
    && PositiveOnly(q.maxTokens) == q.maxTokens
    && ReadFormat(q.responseFormat) == q.responseFormat
    && q.stop == []
  }

  /** What one more pass does: images settle. */
  function SettleRequest(q: Request): Request {
    q.(messages := Map(SettleMessage, q.messages))
  }

  function Pass(r: Request, model: string): Result<Request> {
    ToIR(FromIR(r, model))
  }

  lemma {:induction false} ToolsReturn(ts: seq<ToolDef>)
    ensures FlattenAll(Map(PrintTool, ts)) == Map(WithSchema, ts)
    decreases |ts|
  {
    if ts != [] {
      var n := |ts| - 1;
      ToolsReturn(ts[..n]);
      var front, last := Map(PrintTool, ts[..n]), PrintTool(ts[n]);
      assert Map(PrintTool, ts) == front + [last];
      assert (front + [last])[..n] == front;
    }
  }

  lemma SystemReturns(s: string)
    ensures ReadSystem(JoinText(ReadSystem(s))) == ReadSystem(s)
  {
    JoinOne(s);
  }

  lemma ChoiceReturns(c: ToolChoice)
    ensures ReadChoice(PrintChoice(ReadChoice(PrintChoice(c)))) == ReadChoice(PrintChoice(c))
  {
  }

  lemma OnePassIsRegular(r: Request, model: string)
    requires model != ""
    ensures Pass(r, model).Ok? && RegularRequest(Pass(r, model).value)
  {
    hide ReadInput, FlatMap, Map, Regular, NoPairs, ReadChoice, PrintChoice, WithSchema, FlattenAll, JoinText,
        ReadSystem;
    PrintedReads(r.messages);
    SystemReturns(JoinText(r.system));
    ToolsReturn(r.tools);
    SchemasAreSet(r.tools);
    ChoiceReturns(r.toolChoice);
  }

  /** A pass over a regular request, exactly. */
  lemma PassOnRegular(q: Request)
    requires RegularRequest(q)
    ensures Pass(q, q.model) == Ok(SettleRequest(q))
  {
    hide ReadInput, FlatMap, Map, Regular, NoPairs, ReadChoice, PrintChoice, WithSchema, FlattenAll, JoinText,
        ReadSystem;
    TurnsReturn(q.messages);
    ToolsReturn(q.tools);
    MapIdle(WithSchema, q.tools);
  }

  lemma RegularStays(m: Message)
    requires Regular(m)
    ensures Regular(SettleMessage(m)) && SettleMessage(SettleMessage(m)) == SettleMessage(m)
  {
    if m.role == User {
      SettledStays(m);
      hide Map;
      var s := SettleMessage(m);
      forall c | c in s.content
        ensures IsPart(c) && Settles(c)
      {
        var k :| 0 <= k < |s.content| && s.content[k] == c;
        assert m.content[k] in m.content && c == Settle(m.content[k]);
      }
    } else {
      NoImageNoChange(m);
    }
  }

  lemma {:induction false} SettledTurns(ms: seq<Message>)
    requires forall m :: m in ms ==> Regular(m)
    ensures forall m :: m in Map(SettleMessage, ms) ==> Regular(m) && SettleMessage(m) == m
    decreases |ms|
  {
    hide Regular, SettleMessage;
    if ms != [] {
      SettledTurns(ms[..|ms| - 1]);
      assert ms[|ms| - 1] in ms;
      RegularStays(ms[|ms| - 1]);
    }
  }

  lemma SettledIsRegular(q: Request)
    requires RegularRequest(q)
    ensures RegularRequest(SettleRequest(q)) && SettleRequest(SettleRequest(q)) == SettleRequest(q)
  {
    hide Regular, Map, WithSchema, ReadChoice, PrintChoice, JoinText, ReadSystem;
    SettledTurns(q.messages);
    MapIdle(SettleMessage, Map(SettleMessage, q.messages));
    assert forall k :: 0 <= k < |q.messages| ==> Map(SettleMessage, q.messages)[k].role == q.messages[k].role;
  }

  // ---- When one pass is enough ----------------------------------------------------------------------

  function PartUrl(p: Part): seq<string> {
    if p.ImagePart? then [p.url] else []
  }

  function ItemUrls(i: Item): seq<string> {
    if i.MessageItem? && i.content.Parts? then FlatMap(PartUrl, i.content.parts) else []
  }

  function PartImages(p: Part): seq<Content> {
    FlatMap(ReadUrl, PartUrl(p))
  }

  function ItemImages(i: Item): seq<Content> {
    FlatMap(ReadUrl, ItemUrls(i))
  }

  ghost predicate Imageless(d: Draft) {
    (forall i :: i in d.items ==> ItemUrls(i) == []) && forall p :: p in d.parts ==> PartUrl(p) == []
  }

  lemma FlushIsImageless(d: Draft)
    requires Imageless(d)
    ensures Imageless(d.Flush())
  {
    hide FlatMap;
    if d.parts != [] {
      FlatMapNothing(PartUrl, d.parts);
      assert ItemUrls(MessageItem(AssistantR, Parts(d.parts))) == [];
    }
  }

  lemma {:induction false} AssistantIsImageless(cs: seq<Content>)
    ensures Imageless(Fold(Write, Draft([], []), cs))
    decreases |cs|
  {
    if cs != [] {
      var n := |cs| - 1;
      AssistantIsImageless(cs[..n]);
      FoldSnoc(Write, Draft([], []), cs[..n], cs[n]);
      assert cs[..n] + [cs[n]] == cs;
      hide Fold, FlatMap;
      FlushIsImageless(Fold(Write, Draft([], []), cs[..n]));
    }
  }

  lemma UserUrls(cs: seq<Content>)
    ensures FlatMap(ItemUrls, FlatMap(PrintOutput, cs) + Flushed(UserR, FlatMap(UserPart, cs))) == FlatMap(UrlOf, cs)
  {
    hide FlatMap, ImageUrl, MarkError;
    var outs, parts := FlatMap(PrintOutput, cs), FlatMap(UserPart, cs);
    FlatMapAll(PrintOutput, (i: Item) => i.OutputItem?, cs);
    FlatMapNothing(ItemUrls, outs);
    FlatMapConcat(ItemUrls, outs, Flushed(UserR, parts));
    forall c
      ensures FlatMap(PartUrl, UserPart(c)) == UrlOf(c)
    {
      if IsPart(c) { FlatMapOne(PartUrl, UserPart(c)[0]); } else { FlatMapNothing(PartUrl, UserPart(c)); }
    }
    FlatMapCompose(UserPart, PartUrl, UrlOf, cs);
    if parts == [] {
      FlatMapNothing(PartUrl, parts);
      FlatMapNothing(ItemUrls, Flushed(UserR, parts));
    } else {
      FlatMapOne(ItemUrls, MessageItem(UserR, Parts(parts)));
    }
  }

  lemma PrintedUrls(m: Message)
    ensures FlatMap(ItemUrls, PrintMessage(m)) == TurnUrls(m)
  {
    hide FlatMap, MarkError;
    match m.role {
      case User => UserUrls(m.content);
      case Tool =>
        FlatMapAll(PrintOutput, (i: Item) => i.OutputItem?, m.content);
        FlatMapNothing(ItemUrls, PrintMessage(m));
      case Assistant =>
        AssistantIsImageless(m.content);
        FlushIsImageless(Fold(Write, Draft([], []), m.content));
        FlatMapNothing(ItemUrls, PrintMessage(m));
      case System =>
        var parts := FlatMap(SystemPart, m.content);
        FlatMapAll(SystemPart, (p: Part) => p.TextPart?, m.content);
        FlatMapNothing(PartUrl, parts);
        FlatMapNothing(ItemUrls, PrintMessage(m));
    }
  }

  lemma PartsImages(ps: seq<Part>)
    requires Collect(ReadPart, ps).Ok?
    ensures FlatMap(OnlyImage, Collect(ReadPart, ps).value) == FlatMap(ReadUrl, FlatMap(PartUrl, ps))
  {
    hide FlatMap, Collect, ParseDataUrl;
    forall p | ReadPart(p).Ok?
      ensures FlatMap(OnlyImage, ReadPart(p).value) == PartImages(p)
    {
      var c := ReadPart(p).value[0];
      FlatMapOne(OnlyImage, c);
      if p.ImagePart? { FlatMapOne(ReadUrl, p.url); } else { FlatMapNothing(ReadUrl, PartUrl(p)); }
    }
    CollectFlat(ReadPart, OnlyImage, PartImages, ps);
    FlatMapCompose(PartUrl, ReadUrl, PartImages, ps);
  }

  lemma ReadImages(i: Item)
    requires ReadItem(i).Ok?
    ensures FlatMap(TurnImages, ReadItem(i).value) == ItemImages(i)
  {
    hide FlatMap, Collect;
    OneTurnEach(i);
    var m := ReadItem(i).value[0];
    FlatMapOne(TurnImages, m);
    if i.MessageItem? && i.content.Parts? {
      PartsImages(i.content.parts);
    } else {
      FlatMapNothing(ReadUrl, ItemUrls(i));
      FlatMapNothing(OnlyImage, m.content);
    }
  }

  lemma {:induction false} JoinKeepsImages(ms: seq<Message>)
    ensures FlatMap(TurnImages, Join(ms)) == FlatMap(TurnImages, ms)
    decreases |ms|
  {
    if ms != [] {
      var n := |ms| - 1;
      var front, m := ms[..n], ms[n];
      JoinKeepsImages(front);
      hide FlatMap, AppendTurn;
      FoldSnoc(AppendTurn, [], front, m);
      FlatMapSnoc(TurnImages, front, m);
      assert ms == front + [m];
      AppendKeepsImages(Join(front), m);
    }
  }

  lemma AppendKeepsImages(out: seq<Message>, m: Message)
    ensures FlatMap(TurnImages, AppendTurn(out, m)) == FlatMap(TurnImages, out) + TurnImages(m)
  {
    hide FlatMap;
    var n := |out|;
    if m.role == Assistant && n > 0 && out[n - 1].role == Assistant {
      var front, last := out[..n - 1], out[n - 1];
      var both := Message(Assistant, last.content + m.content);
      assert out == front + [last];
      FlatMapConcat(OnlyImage, last.content, m.content);
      FlatMapSnoc(TurnImages, front, last);
      FlatMapSnoc(TurnImages, front, both);
    } else {
      FlatMapSnoc(TurnImages, out, m);
    }
  }

  /** The images after one pass are those read from the URLs that the user turns print, in order. */
  lemma {:induction false} PassImages(ms: seq<Message>)
    ensures var back := ReadInput(Items(FlatMap(PrintMessage, ms)));
            back.Ok? && FlatMap(TurnImages, back.value) == FlatMap(ReadUrl, FlatMap(TurnUrls, ms))
  {
    PrintedReads(ms);
    hide FlatMap, PrintMessage, ReadItem, Regular, Join, TurnUrls, TurnImages, ItemUrls;
    var items := FlatMap(PrintMessage, ms);
    forall m ensures FlatMap(ItemUrls, PrintMessage(m)) == TurnUrls(m) {
      PrintedUrls(m);
    }
    FlatMapCompose(PrintMessage, ItemUrls, TurnUrls, ms);
    forall i | ReadItem(i).Ok? ensures FlatMap(TurnImages, ReadItem(i).value) == ItemImages(i) {
      ReadImages(i);
    }
    CollectFlat(ReadItem, TurnImages, ItemImages, items);
    FlatMapCompose(ItemUrls, ReadUrl, ItemImages, items);
    JoinKeepsImages(Collect(ReadItem, items).value);
  }

  /** Two passes settle everything, and one is enough exactly when no image of a user turn has a data
      URL without a media type. */
  lemma {:induction false} TwoPassesAreEnough(r: Request, model: string)
    requires model != ""
    ensures Pass(r, model).Ok? && Pass(Pass(r, model).value, model).Ok?
    ensures var once := Pass(r, model).value; var twice := Pass(once, model).value;
            Pass(twice, model) == Ok(twice) && (twice == once <==> ImagesStable(r.messages))
  {
    OnePassIsRegular(r, model);
    OnlyMessages(r, model);
    PassImages(r.messages);
    var once := Pass(r, model).value;
    assert once.model == model;
    hide Pass, RegularRequest, FlatMap, Map, ImagesStable, ReadInput;
    SettledAtOnce(r.messages, once.messages);
    PassOnRegular(once);
    SettledIsRegular(once);
    PassOnRegular(SettleRequest(once));
  }

  /** A data URL without a media type is split by the first pass and given one only by the second. */
  lemma {:induction false} OnePassIsNotEnough(model: string)
    requires model != ""
    ensures var turn := Message(User, [Image("", "", "data:;base64,x")]);
            var r := Request("m", [], [turn], [], Unset, None, None, None, None, [], false, None);
            Pass(r, model).Ok? && Pass(Pass(r, model).value, model) != Pass(r, model)
  {
    var c, u := Image("", "", "data:;base64,x"), "data:;base64,x";
    var turn := Message(User, [c]);
    var r := Request("m", [], [turn], [], Unset, None, None, None, None, [], false, None);
    assert u[|SCHEME|..] == ";base64,x" && MARKER <= ";base64,x";
    assert !StableUrl(ImageUrl(c)) && c in turn.content && turn in r.messages;
    hide StableUrl, ImageUrl, Pass;
    TwoPassesAreEnough(r, model);
  }

  lemma OnlyMessages(r: Request, model: string)
    requires Pass(r, model).Ok?
    ensures ReadInput(Items(FlatMap(PrintMessage, r.messages))) == Ok(Pass(r, model).value.messages)
  {
  }

  // ---- Tools ------------------------------------------------------------------------------------

  /** A call as the body has it, its arguments to the letter. */
  function ItemCalls(i: Item): seq<ToolCall> {
    if i.CallItem? then [ToolCall(i.callId, i.name, i.args.Raw())] else []
  }

  /** A call as the parser understands it. */
  function ParsedCalls(i: Item): seq<ToolCall> {
    if i.CallItem? then [ToolCall(i.callId, i.name, i.args.Read().text)] else []
  }

  /** Every call's arguments are empty or valid JSON. */
  predicate ArgumentsIntact(w: Wire) {
    forall i :: i in ItemsOf(w) && i.CallItem? ==> i.args.Intact()
  }

  function ItemResults(i: Item): seq<string> {
    if i.OutputItem? then [i.callId] else []
  }

  function ItemsOf(w: Wire): seq<Item> {
    if w.input.Items? then w.input.items else []
  }

  function WireCalls(w: Wire): seq<ToolCall> {
    FlatMap(ItemCalls, ItemsOf(w))
  }

  function WireResults(w: Wire): seq<string> {
    FlatMap(ItemResults, ItemsOf(w))
  }

  lemma FlushKeepsTools(d: Draft)
    ensures FlatMap(ItemCalls, d.Flush().items) == FlatMap(ItemCalls, d.items)
    ensures FlatMap(ItemResults, d.Flush().items) == FlatMap(ItemResults, d.items)
  {
    FlatMapConcat(ItemCalls, d.items, Flushed(AssistantR, d.parts));
    FlatMapConcat(ItemResults, d.items, Flushed(AssistantR, d.parts));
    FlatMapNothing(ItemCalls, Flushed(AssistantR, d.parts));
    FlatMapNothing(ItemResults, Flushed(AssistantR, d.parts));
  }

  lemma WriteKeepsTools(d: Draft, c: Content)
    ensures FlatMap(ItemCalls, Write(d, c).items) == FlatMap(ItemCalls, d.items) + CallOf(c)
    ensures FlatMap(ItemResults, Write(d, c).items) == FlatMap(ItemResults, d.items)
  {
    hide FlatMap;
    FlushKeepsTools(d);
    if c.ToolUse? {
      var item := CallItem(c.id, c.name, PrintArguments(c.input));
      FlatMapSnoc(ItemCalls, d.Flush().items, item);
      FlatMapSnoc(ItemResults, d.Flush().items, item);
    } else if c.Thinking? && c.raw.ReasoningRaw? {
      var item := ReasoningItem(c.raw.raw, c.raw.summary);
      FlatMapSnoc(ItemCalls, d.Flush().items, item);
      FlatMapSnoc(ItemResults, d.Flush().items, item);
    }
  }

  lemma {:induction false} AssistantTools(cs: seq<Content>)
    ensures var d := Fold(Write, Draft([], []), cs);
            FlatMap(ItemCalls, d.items) == FlatMap(CallOf, cs) && FlatMap(ItemResults, d.items) == []
    decreases |cs|
  {
    if cs != [] {
      hide Fold, FlatMap, Write;
      var n := |cs| - 1;
      var front, c := cs[..n], cs[n];
      assert cs == front + [c];
      AssistantTools(front);
      FoldSnoc(Write, Draft([], []), front, c);
      FlatMapSnoc(CallOf, front, c);
      WriteKeepsTools(Fold(Write, Draft([], []), front), c);
    }
  }

  lemma OutputTools(cs: seq<Content>)
    ensures FlatMap(ItemCalls, FlatMap(PrintOutput, cs)) == []
    ensures FlatMap(ItemResults, FlatMap(PrintOutput, cs)) == FlatMap(ResultOf, cs)
  {
    forall c
      ensures FlatMap(ItemResults, PrintOutput(c)) == ResultOf(c)
    {
      if c.ToolResult? { FlatMapOne(ItemResults, PrintOutput(c)[0]); }
    }
    FlatMapCompose(PrintOutput, ItemResults, ResultOf, cs);
    FlatMapAll(PrintOutput, (i: Item) => i.OutputItem?, cs);
    FlatMapNothing(ItemCalls, FlatMap(PrintOutput, cs));
  }

  lemma {:induction false} FlushedHasNoTools(front: seq<Item>, role: WireRole, parts: seq<Part>)
    ensures FlatMap(ItemCalls, front + Flushed(role, parts)) == FlatMap(ItemCalls, front)
    ensures FlatMap(ItemResults, front + Flushed(role, parts)) == FlatMap(ItemResults, front)
  {
    FlatMapConcat(ItemCalls, front, Flushed(role, parts));
    FlatMapConcat(ItemResults, front, Flushed(role, parts));
    FlatMapNothing(ItemCalls, Flushed(role, parts));
    FlatMapNothing(ItemResults, Flushed(role, parts));
  }

  lemma PrintedTools(m: Message)
    ensures FlatMap(ItemCalls, PrintMessage(m)) == PlacedCalls(m)
    ensures FlatMap(ItemResults, PrintMessage(m)) == PlacedResults(m)
  {
    match m.role {
      case Assistant =>
        AssistantTools(m.content);
        FlushKeepsTools(Fold(Write, Draft([], []), m.content));
      case User =>
        OutputTools(m.content);
        FlushedHasNoTools(FlatMap(PrintOutput, m.content), UserR, FlatMap(UserPart, m.content));
      case Tool =>
        OutputTools(m.content);
      case System =>
        var item := Flushed(DeveloperR, FlatMap(SystemPart, m.content));
        FlushedHasNoTools([], DeveloperR, FlatMap(SystemPart, m.content));
        assert [] + item == item;
    }
  }

  /**
   * Printing keeps, in order, exactly the calls of assistant turns and the results of user and tool
   * turns; that is all of them exactly when none is out of place.
   */
  lemma KeepsTools(r: Request, model: string)
    ensures var w := FromIR(r, model);
            && WireCalls(w) == FlatMap(PlacedCalls, r.messages)
            && WireResults(w) == FlatMap(PlacedResults, r.messages)
            && ((WireCalls(w) == AllCalls(r.messages) && WireResults(w) == AllResults(r.messages))
                <==> AllInPlace(r.messages))
  {
    hide PrintMessage, PlacedCalls, PlacedResults, AllInPlace, Map;
    forall m
      ensures FlatMap(ItemCalls, PrintMessage(m)) == PlacedCalls(m)
      ensures FlatMap(ItemResults, PrintMessage(m)) == PlacedResults(m)
    {
      PrintedTools(m);
    }
    FlatMapCompose(PrintMessage, ItemCalls, PlacedCalls, r.messages);
    FlatMapCompose(PrintMessage, ItemResults, PlacedResults, r.messages);
    PlacedIsAll(r.messages);
  }

  lemma BodyHasNoTools(b: Body)
    requires ReadBody(b).Ok?
    ensures FlatMap(CallOf, ReadBody(b).value) == [] && FlatMap(ResultOf, ReadBody(b).value) == []
  {
    if b.Parts? {
      CollectAll(ReadPart, IsPart, b.parts);
    }
    FlatMapNothing(CallOf, ReadBody(b).value);
    FlatMapNothing(ResultOf, ReadBody(b).value);
  }

  lemma ReadTools(i: Item)
    requires ReadItem(i).Ok?
    ensures FlatMap(Calls, ReadItem(i).value) == ParsedCalls(i) && FlatMap(Results, ReadItem(i).value) == ItemResults(i)
    ensures forall m :: m in ReadItem(i).value ==> InPlace(m)
  {
    OneTurnEach(i);
    var m := ReadItem(i).value[0];
    FlatMapOne(Calls, m);
    FlatMapOne(Results, m);
    if i.MessageItem? {
      hide ReadBody;
      BodyHasNoTools(i.content);
    } else {
      FlatMapOne(CallOf, m.content[0]);
      FlatMapOne(ResultOf, m.content[0]);
    }
  }

  lemma BothSay(a: Message, b: Message)
    requires a.role == Assistant && b.role == Assistant && InPlace(a) && InPlace(b)
    ensures var both := Message(Assistant, a.content + b.content);
            Calls(both) == Calls(a) + Calls(b) && Results(both) == Results(a) + Results(b) && InPlace(both)
  {
    hide FlatMap;
    FlatMapConcat(CallOf, a.content, b.content);
    FlatMapConcat(ResultOf, a.content, b.content);
  }

  lemma AppendKeepsTools(out: seq<Message>, m: Message)
    requires InPlace(m) && forall x :: x in out ==> InPlace(x)
    ensures AllCalls(AppendTurn(out, m)) == AllCalls(out) + Calls(m)
    ensures AllResults(AppendTurn(out, m)) == AllResults(out) + Results(m)
    ensures forall x :: x in AppendTurn(out, m) ==> InPlace(x)
  {
    hide InPlace, FlatMap, Calls, Results;
    var n := |out|;
    if m.role == Assistant && n > 0 && out[n - 1].role == Assistant {
      var front, last := out[..n - 1], out[n - 1];
      var both := Message(Assistant, last.content + m.content);
      assert last in out && out == front + [last];
      BothSay(last, m);
      FlatMapSnoc(Calls, front, last);
      FlatMapSnoc(Results, front, last);
      FlatMapSnoc(Calls, front, both);
      FlatMapSnoc(Results, front, both);
      assert AppendTurn(out, m) == front + [both];
      hide AppendTurn;
    } else {
      FlatMapSnoc(Calls, out, m);
      FlatMapSnoc(Results, out, m);
    }
  }

  lemma {:induction false} JoinKeepsTools(ms: seq<Message>)
    requires forall m :: m in ms ==> InPlace(m)
    ensures AllCalls(Join(ms)) == AllCalls(ms) && AllResults(Join(ms)) == AllResults(ms)
    ensures forall m :: m in Join(ms) ==> InPlace(m)
    decreases |ms|
  {
    if ms != [] {
      hide InPlace, AppendTurn;
      var n := |ms| - 1;
      JoinKeepsTools(ms[..n]);
      FoldSnoc(AppendTurn, [], ms[..n], ms[n]);
      assert ms[..n] + [ms[n]] == ms && ms[n] in ms;
      AppendKeepsTools(Join(ms[..n]), ms[n]);
    }
  }

  lemma {:induction false} ItemsFindTools(items: seq<Item>)
    requires Collect(ReadItem, items).Ok?
    ensures var q := Collect(ReadItem, items).value;
            && AllCalls(q) == FlatMap(ParsedCalls, items)
            && AllResults(q) == FlatMap(ItemResults, items)
            && forall m :: m in q ==> InPlace(m)
  {
    forall i | ReadItem(i).Ok?
      ensures FlatMap(Calls, ReadItem(i).value) == ParsedCalls(i)
      ensures FlatMap(Results, ReadItem(i).value) == ItemResults(i)
      ensures forall m :: m in ReadItem(i).value ==> InPlace(m)
    {
      ReadTools(i);
    }
    hide ReadItem, InPlace, Collect, ParsedCalls, ItemResults, Calls, Results, FlatMap;
    CollectFlat(ReadItem, Calls, ParsedCalls, items);
    CollectFlat(ReadItem, Results, ItemResults, items);
    CollectAll(ReadItem, InPlace, items);
  }

  lemma {:induction false} WholeIntact(w: Wire)
    ensures FlatMap(ParsedCalls, ItemsOf(w)) == WireCalls(w) <==> ArgumentsIntact(w)
  {
    hide FlatMap;
    forall i: Item ensures ItemCalls(i) == ParsedCalls(i) <==> (i.CallItem? ==> i.args.Intact()) {
      if i.CallItem? {
        assert ItemCalls(i)[0].args == i.args.Raw() && ParsedCalls(i)[0].args == i.args.Read().text;
      }
    }
    FlatMapSame(ItemCalls, ParsedCalls, ItemsOf(w));
  }

  /**
   * Reading a request finds every result and every tool call, in order and in place. The calls have
   * the arguments of the body exactly when all of those are empty or valid JSON.
   */
  lemma {:induction false} FindsTools(w: Wire)
    requires ToIR(w).Ok?
    ensures var q := ToIR(w).value.messages;
            && AllResults(q) == WireResults(w)
            && AllInPlace(q)
            && (AllCalls(q) == WireCalls(w) <==> ArgumentsIntact(w))
  {
    var q := ToIR(w).value.messages;
    WholeIntact(w);
    if w.input.Items? {
      hide InPlace, Collect, FlatMap, Join, ReadItem;
      ItemsFindTools(w.input.items);
      JoinKeepsTools(Collect(ReadItem, w.input.items).value);
    } else if w.input.Prompt? {
      FlatMapOne(CallOf, q[0].content[0]);
      FlatMapOne(ResultOf, q[0].content[0]);
      FlatMapOne(Calls, q[0]);
      FlatMapOne(Results, q[0]);
    }
  }
}
