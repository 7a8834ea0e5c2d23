/** What a Responses request says is what was to be said, and what is read from it. */
module ResponsesGist {
  import opened Folds
  import opened RequestIr
  import opened RequestGist
  import opened ResponsesRequest

  function PartGist(p: Part): seq<Gist> {
    match p
    case TextPart(_, s) => [Words(s)]
    case RefusalPart(s) => [Words(s)]
    case ImagePart(u) => [Linked(u)]
    case OtherPart(_) => []
  }

  function BodyGists(b: Body): seq<Gist> {
    match b
    case NoBody => []
    case Plain(s) => [Words(s)]
    case Parts(ps) => FlatMap(PartGist, ps)
  }

  /** All texts in a row. */
  function InARow(texts: seq<string>): string {
    if texts == [] then "" else InARow(texts[..|texts| - 1]) + texts[|texts| - 1]
  }

  function OutputWords(o: Output): string {
    match o
    case NoOutput => ""
    case OutText(s) => s
    case OutParts(texts) => InARow(texts)
    case OutOther(raw) => raw
  }

  function ItemGists(i: Item): seq<Utterance> {
    match i
    case MessageItem(role, body) => Uttered(WireSpeaker(role), BodyGists(body))
    case CallItem(id, name, args) =>
      [Utterance(Model, Asks(ToolCall(id, name, if args.text == "" || !args.valid then "{}" else args.text)))]
    case OutputItem(id, output) => [Utterance(Person, Answers(id, OutputWords(output), false))]
    case ReasoningItem(raw, _) => [Utterance(Model, Reasoned(raw))]
    case OtherItem(_) => []
  }

  function InputGists(i: Input): seq<Utterance> {
    match i
    case NoInput => []
    case Prompt(s) => [Utterance(Person, Words(s))]
    case Items(items) => FlatMap(ItemGists, items)
  }

  function PromptGists(instructions: string): seq<Utterance> {
    if instructions == "" then [] else [Utterance(Instructor, Words(instructions))]
  }

  function WireGists(w: Wire): seq<Utterance> {
    PromptGists(w.instructions) + InputGists(w.input)
  }

  // ---- Reading ------------------------------------------------------------------------------------

  function PartLook(p: Part): seq<Gist> {
    Map(LookAt, PartGist(p))
  }

  lemma LookOne(g: Gist)
    ensures Map(LookAt, [g]) == [LookAt(g)]
  {
    assert |Map(LookAt, [g])| == 1;
  }

  lemma ReadPartGist(p: Part)
    requires ReadPart(p).Ok?
    ensures FlatMap(GistOf, ReadPart(p).value) == PartLook(p)
  {
    hide FlatMap;
    FlatMapOne(GistOf, ReadPart(p).value[0]);
    LookOne(PartGist(p)[0]);
    if p.ImagePart? {
      hide ImageOf, PictureAt;
      ReadImageGist(p.url);
    }
  }

  lemma {:induction false} ReadBodyGists(b: Body)
    requires ReadBody(b).Ok?
    ensures GistsIn(ReadBody(b).value) == Map(LookAt, BodyGists(b))
  {
    if b.Plain? {
      FlatMapOne(GistOf, Text(b.text));
    } else if b.Parts? {
      forall p | ReadPart(p).Ok?
        ensures FlatMap(GistOf, ReadPart(p).value) == PartLook(p)
      {
        ReadPartGist(p);
      }
      hide ReadPart, PartGist, GistOf, LookAt;
      CollectFlat(ReadPart, GistOf, PartLook, b.parts);
      MapFlat(PartGist, LookAt, PartLook, b.parts);
    }
  }

  lemma {:induction false} TextsRun(texts: seq<string>)
    ensures FlatMap(Itself, texts) == InARow(texts)
    decreases |texts|
  {
    if texts != [] {
      TextsRun(texts[..|texts| - 1]);
    }
  }

  lemma ReadOutputWords(o: Output)
    ensures AnswerText(ReadOutput(o)) == OutputWords(o)
  {
    if o.OutParts? {
      TextsRun(o.texts);
    }
  }

  function ItemLook(i: Item): seq<Utterance> {
    Map(Look, ItemGists(i))
  }

  lemma LookOnce(u: Utterance)
    ensures Map(Look, [u]) == [Look(u)]
  {
    assert |Map(Look, [u])| == 1;
  }

  lemma ReadTurn(i: Item)
    requires ReadItem(i).Ok? && i.MessageItem?
    ensures ReadBody(i.content).Ok? && SpeakerOf(ReadItem(i).value[0].role) == WireSpeaker(i.role)
    ensures ReadItem(i).value[0].content == ReadBody(i.content).value
  {
    hide ReadBody;
  }

  lemma ReadOne(i: Item)
    requires ReadItem(i).Ok? && !i.MessageItem?
    ensures ItemGists(i) != [] && ReadItem(i).value[0].content != []
    ensures var x := ReadItem(i).value[0];
            && x.content == [x.content[0]]
            && Look(ItemGists(i)[0]) == ItemGists(i)[0]
            && Uttered(SpeakerOf(x.role), GistOf(x.content[0])) == ItemGists(i)
  {
    if i.OutputItem? {
      ReadOutputWords(i.output);
      hide ReadOutput, OutputWords;
    }
  }

  lemma {:induction false} ReadItemGists(i: Item)
    requires ReadItem(i).Ok?
    ensures FlatMap(TurnGists, ReadItem(i).value) == ItemLook(i)
  {
    OneTurnEach(i);
    var x := ReadItem(i).value[0];
    FlatMapOne(TurnGists, x);
    hide FlatMap, ReadBody, BodyGists;
    if i.MessageItem? {
      ReadTurn(i);
      ReadBodyGists(i.content);
      hide Uttered, Map, ReadItem;
      LookUttered(WireSpeaker(i.role), BodyGists(i.content));
    } else {
      ReadOne(i);
      hide ReadItem, Uttered, GistOf, Look, Map;
      LookOnce(ItemGists(i)[0]);
      FlatMapOne(GistOf, x.content[0]);
      assert ItemGists(i) == [ItemGists(i)[0]];
    }
  }

  lemma AppendSays(out: seq<Message>, m: Message)
    ensures FlatMap(TurnGists, AppendTurn(out, m)) == FlatMap(TurnGists, out) + TurnGists(m)
  {
    hide FlatMap;
    var n := |out|;
    if m.role == Assistant && n > 0 && out[n - 1].role == Assistant {
      var front, last := out[..n - 1], out[n - 1];
      var both := Message(Assistant, last.content + m.content);
      assert out == front + [last];
      FlatMapConcat(GistOf, last.content, m.content);
      UtteredConcat(Model, GistsIn(last.content), GistsIn(m.content));
      hide Uttered;
      FlatMapSnoc(TurnGists, front, last);
      FlatMapSnoc(TurnGists, front, both);
    } else {
      FlatMapSnoc(TurnGists, out, m);
    }
  }

  lemma {:induction false} JoinSays(ms: seq<Message>)
    ensures FlatMap(TurnGists, Join(ms)) == FlatMap(TurnGists, ms)
    decreases |ms|
  {
    if ms != [] {
      var n := |ms| - 1;
      var front, m := ms[..n], ms[n];
      JoinSays(front);
      hide FlatMap, AppendTurn, TurnGists;
      FoldSnoc(AppendTurn, [], front, m);
      FlatMapSnoc(TurnGists, front, m);
      assert ms == front + [m];
      AppendSays(Join(front), m);
    }
  }

  lemma {:induction false} ReadInputGists(i: Input)
    requires ReadInput(i).Ok?
    ensures FlatMap(TurnGists, ReadInput(i).value) == Map(Look, InputGists(i))
  {
    if i.Items? {
      forall x | ReadItem(x).Ok?
        ensures FlatMap(TurnGists, ReadItem(x).value) == ItemLook(x)
      {
        ReadItemGists(x);
      }
      hide ReadItem, TurnGists, ItemGists, Join;
      CollectFlat(ReadItem, TurnGists, ItemLook, i.items);
      JoinSays(Collect(ReadItem, i.items).value);
      MapFlat(ItemGists, Look, ItemLook, i.items);
    } else if i.Prompt? {
      FlatMapOne(TurnGists, Message(User, [Text(i.text)]));
      FlatMapOne(GistOf, Text(i.text));
      hide FlatMap;
    }
  }

  lemma ReadPrompt(s: string)
    ensures Uttered(Instructor, GistsIn(ReadSystem(s))) == Map(Look, PromptGists(s))
  {
    if s == "" {
      FlatMapNothing(GistOf, []);
    } else {
      FlatMapOne(GistOf, Text(s));
      LookOnce(Utterance(Instructor, Words(s)));
    }
  }

  /** What is read from a request is exactly what it says, its pictures by their URLs. */
  lemma {:induction false} Finds(w: Wire)
    requires ToIR(w).Ok?
    ensures RequestGists(ToIR(w).value) == Map(Look, WireGists(w))
  {
    ReadInputGists(w.input);
    ReadPrompt(w.instructions);
    hide ReadInput, InputGists, FlatMap, TurnGists, Map, Uttered, GistsIn, ReadSystem, PromptGists;
    MapConcat(Look, PromptGists(w.instructions), InputGists(w.input));
  }

  // ---- Writing ------------------------------------------------------------------------------------

  function OutputSaid(c: Content): seq<Utterance> {
    Uttered(Person, ResponsesAnswer(c))
  }

  lemma {:induction false} OutputsSaid(cs: seq<Content>)
    ensures FlatMap(OutputSaid, cs) == Uttered(Person, FlatMap(ResponsesAnswer, cs))
    decreases |cs|
  {
    if cs != [] {
      var n := |cs| - 1;
      OutputsSaid(cs[..n]);
      UtteredConcat(Person, FlatMap(ResponsesAnswer, cs[..n]), ResponsesAnswer(cs[n]));
    }
  }

  lemma PrintedOutput(c: Content)
    ensures FlatMap(ItemGists, PrintOutput(c)) == OutputSaid(c)
  {
    if c.ToolResult? { FlatMapOne(ItemGists, PrintOutput(c)[0]); } else { FlatMapNothing(ItemGists, []); }
  }

  lemma {:induction false} PrintedOutputs(cs: seq<Content>)
    ensures FlatMap(ItemGists, FlatMap(PrintOutput, cs)) == Uttered(Person, FlatMap(ResponsesAnswer, cs))
  {
    forall c: Content
      ensures FlatMap(ItemGists, PrintOutput(c)) == OutputSaid(c)
    {
      PrintedOutput(c);
    }
    hide ItemGists, PrintOutput, ResponsesAnswer;
    FlatMapCompose(PrintOutput, ItemGists, OutputSaid, cs);
    OutputsSaid(cs);
  }

  lemma FlushedSays(role: WireRole, parts: seq<Part>)
    ensures FlatMap(ItemGists, Flushed(role, parts)) == Uttered(WireSpeaker(role), FlatMap(PartGist, parts))
  {
    if parts == [] {
      FlatMapNothing(PartGist, parts);
      FlatMapNothing(ItemGists, Flushed(role, parts));
    } else {
      FlatMapOne(ItemGists, MessageItem(role, Parts(parts)));
    }
  }

  lemma {:induction false} UserParts(cs: seq<Content>)
    ensures FlatMap(PartGist, FlatMap(UserPart, cs)) == FlatMap(Shown, cs)
    ensures FlatMap(PartGist, FlatMap(SystemPart, cs)) == FlatMap(Wordy, cs)
  {
    forall c: Content
      ensures FlatMap(PartGist, UserPart(c)) == Shown(c)
      ensures FlatMap(PartGist, SystemPart(c)) == Wordy(c)
    {
      FlatMapNothing(PartGist, []);
      if IsPart(c) { FlatMapOne(PartGist, UserPart(c)[0]); }
    }
    hide PartGist, UserPart, SystemPart, Shown, Wordy;
    FlatMapCompose(UserPart, PartGist, Shown, cs);
    FlatMapCompose(SystemPart, PartGist, Wordy, cs);
  }

  /** What a draft has said: its items, and then the words still to be flushed. */
  function DraftGists(d: Draft): seq<Utterance> {
    FlatMap(ItemGists, d.items) + Uttered(Model, FlatMap(PartGist, d.parts))
  }

  lemma FlushSays(d: Draft)
    ensures DraftGists(d.Flush()) == DraftGists(d) == FlatMap(ItemGists, d.Flush().items)
  {
    hide FlatMap;
    FlatMapConcat(ItemGists, d.items, Flushed(AssistantR, d.parts));
    FlushedSays(AssistantR, d.parts);
    FlatMapNothing(PartGist, []);
    assert DraftGists(d) + [] == DraftGists(d);
  }

  lemma WriteItem(d: Draft, i: Item)
    ensures DraftGists(Draft(d.Flush().items + [i], [])) == DraftGists(d) + ItemGists(i)
  {
    FlushSays(d);
    hide FlatMap, DraftGists;
    FlatMapSnoc(ItemGists, d.Flush().items, i);
    NoParts(d.Flush().items + [i]);
  }

  lemma NoParts(items: seq<Item>)
    ensures DraftGists(Draft(items, [])) == FlatMap(ItemGists, items)
  {
    hide ItemGists;
    FlatMapNothing(PartGist, []);
    assert FlatMap(ItemGists, items) + [] == FlatMap(ItemGists, items);
  }

  lemma WriteText(d: Draft, s: string)
    ensures DraftGists(d.(parts := d.parts + [TextPart(OutputText, s)])) == DraftGists(d) + [Utterance(Model, Words(s))]
  {
    hide FlatMap;
    FlatMapSnoc(PartGist, d.parts, TextPart(OutputText, s));
    UtteredConcat(Model, FlatMap(PartGist, d.parts), [Words(s)]);
  }

  lemma WriteSays(d: Draft, c: Content)
    ensures DraftGists(Write(d, c)) == DraftGists(d) + Uttered(Model, ModelSays(c))
  {
    hide DraftGists;
    if c.Text? {
      WriteText(d, c.text);
    } else if c.ToolUse? {
      WriteItem(d, CallItem(c.id, c.name, PrintArguments(c.input)));
    } else if c.Thinking? && c.raw.ReasoningRaw? {
      WriteItem(d, ReasoningItem(c.raw.raw, c.raw.summary));
    } else {
      FlushSays(d);
      assert DraftGists(d) + [] == DraftGists(d);
    }
  }

  lemma {:induction false} WrittenSays(cs: seq<Content>)
    ensures DraftGists(Fold(Write, Draft([], []), cs)) == Uttered(Model, FlatMap(ModelSays, cs))
    decreases |cs|
  {
    if cs == [] {
      NoParts([]);
    } else {
      var n := |cs| - 1;
      WrittenSays(cs[..n]);
      assert cs == cs[..n] + [cs[n]];
      FoldSnoc(Write, Draft([], []), cs[..n], cs[n]);
      hide Fold, DraftGists, Write, ModelSays;
      WriteSays(Fold(Write, Draft([], []), cs[..n]), cs[n]);
      UtteredConcat(Model, FlatMap(ModelSays, cs[..n]), ModelSays(cs[n]));
    }
  }

  lemma {:induction false} PrintedTurn(m: Message)
    ensures FlatMap(ItemGists, PrintMessage(m)) == ResponsesTurn(m)
  {
    hide FlatMap, ItemGists, DraftGists, Write, ModelSays, Flushed, PrintOutput;
    UserParts(m.content);
    match m.role {
      case Assistant =>
        WrittenSays(m.content);
        FlushSays(Fold(Write, Draft([], []), m.content));
      case User =>
        PrintedOutputs(m.content);
        FlatMapConcat(ItemGists, FlatMap(PrintOutput, m.content), Flushed(UserR, FlatMap(UserPart, m.content)));
        FlushedSays(UserR, FlatMap(UserPart, m.content));
        UtteredConcat(Person, FlatMap(ResponsesAnswer, m.content), FlatMap(Shown, m.content));
      case Tool => PrintedOutputs(m.content);
      case System => FlushedSays(DeveloperR, FlatMap(SystemPart, m.content));
    }
  }

  /** A request says what Responses can say of it. */
  lemma {:induction false} Keeps(r: Request, model: string)
    ensures WireGists(FromIR(r, model)) == ResponsesSays(r)
  {
    forall m: Message
      ensures FlatMap(ItemGists, PrintMessage(m)) == ResponsesTurn(m)
    {
      PrintedTurn(m);
    }
    hide PrintMessage, ItemGists, ResponsesTurn, FlatMap, Map, JoinText, BlankJoin;
    FlatMapCompose(PrintMessage, ItemGists, ResponsesTurn, r.messages);
    JoinTextJoins(r.system);
  }
}
