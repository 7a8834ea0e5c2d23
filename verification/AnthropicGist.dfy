/** What an Anthropic request says is what was to be said, and what is read from it. */
module AnthropicGist {
  import opened Folds
  import opened RequestIr
  import opened RequestGist
  import opened AnthropicRequest

  /** All texts in a row. */
  function InARow(texts: seq<Option<string>>): string {
    if texts == [] then ""
    else InARow(texts[..|texts| - 1]) + if texts[|texts| - 1].Some? then texts[|texts| - 1].value else ""
  }

  /** A result is its text; one with anything else in it is its JSON. */
  function ResultWords(b: ResultBody): string {
    match b
    case NoResult => ""
    case ResultText(s) => s
    case ResultBlocks(texts, raw) => if forall k :: 0 <= k < |texts| ==> texts[k].Some? then InARow(texts) else raw
    case ResultOther(raw) => raw
  }

  function BlockGist(b: Block): seq<Gist> {
    match b
    case TextB(s) => [Words(s)]
    case ThinkingB(s, signature) => [Thought(s, signature)]
    case RedactedB(data) => [Hidden(data)]
    case ToolUseB(id, name, input) =>
      [Asks(ToolCall(id, name, if input.NoJson? || input.text == "" then "{}" else input.text))]
    case ToolResultB(id, content, isError) => [Answers(id, ResultWords(content), isError)]
    case ImageB(None) => [Inline("", "")]
    case ImageB(Some(src)) => if src.url != "" then [Linked(src.url)] else [Inline(src.mediaType, src.data)]
    case UnknownB(_) => []
  }

  function BodyGists(b: Body): seq<Gist> {
    match b
    case NoBody => []
    case Plain(s) => [Words(s)]
    case Blocks(bs) => FlatMap(BlockGist, bs)
  }

  function MsgGists(m: Msg): seq<Utterance> {
    Uttered(WireSpeaker(m.role), BodyGists(m.content))
  }

  function WireGists(w: Wire): seq<Utterance> {
    Uttered(Instructor, BodyGists(w.system)) + FlatMap(MsgGists, w.messages)
  }

  // ---- Reading ------------------------------------------------------------------------------------

  lemma {:induction false} JoinedIsInARow(texts: seq<Option<string>>)
    ensures Joined(texts) ==
            if forall k :: 0 <= k < |texts| ==> texts[k].Some? then Some(InARow(texts)) else None
    decreases |texts|
  {
    if texts != [] {
      var n := |texts| - 1;
      JoinedIsInARow(texts[..n]);
      assert forall k :: 0 <= k < n ==> texts[..n][k] == texts[k];
    }
  }

  lemma ReadBlockGist(b: Block)
    requires ReadBlock(b).Ok?
    ensures FlatMap(GistOf, ReadBlock(b).value) == BlockGist(b)
  {
    FlatMapOne(GistOf, ReadBlock(b).value[0]);
    if b.ToolResultB? && b.content.ResultBlocks? {
      JoinedIsInARow(b.content.texts);
    }
  }

  lemma {:induction false} ReadBodyGists(b: Body)
    requires ReadBody(b).Ok?
    ensures GistsIn(ReadBody(b).value) == BodyGists(b)
  {
    if b.Plain? {
      FlatMapOne(GistOf, Text(b.text));
    } else if b.Blocks? {
      forall x | ReadBlock(x).Ok?
        ensures FlatMap(GistOf, ReadBlock(x).value) == BlockGist(x)
      {
        ReadBlockGist(x);
      }
      hide ReadBlock, BlockGist, GistOf;
      CollectFlat(ReadBlock, GistOf, BlockGist, b.blocks);
    }
  }

  lemma {:induction false} ReadTurnGists(m: Msg)
    requires ReadMessage(m).Ok?
    ensures FlatMap(TurnGists, ReadMessage(m).value) == MsgGists(m)
  {
    ReadBodyGists(m.content);
    hide ReadBody, BodyGists, FlatMap, GistsIn, Uttered;
    var x := ReadMessage(m).value[0];
    ReadTurn(m);
    hide ReadMessage, SpeakerOf, WireSpeaker;
    FlatMapOne(TurnGists, x);
  }

  lemma ReadTurn(m: Msg)
    requires ReadMessage(m).Ok?
    ensures ReadBody(m.content).Ok? && |ReadMessage(m).value| == 1
    ensures var x := ReadMessage(m).value[0];
            ReadMessage(m).value == [x] && x.content == ReadBody(m.content).value
            && SpeakerOf(x.role) == WireSpeaker(m.role)
  {
    hide ReadBody;
  }

  /** What is read from a request is exactly what it says. */
  lemma {:induction false} Finds(w: Wire)
    requires ToIR(w).Ok?
    ensures RequestGists(ToIR(w).value) == WireGists(w)
  {
    ReadBodyGists(w.system);
    forall m | ReadMessage(m).Ok?
      ensures FlatMap(TurnGists, ReadMessage(m).value) == MsgGists(m)
    {
      ReadTurnGists(m);
    }
    hide ReadMessage, TurnGists, MsgGists;
    CollectFlat(ReadMessage, TurnGists, MsgGists, w.messages);
  }

  // ---- Writing ------------------------------------------------------------------------------------

  function BlockTaken(c: Content): seq<Gist> {
    FlatMap(AnthropicTakes, GistOf(c))
  }

  lemma PrintedBlockGist(c: Content)
    requires PrintBlock(c).Ok?
    ensures FlatMap(BlockGist, PrintBlock(c).value) == BlockTaken(c)
  {
    hide FlatMap;
    if GistOf(c) == [] { FlatMapNothing(AnthropicTakes, []); } else { FlatMapOne(AnthropicTakes, GistOf(c)[0]); }
    if PrintBlock(c).value == [] {
      FlatMapNothing(BlockGist, []);
    } else {
      FlatMapOne(BlockGist, PrintBlock(c).value[0]);
    }
  }

  lemma {:induction false} PrintedTurnGists(m: Message)
    requires PrintMessage(m).Ok?
    ensures FlatMap(MsgGists, PrintMessage(m).value) == AnthropicTurn(m)
  {
    forall c | PrintBlock(c).Ok?
      ensures FlatMap(BlockGist, PrintBlock(c).value) == BlockTaken(c)
    {
      PrintedBlockGist(c);
    }
    hide PrintBlock, BlockGist, GistOf, AnthropicTakes;
    CollectFlat(PrintBlock, BlockGist, BlockTaken, m.content);
    FlatMapCompose(GistOf, AnthropicTakes, BlockTaken, m.content);
    FlatMapOne(MsgGists, PrintMessage(m).value[0]);
  }

  function SystemTaken(c: Content): seq<Gist> {
    FlatMap(OnlyWords, GistOf(c))
  }

  lemma PrintedSystemGist(c: Content)
    requires PrintSystem(c).Ok?
    ensures FlatMap(BlockGist, PrintSystem(c).value) == SystemTaken(c)
  {
    if GistOf(c) != [] {
      FlatMapOne(OnlyWords, GistOf(c)[0]);
    }
    if PrintSystem(c).value != [] {
      FlatMapOne(BlockGist, PrintSystem(c).value[0]);
    }
  }

  lemma {:induction false} PrintedSystemGists(cs: seq<Content>)
    requires Collect(PrintSystem, cs).Ok?
    ensures FlatMap(BlockGist, Collect(PrintSystem, cs).value) == FlatMap(OnlyWords, GistsIn(cs))
  {
    forall c | PrintSystem(c).Ok?
      ensures FlatMap(BlockGist, PrintSystem(c).value) == SystemTaken(c)
    {
      PrintedSystemGist(c);
    }
    hide PrintSystem, BlockGist, GistOf, OnlyWords;
    CollectFlat(PrintSystem, BlockGist, SystemTaken, cs);
    FlatMapCompose(GistOf, OnlyWords, SystemTaken, cs);
  }

  /** A message seen through its blocks alone. */
  function BlocksSeen(m: Msg): seq<Utterance> {
    Uttered(WireSpeaker(m.role), FlatMap(BlockGist, BlocksOf(m)))
  }

  lemma BlocksSeenAdd()
    ensures Additive(BlocksSeen)
  {
    forall a, b | Same(a, b)
      ensures BlocksSeen(Glue(a, b)) == BlocksSeen(a) + BlocksSeen(b)
    {
      FlatMapConcat(BlockGist, BlocksOf(a), BlocksOf(b));
      UtteredConcat(WireSpeaker(a.role), FlatMap(BlockGist, BlocksOf(a)), FlatMap(BlockGist, BlocksOf(b)));
    }
  }

  lemma {:induction false} SeenInBlocks(m: Msg)
    ensures !m.content.Plain? ==> MsgGists(m) == BlocksSeen(m)
  {
    FlatMapNothing(BlockGist, []);
  }

  lemma {:induction false} PrintedInBlocks(m: Message)
    ensures PrintMessage(m).Ok? ==> forall p :: p in PrintMessage(m).value ==> !p.content.Plain?
  {
  }

  lemma {:induction false} MergedInBlocks(ms: seq<Msg>)
    requires forall m :: m in ms ==> !m.content.Plain?
    ensures forall m :: m in Merge(ms) ==> !m.content.Plain?
    decreases |ms|
  {
    if ms != [] {
      assert ms[|ms| - 1] in ms;
      MergedInBlocks(ms[..|ms| - 1]);
    }
  }

  lemma {:induction false} MergedGists(ms: seq<Msg>)
    requires forall m :: m in ms ==> !m.content.Plain?
    ensures FlatMap(MsgGists, Merge(ms)) == FlatMap(MsgGists, ms)
  {
    forall m: Msg
      ensures !m.content.Plain? ==> MsgGists(m) == BlocksSeen(m)
    {
      SeenInBlocks(m);
    }
    BlocksSeenAdd();
    MergedInBlocks(ms);
    hide MsgGists, BlocksSeen, Merge, Additive;
    MergeKeeps(BlocksSeen, ms);
    FlatMapAlike(MsgGists, BlocksSeen, ms);
    FlatMapAlike(MsgGists, BlocksSeen, Merge(ms));
  }

  lemma {:induction false} TurnsSay(ms: seq<Message>)
    requires Collect(PrintMessage, ms).Ok?
    ensures FlatMap(MsgGists, Merge(Collect(PrintMessage, ms).value)) == FlatMap(AnthropicTurn, ms)
  {
    forall m | PrintMessage(m).Ok?
      ensures FlatMap(MsgGists, PrintMessage(m).value) == AnthropicTurn(m)
      ensures forall p :: p in PrintMessage(m).value ==> !p.content.Plain?
    {
      PrintedTurnGists(m);
      PrintedInBlocks(m);
    }
    hide PrintMessage, MsgGists, AnthropicTurn, Merge;
    CollectFlat(PrintMessage, MsgGists, AnthropicTurn, ms);
    CollectAll(PrintMessage, (p: Msg) => !p.content.Plain?, ms);
    MergedGists(Collect(PrintMessage, ms).value);
  }

  lemma {:induction false} OpeningIsLeading(ms: seq<Message>)
    ensures OpeningTurns(ms) == Leading(ms)
    ensures forall k :: 0 <= k < OpeningTurns(ms) ==> ms[k].role == System
    decreases |ms|
  {
    if ms != [] && ms[0].role == System {
      OpeningIsLeading(ms[1..]);
      assert forall k :: 1 <= k < OpeningTurns(ms) ==> ms[k] == ms[1..][k - 1];
    }
  }

  function Instructed(cs: seq<Content>): seq<Utterance> {
    Uttered(Instructor, FlatMap(OnlyWords, GistsIn(cs)))
  }

  lemma {:induction false} InstructionsAdd(xs: seq<Content>, ys: seq<Content>)
    ensures Instructed(xs + ys) == Instructed(xs) + Instructed(ys)
  {
    hide FlatMap, Uttered;
    FlatMapConcat(GistOf, xs, ys);
    FlatMapConcat(OnlyWords, GistsIn(xs), GistsIn(ys));
    UtteredConcat(Instructor, FlatMap(OnlyWords, GistsIn(xs)), FlatMap(OnlyWords, GistsIn(ys)));
  }

  lemma InstructionTurn(m: Message)
    requires m.role == System
    ensures WordsTurn(m) == Instructed(m.content)
  {
  }

  /** Opening system turns say their words where the system prompt does. */
  lemma {:induction false} OpeningSays(system: seq<Content>, ms: seq<Message>)
    requires forall k :: 0 <= k < |ms| ==> ms[k].role == System
    ensures Instructed(system + FlatMap(ContentOf, ms)) == Instructed(system) + FlatMap(WordsTurn, ms)
    decreases |ms|
  {
    hide FlatMap, Instructed;
    if ms == [] {
      FlatMapNothing(ContentOf, ms);
      FlatMapNothing(WordsTurn, ms);
      assert system + [] == system && Instructed(system) + [] == Instructed(system);
    } else {
      var n := |ms| - 1;
      var front, m := system + FlatMap(ContentOf, ms[..n]), ms[n];
      OpeningSays(system, ms[..n]);
      assert ms == ms[..n] + [m];
      InstructionTurn(m);
      hide WordsTurn;
      FlatMapSnoc(ContentOf, ms[..n], m);
      FlatMapSnoc(WordsTurn, ms[..n], m);
      assert system + FlatMap(ContentOf, ms) == front + m.content;
      InstructionsAdd(front, m.content);
    }
  }

  /** A request that can be sent says all that is to be said, in order and by the same speakers. */
  lemma {:induction false} Keeps(r: Request, model: string, fallback: int)
    requires FromIR(r, model, fallback).Ok?
    ensures WireGists(FromIR(r, model, fallback).value) == AnthropicSays(r)
  {
    var w := FromIR(r, model, fallback).value;
    var n := Leading(r.messages);
    OpeningIsLeading(r.messages);
    var lead, rest := r.messages[..n], r.messages[n..];
    var all := r.system + FlatMap(ContentOf, lead);
    hide PrintSystem, PrintMessage, MsgGists, BlockGist, Merge, OnlyWords, WordsTurn, AnthropicTurn, GistOf, Leading;
    hide OpeningTurns;
    PrintedSystemGists(all);
    OpeningSays(r.system, lead);
    TurnsSay(rest);
    FlatMapNothing(BlockGist, []);
    assert all == [] ==> Collect(PrintSystem, all) == Ok([]);
    assert BodyGists(w.system) == FlatMap(OnlyWords, GistsIn(all));
  }
}
