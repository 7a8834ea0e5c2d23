/** What a Chat Completions request says is what was to be said, and what is read from it. */
module ChatGist {
  import opened Folds
  import opened RequestIr
  import opened RequestGist
  import opened ChatRequest

  function PartGist(p: Part): seq<Gist> {
    match p
    case TextP(s) => [Words(s)]
    case ImageP(None) => [Linked("")]
    case ImageP(Some(u)) => [Linked(u)]
    case OtherP(_) => []
  }

  function BodyGists(b: Body): seq<Gist> {
    match b
    case NoBody => []
    case Plain(s) => [Words(s)]
    case Parts(ps) => FlatMap(PartGist, ps)
  }

  function CallGist(c: Call): seq<Gist> {
    [Asks(ToolCall(c.id, c.name, if c.args.text == "" || !c.args.valid then "{}" else c.args.text))]
  }

  /** A tool message in parts is their texts, or nothing if there is a part of another kind. */
  function AnswerWords(b: Body): string {
    match b
    case NoBody => ""
    case Plain(s) => s
    case Parts(ps) =>
      if exists k :: 0 <= k < |ps| && ps[k].OtherP? then "" else BlankJoin(TextsOf(FlatMap(PartGist, ps)))
  }

  function TurnSays(m: Msg): seq<Gist> {
    BodyGists(m.content) + if m.role == AssistantR then FlatMap(CallGist, m.calls) else []
  }

  function MsgGists(m: Msg): seq<Utterance> {
    if m.role == ToolR then [Utterance(Person, Answers(m.toolCallId, AnswerWords(m.content), false))]
    else
      Uttered(WireSpeaker(m.role), TurnSays(m))
  }

  function WireGists(w: Wire): seq<Utterance> {
    FlatMap(MsgGists, w.messages)
  }

  // ---- Reading ------------------------------------------------------------------------------------

  function PartLook(p: Part): seq<Gist> {
    Map(LookAt, PartGist(p))
  }

  lemma ReadPartGist(p: Part)
    requires ReadPart(p).Ok?
    ensures FlatMap(GistOf, ReadPart(p).value) == PartLook(p)
  {
    hide FlatMap;
    FlatMapOne(GistOf, ReadPart(p).value[0]);
    LookOne(PartGist(p)[0]);
    if p.ImageP? {
      hide ImageOf, PictureAt;
      ReadImageGist(if p.url.Some? then p.url.value else "");
      assert p.url.None? ==> PictureAt("") == Inline("", "") by { hide *; NoUrl(); }
    }
  }

  lemma LookOne(g: Gist)
    ensures Map(LookAt, [g]) == [LookAt(g)]
  {
    assert |Map(LookAt, [g])| == 1;
  }

  lemma NoUrl()
    ensures PictureAt("") == Inline("", "")
  {
  }

  lemma {:induction false} ReadBodyGists(b: Body)
    requires ReadBody(b).Ok?
    ensures GistsIn(ReadBody(b).value) == Map(LookAt, BodyGists(b))
  {
    if b.Plain? {
      FlatMapOne(GistOf, Text(b.text));
    } else if b.Parts? {
      forall p | ReadPart(p).Ok?
        ensures FlatMap(GistOf, ReadPart(p).value) == PartLook(p)
      {
        ReadPartGist(p);
      }
      hide ReadPart, PartGist, GistOf, LookAt;
      CollectFlat(ReadPart, GistOf, PartLook, b.parts);
      MapFlat(PartGist, LookAt, PartLook, b.parts);
    }
  }

  lemma TextsSnoc(gs: seq<Gist>, g: Gist)
    ensures TextsOf(gs + [g]) == TextsOf(gs) + if g.Words? then [g.text] else []
  {
    assert (gs + [g])[..|gs|] == gs;
  }

  lemma {:induction false} PartsReadable(ps: seq<Part>)
    ensures Collect(ReadPart, ps).Ok? <==> forall k :: 0 <= k < |ps| ==> !ps[k].OtherP?
    decreases |ps|
  {
    if ps != [] {
      var n := |ps| - 1;
      PartsReadable(ps[..n]);
      assert forall k :: 0 <= k < n ==> ps[..n][k] == ps[k];
      hide ImageOf;
    }
  }

  lemma ReadPartTexts(p: Part)
    requires ReadPart(p).Ok?
    ensures FlatMap(WordsIn, ReadPart(p).value) == PartTexts(p)
    ensures TextsOf(PartGist(p)) == PartTexts(p)
  {
    hide FlatMap, TextsOf;
    FlatMapOne(WordsIn, ReadPart(p).value[0]);
    OneText(PartGist(p)[0]);
    if p.ImageP? && p.url.Some? {
      hide ImageOf;
      ReadsImage(p.url.value);
    }
  }

  lemma OneText(g: Gist)
    ensures TextsOf([g]) == if g.Words? then [g.text] else []
  {
    assert [g][..0] == [];
    assert TextsOf([g][..0]) == [];
  }

  lemma ReadsImage(u: string)
    ensures ImageOf(u).Image?
  {
  }

  function PartTexts(p: Part): seq<string> {
    if p.TextP? then [p.text] else []
  }

  lemma {:induction false} TextsFlat(ps: seq<Part>)
    ensures TextsOf(FlatMap(PartGist, ps)) == FlatMap(PartTexts, ps)
    decreases |ps|
  {
    if ps != [] {
      var n := |ps| - 1;
      var gs, p := FlatMap(PartGist, ps[..n]), ps[n];
      TextsFlat(ps[..n]);
      assert FlatMap(PartGist, ps) == gs + PartGist(p);
      assert FlatMap(PartTexts, ps) == FlatMap(PartTexts, ps[..n]) + PartTexts(p);
      hide FlatMap;
      if PartGist(p) == [] {
        assert gs + [] == gs;
      } else {
        TextsSnoc(gs, PartGist(p)[0]);
        assert PartGist(p) == [PartGist(p)[0]];
      }
    }
  }

  lemma {:induction false} ReadTexts(ps: seq<Part>)
    requires Collect(ReadPart, ps).Ok?
    ensures TextsIn(Collect(ReadPart, ps).value) == TextsOf(FlatMap(PartGist, ps))
  {
    forall p | ReadPart(p).Ok?
      ensures FlatMap(WordsIn, ReadPart(p).value) == PartTexts(p)
    {
      ReadPartTexts(p);
    }
    hide ReadPart, PartGist, PartTexts, WordsIn;
    CollectFlat(ReadPart, WordsIn, PartTexts, ps);
    TextsFlat(ps);
  }

  lemma {:induction false} ReadAnswer(b: Body)
    ensures ToolText(b) == AnswerWords(b)
  {
    if b.Parts? {
      PartsReadable(b.parts);
      if ReadBody(b).Ok? {
        ReadTexts(b.parts);
        JoinTextJoins(ReadBody(b).value);
      }
    }
  }

  lemma {:induction false} ReadCallGists(cs: seq<Call>)
    ensures GistsIn(FlatMap(ReadCall, cs)) == Map(LookAt, FlatMap(CallGist, cs))
  {
    forall c: Call
      ensures FlatMap(GistOf, ReadCall(c)) == CallGist(c)
      ensures Map(LookAt, CallGist(c)) == CallGist(c)
    {
      FlatMapOne(GistOf, ReadCall(c)[0]);
    }
    hide ReadCall, CallGist, GistOf, LookAt;
    FlatMapCompose(ReadCall, GistOf, CallGist, cs);
    MapFlat(CallGist, LookAt, CallGist, cs);
  }

  function MsgLook(m: Msg): seq<Utterance> {
    Map(Look, MsgGists(m))
  }

  lemma {:induction false} ReadToolTurn(m: Msg)
    requires m.role == ToolR
    ensures FlatMap(TurnGists, ReadMessage(m).value) == MsgLook(m)
  {
    hide ToolText, AnswerWords, FlatMap;
    var x := ReadMessage(m).value[0];
    ReadAnswer(m.content);
    FlatMapOne(TurnGists, x);
    FlatMapOne(GistOf, x.content[0]);
    var said := Utterance(Person, Answers(m.toolCallId, AnswerWords(m.content), false));
    LookOnce(said);
    hide Map;
  }

  lemma LookOnce(u: Utterance)
    ensures Map(Look, [u]) == [Look(u)]
  {
    assert |Map(Look, [u])| == 1;
  }

  /** What a turn that is not a tool message is read as. */
  lemma ReadTurn(m: Msg)
    requires ReadMessage(m).Ok? && m.role != ToolR
    ensures ReadBody(m.content).Ok? && |ReadMessage(m).value| == 1
    ensures var x := ReadMessage(m).value[0];
            && ReadMessage(m).value == [x] && SpeakerOf(x.role) == WireSpeaker(m.role)
            && x.content == ReadBody(m.content).value + if m.role == AssistantR then FlatMap(ReadCall, m.calls) else []
  {
    hide ReadBody, FlatMap;
  }

  lemma {:induction false} ReadContentGists(m: Msg)
    requires ReadBody(m.content).Ok?
    ensures GistsIn(ReadBody(m.content).value + if m.role == AssistantR then FlatMap(ReadCall, m.calls) else [])
            == Map(LookAt, TurnSays(m))
  {
    hide FlatMap, ReadBody, BodyGists, ReadCall, CallGist, Map, LookAt;
    var calls := if m.role == AssistantR then FlatMap(CallGist, m.calls) else [];
    var read := if m.role == AssistantR then FlatMap(ReadCall, m.calls) else [];
    ReadBodyGists(m.content);
    ReadCallGists(m.calls);
    MapConcat(LookAt, BodyGists(m.content), calls);
    FlatMapConcat(GistOf, ReadBody(m.content).value, read);
    if m.role != AssistantR {
      FlatMapNothing(GistOf, []);
      LookNone();
    }
  }

  lemma LookNone()
    ensures Map(LookAt, []) == []
  {
  }

  lemma {:induction false} ReadTurnGists(m: Msg)
    requires ReadMessage(m).Ok?
    ensures FlatMap(TurnGists, ReadMessage(m).value) == MsgLook(m)
  {
    if m.role == ToolR {
      ReadToolTurn(m);
    } else {
      ReadTurn(m);
      ReadContentGists(m);
      hide ReadMessage, FlatMap, ReadBody, BodyGists, GistsIn, Uttered, Map;
      FlatMapOne(TurnGists, ReadMessage(m).value[0]);
      LookUttered(WireSpeaker(m.role), TurnSays(m));
    }
  }

  /** The instructions that open a conversation become its system prompt. */
  lemma {:induction false} ReadOpening(ms: seq<Msg>)
    requires forall m :: m in ms ==> Instructs(m)
    requires Collect(ReadInstructions, ms).Ok?
    ensures Uttered(Instructor, GistsIn(Collect(ReadInstructions, ms).value)) == FlatMap(MsgLook, ms)
    decreases |ms|
  {
    if ms != [] {
      var n := |ms| - 1;
      var m := ms[n];
      assert m in ms && forall x :: x in ms[..n] ==> x in ms;
      ReadOpening(ms[..n]);
      var front, next := Collect(ReadInstructions, ms[..n]).value, ReadBody(m.content).value;
      assert FlatMap(MsgLook, ms) == FlatMap(MsgLook, ms[..n]) + MsgLook(m);
      ReadBodyGists(m.content);
      var said := BodyGists(m.content);
      assert said + [] == said;
      hide FlatMap, ReadBody, BodyGists;
      FlatMapConcat(GistOf, front, next);
      UtteredConcat(Instructor, GistsIn(front), GistsIn(next));
      LookUttered(Instructor, said);
      hide Uttered, Map;
    }
  }

  /** What is read from a request is exactly what it says, its pictures by their URLs. */
  lemma {:induction false} Finds(w: Wire)
    requires ToIR(w).Ok?
    ensures RequestGists(ToIR(w).value) == Map(Look, WireGists(w))
  {
    var n := Leading(w.messages);
    var lead, rest := w.messages[..n], w.messages[n..];
    LeadingExact(w.messages);
    hide Leading;
    ReadOpening(lead);
    forall m | ReadMessage(m).Ok?
      ensures FlatMap(TurnGists, ReadMessage(m).value) == MsgLook(m)
    {
      ReadTurnGists(m);
    }
    assert lead + rest == w.messages;
    hide ReadMessage, ReadInstructions, TurnGists, MsgGists, FlatMap, Map, Collect;
    CollectFlat(ReadMessage, TurnGists, MsgLook, rest);
    FlatMapConcat(MsgLook, lead, rest);
    MapFlat(MsgGists, Look, MsgLook, w.messages);
  }

  // ---- Writing ------------------------------------------------------------------------------------

  lemma {:induction false} PrintedParts(ps: seq<Part>)
    requires forall k :: 0 <= k < |ps| ==> !ps[k].OtherP?
    ensures |FlatMap(PartGist, ps)| == |ps|
    ensures forall k :: 0 <= k < |ps| ==> [FlatMap(PartGist, ps)[k]] == PartGist(ps[k])
    decreases |ps|
  {
    if ps != [] {
      PrintedParts(ps[..|ps| - 1]);
    }
  }

  lemma LineSnoc(ts: seq<string>, t: string)
    ensures LineJoin(ts + [t]) == if ts == [] then t else LineJoin(ts) + "\n" + t
  {
    assert (ts + [t])[..|ts|] == ts;
  }

  lemma {:induction false} PlainLines(ps: seq<Part>)
    requires AllText(ps)
    ensures |FlatMap(PartTexts, ps)| == |ps| && JoinLines(ps) == LineJoin(FlatMap(PartTexts, ps))
    decreases |ps|
  {
    if ps != [] {
      var n := |ps| - 1;
      PlainLines(ps[..n]);
      var ts, t := FlatMap(PartTexts, ps[..n]), ps[n].text;
      assert FlatMap(PartTexts, ps) == ts + [t];
      hide FlatMap, LineJoin;
      LineSnoc(ts, t);
    }
  }

  lemma {:induction false} LinesJoin(ps: seq<Part>)
    requires AllText(ps)
    ensures |TextsOf(FlatMap(PartGist, ps))| == |ps|
    ensures JoinLines(ps) == LineJoin(TextsOf(FlatMap(PartGist, ps)))
  {
    hide FlatMap, TextsOf, LineJoin, JoinLines;
    PlainLines(ps);
    TextsFlat(ps);
  }

  lemma {:induction false} PrintedBody(ps: seq<Part>)
    requires ps != [] && forall k :: 0 <= k < |ps| ==> !ps[k].OtherP?
    ensures BodyGists(ContentBody(ps)) == ChatBody(FlatMap(PartGist, ps))
  {
    PrintedParts(ps);
    var gs := FlatMap(PartGist, ps);
    assert gs != [];
    forall k | 0 <= k < |ps|
      ensures gs[k].Words? <==> ps[k].TextP?
    {
      assert [gs[k]] == PartGist(ps[k]);
    }
    assert AllWords(gs) <==> AllText(ps);
    hide FlatMap, PartGist, LineJoin, TextsOf;
    if AllText(ps) {
      LinesJoin(ps);
    }
  }

  lemma PrintedAnswer(c: Content)
    requires PrintResult(c).Ok?
    ensures FlatMap(MsgGists, PrintResult(c).value) == Uttered(Person, ChatAnswer(c))
  {
    FlatMapOne(MsgGists, PrintResult(c).value[0]);
  }

  function AnswerSaid(c: Content): seq<Utterance> {
    Uttered(Person, ChatAnswer(c))
  }

  lemma {:induction false} AnswersSaid(cs: seq<Content>)
    ensures FlatMap(AnswerSaid, cs) == Uttered(Person, FlatMap(ChatAnswer, cs))
    decreases |cs|
  {
    if cs != [] {
      var n := |cs| - 1;
      AnswersSaid(cs[..n]);
      UtteredConcat(Person, FlatMap(ChatAnswer, cs[..n]), ChatAnswer(cs[n]));
    }
  }

  lemma {:induction false} PrintedAnswers(cs: seq<Content>)
    requires Collect(PrintResult, cs).Ok?
    ensures FlatMap(MsgGists, Collect(PrintResult, cs).value) == Uttered(Person, FlatMap(ChatAnswer, cs))
  {
    forall c | PrintResult(c).Ok?
      ensures FlatMap(MsgGists, PrintResult(c).value) == AnswerSaid(c)
    {
      PrintedAnswer(c);
    }
    hide PrintResult, MsgGists, ChatAnswer;
    CollectFlat(PrintResult, MsgGists, AnswerSaid, cs);
    AnswersSaid(cs);
  }

  lemma OnlyAnswers(cs: seq<Content>)
    ensures FlatMap(ChatAnswer, FlatMap(OnlyResult, cs)) == FlatMap(ChatAnswer, cs)
  {
    forall c: Content
      ensures FlatMap(ChatAnswer, OnlyResult(c)) == ChatAnswer(c)
    {
      if c.ToolResult? { FlatMapOne(ChatAnswer, c); } else { FlatMapNothing(ChatAnswer, []); }
    }
    FlatMapCompose(OnlyResult, ChatAnswer, ChatAnswer, cs);
  }

  lemma UserPartGist(c: Content)
    requires UserPart(c).Ok?
    ensures FlatMap(PartGist, UserPart(c).value) == Shown(c)
  {
    if UserPart(c).value != [] {
      FlatMapOne(PartGist, UserPart(c).value[0]);
    }
  }

  predicate Readable(p: Part) {
    !p.OtherP?
  }

  lemma {:induction false} UserParts(cs: seq<Content>)
    requires Collect(UserPart, cs).Ok?
    ensures FlatMap(PartGist, Collect(UserPart, cs).value) == FlatMap(Shown, cs)
    ensures forall k :: 0 <= k < |Collect(UserPart, cs).value| ==> !Collect(UserPart, cs).value[k].OtherP?
  {
    forall c | UserPart(c).Ok?
      ensures FlatMap(PartGist, UserPart(c).value) == Shown(c)
      ensures forall p :: p in UserPart(c).value ==> Readable(p)
    {
      UserPartGist(c);
    }
    hide UserPart, PartGist, Shown;
    CollectFlat(UserPart, PartGist, Shown, cs);
    CollectAll(UserPart, Readable, cs);
    var ps := Collect(UserPart, cs).value;
    assert forall k :: 0 <= k < |ps| ==> ps[k] in ps;
  }

  lemma {:induction false} PrintedUserMessage(parts: seq<Part>)
    requires parts != [] && forall k :: 0 <= k < |parts| ==> !parts[k].OtherP?
    ensures MsgGists(Msg(UserR, ContentBody(parts), [], "")) == Uttered(Person, ChatBody(FlatMap(PartGist, parts)))
  {
    PrintedBody(parts);
    hide FlatMap, ContentBody, BodyGists, ChatBody, Uttered;
    var m := Msg(UserR, ContentBody(parts), [], "");
    assert TurnSays(m) == BodyGists(m.content);
  }

  /** A user turn says its results, and then its words and pictures. */
  lemma {:induction false} PrintedUser(cs: seq<Content>)
    requires PrintUser(cs).Ok?
    ensures FlatMap(MsgGists, PrintUser(cs).value)
            == Uttered(Person, FlatMap(ChatAnswer, cs) + ChatBody(FlatMap(Shown, cs)))
  {
    var parts, results := Collect(UserPart, cs).value, Collect(PrintResult, FlatMap(OnlyResult, cs)).value;
    hide ContentBody, BodyGists, PartGist, Shown, ChatAnswer, Uttered, MsgGists, UserPart, PrintResult, OnlyResult;
    UserParts(cs);
    PrintedAnswers(FlatMap(OnlyResult, cs));
    OnlyAnswers(cs);
    var said, shown := FlatMap(ChatAnswer, cs), FlatMap(Shown, cs);
    if parts == [] {
      assert shown == [] && ChatBody(shown) == [];
      assert results + [] == results && said + [] == said;
    } else {
      hide FlatMap, Collect, ChatBody;
      PrintedUserMessage(parts);
      FlatMapSnoc(MsgGists, results, Msg(UserR, ContentBody(parts), [], ""));
      UtteredConcat(Person, said, ChatBody(shown));
    }
  }

  lemma AssistantPartGist(c: Content)
    requires AssistantPart(c).Ok?
    ensures FlatMap(PartGist, AssistantPart(c).value) == Wordy(c)
  {
    if c.Text? { FlatMapOne(PartGist, TextP(c.text)); } else { FlatMapNothing(PartGist, []); }
  }

  lemma {:induction false} AssistantParts(cs: seq<Content>)
    requires Collect(AssistantPart, cs).Ok?
    ensures FlatMap(PartGist, Collect(AssistantPart, cs).value) == FlatMap(Wordy, cs)
    ensures AllText(Collect(AssistantPart, cs).value)
  {
    forall c | AssistantPart(c).Ok?
      ensures FlatMap(PartGist, AssistantPart(c).value) == Wordy(c)
    {
      AssistantPartGist(c);
    }
    CollectAll(AssistantPart, (p: Part) => p.TextP?, cs);
    hide AssistantPart, PartGist, Wordy;
    CollectFlat(AssistantPart, PartGist, Wordy, cs);
    var ps := Collect(AssistantPart, cs).value;
    assert forall k :: 0 <= k < |ps| ==> ps[k] in ps;
  }

  lemma {:induction false} WordyTexts(cs: seq<Content>)
    ensures TextsOf(FlatMap(Wordy, cs)) == TextsIn(cs)
    decreases |cs|
  {
    if cs != [] {
      var n := |cs| - 1;
      WordyTexts(cs[..n]);
      var gs := FlatMap(Wordy, cs[..n]);
      if cs[n].Text? {
        assert (gs + [Words(cs[n].text)])[..|gs|] == gs;
      } else {
        assert gs + [] == gs && TextsIn(cs[..n]) + [] == TextsIn(cs[..n]);
      }
    }
  }

  lemma {:induction false} PrintedCalls(cs: seq<Content>)
    ensures FlatMap(CallGist, FlatMap(PrintCall, cs)) == FlatMap(AskOf, cs)
    ensures |FlatMap(PrintCall, cs)| == |FlatMap(AskOf, cs)|
  {
    forall c: Content
      ensures FlatMap(CallGist, PrintCall(c)) == AskOf(c)
      ensures |PrintCall(c)| == |AskOf(c)|
    {
      if c.ToolUse? { FlatMapOne(CallGist, PrintCall(c)[0]); } else { FlatMapNothing(CallGist, []); }
    }
    hide CallGist, PrintCall, AskOf;
    FlatMapCompose(PrintCall, CallGist, AskOf, cs);
    SameLength(PrintCall, AskOf, cs);
  }

  lemma {:induction false} SameLength<A, B, C>(f: A -> seq<B>, g: A -> seq<C>, xs: seq<A>)
    requires forall x :: |f(x)| == |g(x)|
    ensures |FlatMap(f, xs)| == |FlatMap(g, xs)|
    decreases |xs|
  {
    if xs != [] {
      SameLength(f, g, xs[..|xs| - 1]);
    }
  }

  lemma {:induction false} AssistantBody(cs: seq<Content>)
    requires Collect(AssistantPart, cs).Ok?
    ensures var parts := Collect(AssistantPart, cs).value;
            && (parts == [] <==> TextsIn(cs) == [])
            && (parts != [] ==> ContentBody(parts) == Plain(LineJoin(TextsIn(cs))))
  {
    AssistantParts(cs);
    LinesJoin(Collect(AssistantPart, cs).value);
    WordyTexts(cs);
  }

  lemma {:induction false} PrintedAssistant(m: Message)
    requires m.role == Assistant && PrintAssistant(m.content).Ok?
    ensures FlatMap(MsgGists, PrintAssistant(m.content).value) == ChatTurn(m)
  {
    hide Uttered;
    AssistantBody(m.content);
    PrintedCalls(m.content);
    var p := PrintAssistant(m.content).value[0];
    FlatMapOne(MsgGists, p);
    hide FlatMap, Collect, ContentBody, TextsIn, LineJoin;
    var ts, asks := TextsIn(m.content), FlatMap(AskOf, m.content);
    assert TurnSays(p)
        == (if ts != [] then [Words(LineJoin(ts))] else if asks == [] then [Words("")] else []) + asks;
  }

  lemma {:induction false} PrintedInstructions(cs: seq<Content>)
    ensures MsgGists(Msg(SystemR, Plain(JoinText(cs)), [], ""))
            == [Utterance(Instructor, Words(BlankJoin(TextsIn(cs))))]
  {
    JoinTextJoins(cs);
    hide JoinText, BlankJoin, TextsIn;
    assert [Words(JoinText(cs))] + [] == [Words(JoinText(cs))];
  }

  lemma {:induction false} PrintedTurn(m: Message)
    requires PrintMessage(m).Ok?
    ensures FlatMap(MsgGists, PrintMessage(m).value) == ChatTurn(m)
  {
    hide PrintUser, PrintAssistant, MsgGists, FlatMap, Collect, ChatAnswer, ChatBody, Shown, Uttered, JoinText,
        BlankJoin;
    match m.role {
      case System =>
        PrintedInstructions(m.content);
        FlatMapOne(MsgGists, Msg(SystemR, Plain(JoinText(m.content)), [], ""));
      case Tool => PrintedAnswers(m.content);
      case User => PrintedUser(m.content);
      case Assistant => PrintedAssistant(m);
    }
  }

  /** A request that can be sent says what Chat can say of it. */
  lemma {:induction false} Keeps(r: Request, model: string, bedrock: bool)
    requires FromIR(r, model, bedrock).Ok?
    ensures WireGists(FromIR(r, model, bedrock).value) == ChatSays(r)
  {
    forall m | PrintMessage(m).Ok?
      ensures FlatMap(MsgGists, PrintMessage(m).value) == ChatTurn(m)
    {
      PrintedTurn(m);
    }
    hide PrintMessage, MsgGists, ChatTurn, FlatMap, Map, Collect, JoinText, BlankJoin;
    CollectFlat(PrintMessage, MsgGists, ChatTurn, r.messages);
    FlatMapConcat(MsgGists, SystemMessage(r.system), Collect(PrintMessage, r.messages).value);
    if r.system == [] {
      FlatMapNothing(MsgGists, []);
    } else {
      PrintedInstructions(r.system);
      FlatMapOne(MsgGists, SystemMessage(r.system)[0]);
    }
  }
}
