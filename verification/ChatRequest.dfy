/** The OpenAI Chat Completions request codec (internal/protocol/translate/openai_chat.go). */
module ChatRequest {
  import opened Folds
  import opened RequestIr

  datatype Part = TextP(text: string) | ImageP(url: Option<string>) | OtherP(kind: string)

  datatype Body = NoBody | Plain(text: string) | Parts(parts: seq<Part>)

  datatype Call = Call(id: string, name: string, args: Arguments)

  datatype Msg = Msg(role: WireRole, content: Body, calls: seq<Call>, toolCallId: string)

  datatype ToolW = ToolW(kind: string, def: ToolDef)

  datatype Stop = NoStop | One(word: string) | Many(words: seq<string>)

  datatype Choice = NoChoice | Word(word: string) | Function(name: string)

  datatype Wire = Wire(model: string, messages: seq<Msg>, tools: seq<ToolW>, choice: Choice, parallel: Option<bool>,
                       maxCompletionTokens: Option<int>, maxTokens: Option<int>, temperature: Option<real>,
                       topP: Option<real>, stop: Stop, stream: bool, includeUsage: bool,
                       responseFormat: Option<string>, reasoningEffort: string)

  // ---- ToIR -------------------------------------------------------------------------------------

  function ReadPart(p: Part): Result<seq<Content>> {
    match p
    case TextP(s) => Ok([Text(s)])
    case ImageP(None) => Ok([Image("", "", "")])
    case ImageP(Some(u)) => Ok([ImageOf(u)])
    case OtherP(_) => Err("unsupported part type")
  }

  function ReadBody(b: Body): Result<seq<Content>> {
    match b
    case NoBody => Ok([])
    case Plain(s) => Ok([Text(s)])
    case Parts(ps) => Collect(ReadPart, ps)
  }

  function ReadCall(c: Call): seq<Content> {
    [ToolUse(c.id, c.name, c.args.Read())]
  }

  /** The text of a tool message; parts that cannot be read count as none. */
  function ToolText(b: Body): string {
    if b.Plain? then b.text
    else if ReadBody(b).Ok? then JoinText(ReadBody(b).value)
    else ""
  }

  predicate Instructs(m: Msg) {
    m.role == SystemR || m.role == DeveloperR
  }

  /** A message that does not belong to the leading instructions. */
  function ReadMessage(m: Msg): Result<seq<Message>> {
    if m.role == ToolR then Ok([Message(Tool, [ToolResult(m.toolCallId, Str(ToolText(m.content)), false)])])
    else if !Instructs(m) && m.role != UserR && m.role != AssistantR then Err("unknown role")
    else
      var content := ReadBody(m.content);
      if content.Err? then Err(content.error)
      else if Instructs(m) then Ok([Message(System, content.value)])
      else if m.role == UserR then Ok([Message(User, content.value)])
      else Ok([Message(Assistant, content.value + FlatMap(ReadCall, m.calls))])
  }

  function ReadInstructions(m: Msg): Result<seq<Content>> {
    ReadBody(m.content)
  }

  function Leading(ms: seq<Msg>): (n: nat)
    ensures n <= |ms|
  {
    if ms == [] || !Instructs(ms[0]) then 0 else 1 + Leading(ms[1..])
  }

  function ReadTool(t: ToolW): seq<ToolDef> {
    if t.kind != "function" && t.kind != "" then [] else [t.def]
  }

  function ReadStop(s: Stop): seq<string> {
    match s
    case NoStop => []
    case One(w) => [w]
    case Many(ws) => ws
  }

  function ReadChoice(c: Choice): ToolChoice {
    match c
    case NoChoice => Unset
    case Word(s) => if s == "none" then Never else if s == "required" then Required else Unset
    case Function(name) => if name != "" then Named(name) else Unset
  }

  function ToIR(w: Wire): Result<Request> {
    if w.model == "" then Err("model is required")
    else
      var n := Leading(w.messages);
      var system, messages := Collect(ReadInstructions, w.messages[..n]), Collect(ReadMessage, w.messages[n..]);
      if system.Err? then Err(system.error)
      else if messages.Err? then Err(messages.error)
      else Ok(Request(w.model, system.value, messages.value, FlatMap(ReadTool, w.tools), ReadChoice(w.choice),
                      w.parallel, if w.maxCompletionTokens.Some? then w.maxCompletionTokens else w.maxTokens,
                      w.temperature, w.topP, ReadStop(w.stop), w.stream, w.responseFormat))
  }

  lemma LeadingStep(ms: seq<Msg>)
    ensures Leading(ms) == if ms == [] || !Instructs(ms[0]) then 0 else 1 + Leading(ms[1..])
  {
  }

  /** The message loop of `ToIR`, with its `leading` flag. */
  method ReadMessages(ms: seq<Msg>) returns (system: Result<seq<Content>>, messages: Result<seq<Message>>)
    ensures system == Collect(ReadInstructions, ms[..Leading(ms)])
    ensures system.Ok? ==> messages == Collect(ReadMessage, ms[Leading(ms)..])
  {
    var leading := true;
    var hoisted: seq<Content>, turns: seq<Message> := [], [];
    ghost var n := Leading(ms);
    hide Collect, ReadMessage, ReadBody, Leading;
    CollectNone(ReadInstructions);
    CollectNone(ReadMessage);
    assert ms[..0] == [] && ms[0..] == ms;
    for k := 0 to |ms|
      invariant leading ==> turns == [] && n == k + Leading(ms[k..])
      invariant leading ==> Collect(ReadInstructions, ms[..k]) == Ok(hoisted)
      invariant !leading ==> n <= k && Collect(ReadInstructions, ms[..n]) == Ok(hoisted)
      invariant !leading ==> Collect(ReadMessage, ms[n..k]) == Ok(turns)
    {
      assert ms[k..][1..] == ms[k + 1..];
      LeadingStep(ms[k..]);
      if leading && Instructs(ms[k]) {
        var blocks := ReadBody(ms[k].content);
        CollectSnoc(ReadInstructions, ms[..k], ms[k]);
        assert ms[..k] + [ms[k]] == ms[..k + 1];
        if blocks.Err? {
          CollectConcat(ReadInstructions, ms[..k + 1], ms[k + 1..n]);
          assert ms[..k + 1] + ms[k + 1..n] == ms[..n];
          return blocks, Ok([]);
        }
        hoisted := hoisted + blocks.value;
      } else {
        if leading {
          assert ms[n..k] == [];
        }
        leading := false;
        var next := ReadMessage(ms[k]);
        CollectSnoc(ReadMessage, ms[n..k], ms[k]);
        assert ms[n..k] + [ms[k]] == ms[n..k + 1];
        if next.Err? {
          CollectConcat(ReadMessage, ms[n..k + 1], ms[k + 1..]);
          assert ms[n..k + 1] + ms[k + 1..] == ms[n..];
          return Ok(hoisted), next;
        }
        turns := turns + next.value;
      }
    }
    LeadingStep(ms[|ms|..]);
    assert ms[n..|ms|] == ms[n..] && (leading ==> ms[n..] == []);
    system, messages := Ok(hoisted), Ok(turns);
  }

  // ---- FromIR -----------------------------------------------------------------------------------

  predicate AllText(ps: seq<Part>) {
    forall k :: 0 <= k < |ps| ==> ps[k].TextP?
  }

  function JoinLines(ps: seq<Part>): string
    requires AllText(ps)
  {
    if ps == [] then ""
    else if |ps| == 1 then ps[0].text
    else JoinLines(ps[..|ps| - 1]) + "\n" + ps[|ps| - 1].text
  }

  function ContentBody(ps: seq<Part>): Body {
    if AllText(ps) then Plain(JoinLines(ps)) else Parts(ps)
  }

  /** `chatContent`: one string when all parts are text. */
  method RenderParts(ps: seq<Part>) returns (b: Body)
    ensures b == ContentBody(ps)
  {
    var k := 0;
    while k < |ps|
      invariant k <= |ps| && AllText(ps[..k])
    {
      if !ps[k].TextP? {
        return Parts(ps);
      }
      k := k + 1;
    }
    var s := "";
    for i := 0 to |ps|
      invariant s == JoinLines(ps[..i])
    {
      assert ps[..i + 1][..i] == ps[..i];
      if i > 0 {
        s := s + "\n";
      }
      s := s + ps[i].text;
    }
    assert ps[..|ps|] == ps;
    b := Plain(s);
  }

  function PrintResult(c: Content): Result<seq<Msg>> {
    if c.ToolResult? then Ok([Msg(ToolR, Plain(MarkError(c.result.AsText(), c.isError)), [], c.id)])
    else Err("tool message may only carry tool_result")
  }

  function UserPart(c: Content): Result<seq<Part>> {
    match c
    case Text(s) => Ok([TextP(s)])
    case Image(_, _, _) => Ok([ImageP(Some(ImageUrl(c)))])
    case ToolResult(_, _, _) => Ok([])
    case Thinking(_, _, _) => Ok([])
    case ToolUse(_, _, _) => Err("unsupported content kind in user message")
  }

  function OnlyResult(c: Content): seq<Content> {
    if c.ToolResult? then [c] else []
  }

  function AssistantPart(c: Content): Result<seq<Part>> {
    match c
    case Text(s) => Ok([TextP(s)])
    case Image(_, _, _) => Ok([])
    case ToolUse(_, _, _) => Ok([])
    case Thinking(_, _, _) => Ok([])
    case ToolResult(_, _, _) => Err("unsupported content kind in assistant message")
  }

  function PrintCall(c: Content): seq<Call> {
    if c.ToolUse? then [Call(c.id, c.name, PrintArguments(c.input))] else []
  }

  function PrintUser(cs: seq<Content>): Result<seq<Msg>> {
    var parts, results := Collect(UserPart, cs), Collect(PrintResult, FlatMap(OnlyResult, cs));
    if parts.Err? then Err(parts.error)
    else if results.Err? then results
    else Ok(results.value + if parts.value == [] then [] else [Msg(UserR, ContentBody(parts.value), [], "")])
  }

  function PrintAssistant(cs: seq<Content>): Result<seq<Msg>> {
    var parts, calls := Collect(AssistantPart, cs), FlatMap(PrintCall, cs);
    if parts.Err? then Err(parts.error)
    else Ok([Msg(AssistantR,
                 if parts.value != [] then ContentBody(parts.value) else if calls == [] then Plain("") else NoBody,
                 calls, "")])
  }

  /** `irMessageToChat`: results leave a user turn first, as messages of their own. */
  function PrintMessage(m: Message): Result<seq<Msg>> {
    match m.role
    case System => Ok([Msg(SystemR, Plain(JoinText(m.content)), [], "")])
    case Tool => Collect(PrintResult, m.content)
    case User => PrintUser(m.content)
    case Assistant => PrintAssistant(m.content)
  }

  /** The accumulating loop for an assistant turn. */
  method BuildAssistant(cs: seq<Content>) returns (r: Result<seq<Msg>>)
    ensures r == PrintAssistant(cs)
  {
    var parts: seq<Part>, calls: seq<Call> := [], [];
    for k := 0 to |cs|
      invariant Collect(AssistantPart, cs[..k]) == Ok(parts) && FlatMap(PrintCall, cs[..k]) == calls
    {
      CollectSnoc(AssistantPart, cs[..k], cs[k]);
      FlatMapSnoc(PrintCall, cs[..k], cs[k]);
      assert cs[..k] + [cs[k]] == cs[..k + 1];
      if cs[k].Text? {
        parts := parts + [TextP(cs[k].text)];
      } else if cs[k].ToolUse? {
        calls := calls + [Call(cs[k].id, cs[k].name, PrintArguments(cs[k].input))];
      } else if cs[k].ToolResult? {
        CollectConcat(AssistantPart, cs[..k + 1], cs[k + 1..]);
        assert cs[..k + 1] + cs[k + 1..] == cs;
        return Err("unsupported content kind in assistant message");
      }
    }
    assert cs[..|cs|] == cs;
    var body := NoBody;
    if |parts| > 0 {
      body := RenderParts(parts);
    } else if |calls| == 0 {
      body := Plain("");
    }
    r := Ok([Msg(AssistantR, body, calls, "")]);
  }

  /** The splitting loop for a user turn. */
  method BuildUser(cs: seq<Content>) returns (r: Result<seq<Msg>>)
    ensures r == PrintUser(cs)
  {
    var parts: seq<Part>, results: seq<Content> := [], [];
    for k := 0 to |cs|
      invariant Collect(UserPart, cs[..k]) == Ok(parts) && FlatMap(OnlyResult, cs[..k]) == results
    {
      CollectSnoc(UserPart, cs[..k], cs[k]);
      FlatMapSnoc(OnlyResult, cs[..k], cs[k]);
      assert cs[..k] + [cs[k]] == cs[..k + 1];
      if cs[k].Text? {
        parts := parts + [TextP(cs[k].text)];
      } else if cs[k].Image? {
        parts := parts + [ImageP(Some(ImageUrl(cs[k])))];
      } else if cs[k].ToolResult? {
        results := results + [cs[k]];
      } else if cs[k].ToolUse? {
        CollectConcat(UserPart, cs[..k + 1], cs[k + 1..]);
        assert cs[..k + 1] + cs[k + 1..] == cs;
        return Err("unsupported content kind in user message");
      }
    }
    assert cs[..|cs|] == cs;
    var out := AppendAll(PrintResult, results);
    if out.Err? || |parts| == 0 {
      assert out.Ok? ==> out.value + [] == out.value;
      return out;
    }
    var body := RenderParts(parts);
    r := Ok(out.value + [Msg(UserR, body, [], "")]);
  }

  function PrintTool(t: ToolDef): ToolW {
    ToolW("function", WithSchema(t))
  }

  function PrintChoice(c: ToolChoice): Choice {
    match c
    case Unset => NoChoice
    case Auto => NoChoice
    case Required => Word("required")
    case Never => Word("none")
    case Named(name) => Function(name)
  }

  function SystemMessage(system: seq<Content>): seq<Msg> {
    if system == [] then [] else [Msg(SystemR, Plain(JoinText(system)), [], "")]
  }

  function FromIR(r: Request, providerModel: string, bedrock: bool): Result<Wire> {
    var messages := Collect(PrintMessage, r.messages);
    if messages.Err? then Err(messages.error)
    else Ok(Wire(providerModel, SystemMessage(r.system) + messages.value, Map(PrintTool, r.tools),
                 PrintChoice(r.toolChoice), r.parallel, PositiveOnly(r.maxTokens), None, r.temperature, r.topP,
                 if r.stop == [] then NoStop else Many(r.stop), r.stream, r.stream, Present(r.responseFormat),
                 if r.tools != [] && bedrock then "none" else ""))
  }

  method BuildMessage(m: Message) returns (r: Result<seq<Msg>>)
    ensures r == PrintMessage(m)
  {
    if m.role == System {
      var s := JoinTextLoop(m.content);
      r := Ok([Msg(SystemR, Plain(s), [], "")]);
    } else if m.role == Tool {
      r := AppendAll(PrintResult, m.content);
    } else if m.role == User {
      r := BuildUser(m.content);
    } else {
      r := BuildAssistant(m.content);
    }
  }

  /** `FromIR` as a sequence of loops. */
  method Build(r: Request, providerModel: string, bedrock: bool) returns (out: Result<Wire>)
    ensures out == FromIR(r, providerModel, bedrock)
  {
    hide PrintMessage, Map, WithSchema, Collect, JoinText;
    CollectNone(PrintMessage);
    assert r.messages[..0] == [];
    var messages: seq<Msg> := [];
    if |r.system| > 0 {
      var s := JoinTextLoop(r.system);
      messages := [Msg(SystemR, Plain(s), [], "")];
    }
    ghost var turns: seq<Msg> := [];
    for k := 0 to |r.messages|
      invariant Collect(PrintMessage, r.messages[..k]) == Ok(turns) && messages == SystemMessage(r.system) + turns
    {
      CollectSnoc(PrintMessage, r.messages[..k], r.messages[k]);
      assert r.messages[..k] + [r.messages[k]] == r.messages[..k + 1];
      var next := BuildMessage(r.messages[k]);
      if next.Err? {
        CollectConcat(PrintMessage, r.messages[..k + 1], r.messages[k + 1..]);
        assert r.messages[..k + 1] + r.messages[k + 1..] == r.messages;
        return Err(next.error);
      }
      messages := messages + next.value;
      turns := turns + next.value;
    }
    assert r.messages[..|r.messages|] == r.messages;
    var tools := Map(PrintTool, r.tools);
    out := Ok(Wire(providerModel, messages, tools, PrintChoice(r.toolChoice), r.parallel, PositiveOnly(r.maxTokens),
                   None, r.temperature, r.topP, if |r.stop| > 0 then Many(r.stop) else NoStop, r.stream, r.stream,
                   Present(r.responseFormat), if |tools| > 0 && bedrock then "none" else ""));
  }

  // ---- One message through printer and parser -----------------------------------------------------

  /** The turns the parser makes of what the printer wrote. */
  predicate Regular(m: Message) {
    && m.content != []
    && AllSettle(m)
    && match m.role
       case System => |m.content| == 1 && m.content[0].Text?
       case Tool => |m.content| == 1 && m.content[0].ToolResult? && m.content[0].result.Str? && !m.content[0].isError
       case User =>
         || (|m.content| == 1 && m.content[0].Text?)
         || ((forall c :: c in m.content ==> IsPart(c)) && exists c :: c in m.content && c.Image?)
       case Assistant => (m.content[0].Text? || IsCall(m.content[0])) && forall c :: c in m.content[1..] ==> IsCall(c)
  }

  lemma {:induction false} CallsReturn(cs: seq<Content>)
    requires forall c :: c in cs ==> IsCall(c)
    ensures Collect(AssistantPart, cs) == Ok([])
    ensures FlatMap(ReadCall, FlatMap(PrintCall, cs)) == cs && |FlatMap(PrintCall, cs)| == |cs|
    decreases |cs|
  {
    if cs != [] {
      var n := |cs| - 1;
      assert cs[n] in cs && cs == cs[..n] + [cs[n]];
      CallsReturn(cs[..n]);
      CollectSnoc(AssistantPart, cs[..n], cs[n]);
      FlatMapSnoc(ReadCall, FlatMap(PrintCall, cs[..n]), PrintCall(cs[n])[0]);
    }
  }

  lemma RegularAssistant(m: Message)
    requires Regular(m) && m.role == Assistant
    ensures PrintMessage(m).Ok? && |PrintMessage(m).value| == 1 && PrintMessage(m).value[0].role == AssistantR
    ensures ReadMessage(PrintMessage(m).value[0]) == Ok([m])
  {
    hide AllSettle, Collect, FlatMap;
    var c := m.content[0];
    var rest := m.content[1..];
    assert m.content == [c] + rest;
    if c.Text? {
      CallsReturn(rest);
      CollectConcat(AssistantPart, [c], rest);
      FlatMapConcat(PrintCall, [c], rest);
      CollectOne(AssistantPart, c);
      FlatMapOne(PrintCall, c);
      assert Collect(AssistantPart, m.content) == Ok([TextP(c.text)]) by {
        assert [TextP(c.text)] + [] == [TextP(c.text)];
      }
      assert FlatMap(PrintCall, m.content) == FlatMap(PrintCall, rest) by {
        assert [] + FlatMap(PrintCall, rest) == FlatMap(PrintCall, rest);
      }
    } else {
      CallsReturn(m.content);
      assert [] + m.content == m.content;
    }
  }

  lemma {:induction false} RegularUser(m: Message)
    requires Regular(m) && m.role == User
    ensures PrintMessage(m).Ok? && |PrintMessage(m).value| == 1 && PrintMessage(m).value[0].role == UserR
    ensures ReadMessage(PrintMessage(m).value[0]) == Ok([SettleMessage(m)])
  {
    hide AllSettle, Collect, FlatMap, Map;
    NoResults(m.content);
    CollectNone(PrintResult);
    if |m.content| == 1 && m.content[0].Text? {
      assert m.content == [m.content[0]];
      CollectOne(UserPart, m.content[0]);
      assert SettleMessage(m).content == m.content;
    } else {
      forall c | c in m.content
        ensures UserPart(c).Ok? && Collect(ReadPart, UserPart(c).value) == Ok([Settle(c)])
      {
        CollectOne(ReadPart, UserPart(c).value[0]);
      }
      CollectTwice(UserPart, ReadPart, Settle, m.content);
      ImagesStay(m.content);
    }
  }

  lemma {:induction false} NoResults(cs: seq<Content>)
    requires forall c :: c in cs ==> IsPart(c)
    ensures FlatMap(OnlyResult, cs) == []
    decreases |cs|
  {
    if cs != [] {
      assert cs[|cs| - 1] in cs;
      NoResults(cs[..|cs| - 1]);
    }
  }

  lemma {:induction false} ImagesStay(cs: seq<Content>)
    requires Collect(UserPart, cs).Ok?
    ensures (exists c :: c in cs && c.Image?) ==>
            !AllText(Collect(UserPart, cs).value) && Collect(UserPart, cs).value != []
    decreases |cs|
  {
    if cs != [] {
      var n := |cs| - 1;
      ImagesStay(cs[..n]);
      var front, last := Collect(UserPart, cs[..n]).value, UserPart(cs[n]).value;
      var all := Collect(UserPart, cs).value;
      assert all == front + last;
      if c :| c in cs && c.Image? {
        if cs[n].Image? {
          assert !all[|front|].TextP?;
        } else {
          assert c in cs[..n];
          var k :| 0 <= k < |front| && !front[k].TextP?;
          assert all[k] == front[k];
        }
      }
    }
  }

  lemma RegularInstructions(m: Message)
    requires Regular(m) && m.role == System
    ensures PrintMessage(m) == Ok([Msg(SystemR, Plain(m.content[0].text), [], "")])
    ensures ReadMessage(PrintMessage(m).value[0]) == Ok([m])
  {
    assert m.content == [Text(m.content[0].text)];
    JoinOne(m.content[0].text);
  }

  lemma RegularTool(m: Message)
    requires Regular(m) && m.role == Tool
    ensures PrintMessage(m) == Ok([Msg(ToolR, Plain(m.content[0].result.text), [], m.content[0].id)])
    ensures ReadMessage(PrintMessage(m).value[0]) == Ok([m])
  {
    assert m.content == [m.content[0]];
    CollectOne(PrintResult, m.content[0]);
  }

  lemma RegularIdle(m: Message)
    requires Regular(m) && m.role != User
    ensures SettleMessage(m) == m
  {
    hide AllSettle;
    assert m.content == [m.content[0]] + m.content[1..];
    NoImageNoChange(m);
  }

  lemma RegularOne(m: Message)
    requires Regular(m)
    ensures PrintMessage(m).Ok? && |PrintMessage(m).value| == 1
    ensures Instructs(PrintMessage(m).value[0]) <==> m.role == System
    ensures ReadMessage(PrintMessage(m).value[0]) == Ok([SettleMessage(m)])
  {
    hide ReadMessage, PrintMessage, Regular, SettleMessage;
    if m.role == User {
      RegularUser(m);
    } else {
      RegularIdle(m);
      match m.role
      case Assistant => RegularAssistant(m);
      case System => RegularInstructions(m);
      case Tool => RegularTool(m);
    }
  }

  /** A regular turn comes back as one turn, its images settled. */
  lemma RegularReturns(m: Message)
    requires Regular(m)
    ensures PrintMessage(m).Ok? && |PrintMessage(m).value| == 1
    ensures Instructs(PrintMessage(m).value[0]) <==> m.role == System
    ensures Collect(ReadMessage, PrintMessage(m).value) == Ok([SettleMessage(m)])
  {
    hide ReadMessage, PrintMessage, Collect, SettleMessage, Regular;
    RegularOne(m);
    assert PrintMessage(m).value == [PrintMessage(m).value[0]];
    CollectOne(ReadMessage, PrintMessage(m).value[0]);
  }

  lemma {:induction false} RegularStays(m: Message)
    requires Regular(m)
    ensures Regular(SettleMessage(m)) && SettleMessage(SettleMessage(m)) == SettleMessage(m)
  {
    SettledStays(m);
    if m.role == User {
      SettledUser(m);
    } else {
      assert m.content == [m.content[0]] + m.content[1..];
      NoImageNoChange(m);
    }
  }

  lemma {:induction false} SettledParts(cs: seq<Content>)
    requires forall c :: c in cs ==> IsPart(c)
    ensures forall c :: c in Map(Settle, cs) ==> IsPart(c)
    ensures (exists c :: c in cs && c.Image?) ==> exists c :: c in Map(Settle, cs) && c.Image?
    decreases |cs|
  {
    if cs != [] {
      var n := |cs| - 1;
      assert cs == cs[..n] + [cs[n]] && cs[n] in cs;
      SettledParts(cs[..n]);
      assert Map(Settle, cs) == Map(Settle, cs[..n]) + [Settle(cs[n])];
      hide Map, Settle;
      if c :| c in cs && c.Image? {
        if cs[n].Image? {
          assert Settle(cs[n]) in Map(Settle, cs);
        } else {
          assert c in cs[..n];
          var d :| d in Map(Settle, cs[..n]) && d.Image?;
          assert d in Map(Settle, cs);
        }
      }
    }
  }

  lemma {:induction false} SettledUser(m: Message)
    requires Regular(m) && m.role == User
    ensures Regular(SettleMessage(m))
  {
    SettledStays(m);
    hide AllSettle, Map;
    if !(|m.content| == 1 && m.content[0].Text?) {
      SettledParts(m.content);
      hide Settle;
    }
  }

  // ---- What the printer writes --------------------------------------------------------------------

  predicate PrintedPart(p: Part) {
    p.TextP? || (p.ImageP? && p.url.Some? && p.url.value != "")
  }

  predicate PrintedForm(m: Msg) {
    match m.role
    case SystemR => m.content.Plain?
    case ToolR => m.content.Plain?
    case UserR =>
      || m.content.Plain?
      || (m.content.Parts? && !AllText(m.content.parts) && forall p :: p in m.content.parts ==> PrintedPart(p))
    case AssistantR => m.content.Plain? || (m.content.NoBody? && m.calls != [])
    case _ => false
  }

  predicate IsToolMessage(m: Msg) {
    m.role == ToolR && m.content.Plain?
  }

  lemma PrintedForms(m: Message, p: Msg)
    requires PrintMessage(m).Ok? && p in PrintMessage(m).value
    ensures PrintedForm(p)
  {
    match m.role {
      case System =>
      case Tool => CollectAll(PrintResult, IsToolMessage, m.content);
      case User =>
        CollectAll(PrintResult, IsToolMessage, FlatMap(OnlyResult, m.content));
        CollectAll(UserPart, PrintedPart, m.content);
        hide Collect, FlatMap;
      case Assistant =>
        CollectAll(AssistantPart, (q: Part) => q.TextP?, m.content);
        var parts := Collect(AssistantPart, m.content).value;
        assert AllText(parts) by {
          assert forall k :: 0 <= k < |parts| ==> parts[k] in parts;
        }
        hide Collect, FlatMap;
    }
  }

  lemma {:induction false} PartsRead(ps: seq<Part>)
    requires forall p :: p in ps ==> PrintedPart(p)
    ensures Collect(ReadPart, ps).Ok?
    ensures forall c :: c in Collect(ReadPart, ps).value ==> IsPart(c) && Settles(c)
    ensures !AllText(ps) ==> exists c :: c in Collect(ReadPart, ps).value && c.Image?
    decreases |ps|
  {
    if ps != [] {
      var n := |ps| - 1;
      var p := ps[n];
      assert p in ps;
      PartsRead(ps[..n]);
      hide Settles;
      var front, all := Collect(ReadPart, ps[..n]).value, Collect(ReadPart, ps).value;
      assert all == front + ReadPart(p).value;
      if p.ImageP? {
        ReadImageSettles(p.url.value);
        assert ImageOf(p.url.value) in all;
      } else {
        TextSettles(p.text);
        if !AllText(ps) {
          var c :| c in front && c.Image?;
          assert c in all;
        }
      }
    }
  }

  lemma {:induction false} CallsRead(cs: seq<Call>)
    ensures forall c :: c in FlatMap(ReadCall, cs) ==> IsCall(c)
    ensures cs != [] ==> FlatMap(ReadCall, cs) != []
    decreases |cs|
  {
    if cs != [] { CallsRead(cs[..|cs| - 1]); }
  }

  lemma FormReads(m: Msg)
    requires PrintedForm(m)
    ensures ReadMessage(m).Ok? && |ReadMessage(m).value| == 1 && Regular(ReadMessage(m).value[0])
  {
    hide Collect, FlatMap;
    CallsRead(m.calls);
    if m.content.Parts? {
      PartsRead(m.content.parts);
      hide Settles;
    } else if m.role == AssistantR {
      var calls := FlatMap(ReadCall, m.calls);
      var x := ReadMessage(m).value[0];
      assert m.content.NoBody? ==> x.content == calls;
      assert m.content.Plain? ==> x.content[1..] == calls;
      assert m.content.NoBody? ==> forall c :: c in calls[1..] ==> c in calls;
    }
  }

  // ---- Whole requests -----------------------------------------------------------------------------

  /** What the parser makes of anything the printer wrote. */
  predicate RegularRequest(q: Request) {
    && q.model != ""
    && (forall c :: c in q.system ==> c.Text?)
    && (forall m :: m in q.messages ==> Regular(m))
    && (q.messages != [] ==> q.messages[0].role != System)
    && (forall t :: t in q.tools ==> WithSchema(t) == t)
    && ReadChoice(PrintChoice(q.toolChoice)) == q.toolChoice
    && PositiveOnly(q.maxTokens) == q.maxTokens
    && Present(q.responseFormat) == q.responseFormat
  }

  /** What one more pass does: the system prompt becomes one text, and images settle. */
  function SettleRequest(q: Request): Request {
    q.(system := if q.system == [] then [] else [Text(JoinText(q.system))], messages := Map(SettleMessage, q.messages))
  }

  function Pass(r: Request, model: string, bedrock: bool): Result<Request> {
    match FromIR(r, model, bedrock)
    case Err(e) => Err(e)
    case Ok(w) => ToIR(w)
  }

  lemma {:induction false} LeadingExact(ms: seq<Msg>)
    ensures forall m :: m in ms[..Leading(ms)] ==> Instructs(m)
    ensures Leading(ms) < |ms| ==> !Instructs(ms[Leading(ms)])
    decreases |ms|
  {
    if ms != [] && Instructs(ms[0]) {
      var n := Leading(ms[1..]);
      LeadingExact(ms[1..]);
      assert ms[..n + 1] == [ms[0]] + ms[1..][..n];
    }
  }

  lemma {:induction false} ReadRoles(ms: seq<Msg>)
    requires Collect(ReadMessage, ms).Ok?
    ensures |Collect(ReadMessage, ms).value| == |ms|
    ensures forall k :: 0 <= k < |ms| ==> (Collect(ReadMessage, ms).value[k].role == System <==> Instructs(ms[k]))
    decreases |ms|
  {
    if ms != [] {
      hide ReadBody, ToolText;
      ReadRoles(ms[..|ms| - 1]);
    }
  }

  lemma PrintedMessages(r: Request, model: string, bedrock: bool)
    requires FromIR(r, model, bedrock).Ok?
    ensures forall m :: m in FromIR(r, model, bedrock).value.messages ==> PrintedForm(m)
  {
    forall m, p | m in r.messages && PrintMessage(m).Ok? && p in PrintMessage(m).value
      ensures PrintedForm(p)
    {
      PrintedForms(m, p);
    }
    hide PrintMessage, Collect;
    CollectAll(PrintMessage, PrintedForm, r.messages);
  }

  lemma {:induction false} TurnsAreRegular(ms: seq<Msg>)
    requires forall m :: m in ms ==> PrintedForm(m)
    ensures Collect(ReadMessage, ms).Ok? && forall x :: x in Collect(ReadMessage, ms).value ==> Regular(x)
    decreases |ms|
  {
    if ms != [] {
      var n := |ms| - 1;
      TurnsAreRegular(ms[..n]);
      assert ms[n] in ms;
      FormReads(ms[n]);
      hide ReadMessage, PrintedForm, Regular;
    }
  }

  lemma {:induction false} InstructionsAreText(ms: seq<Msg>)
    requires forall m :: m in ms ==> PrintedForm(m) && Instructs(m)
    ensures Collect(ReadInstructions, ms).Ok? && |Collect(ReadInstructions, ms).value| == |ms|
    ensures forall c :: c in Collect(ReadInstructions, ms).value ==> c.Text?
    decreases |ms|
  {
    if ms != [] {
      InstructionsAreText(ms[..|ms| - 1]);
      assert ms[|ms| - 1] in ms;
    }
  }

  lemma {:induction false} ToolsReturn(ts: seq<ToolDef>)
    ensures FlatMap(ReadTool, Map(PrintTool, ts)) == Map(WithSchema, ts)
    decreases |ts|
  {
    if ts != [] {
      var n := |ts| - 1;
      ToolsReturn(ts[..n]);
      FlatMapSnoc(ReadTool, Map(PrintTool, ts[..n]), PrintTool(ts[n]));
    }
  }

  lemma ChoiceReturns(c: ToolChoice)
    ensures ReadChoice(PrintChoice(ReadChoice(PrintChoice(c)))) == ReadChoice(PrintChoice(c))
  {
  }

  /** One pass makes any request regular. */
  lemma OnePassIsRegular(r: Request, model: string, bedrock: bool)
    requires FromIR(r, model, bedrock).Ok? && model != ""
    ensures Pass(r, model, bedrock).Ok? && RegularRequest(Pass(r, model, bedrock).value)
  {
    hide Collect, FlatMap, Map, Leading, PrintMessage, ReadMessage, PrintedForm, Regular, ReadChoice, PrintChoice,
        WithSchema;
    hide SystemMessage;
    var w := FromIR(r, model, bedrock).value;
    var n := Leading(w.messages);
    PrintedMessages(r, model, bedrock);
    LeadingExact(w.messages);
    InstructionsAreText(w.messages[..n]);
    TurnsAreRegular(w.messages[n..]);
    ReadRoles(w.messages[n..]);
    ToolsReturn(r.tools);
    SchemasAreSet(r.tools);
    ChoiceReturns(r.toolChoice);
  }

  lemma {:induction false} TurnsReturn(ms: seq<Message>)
    requires forall m :: m in ms ==> Regular(m)
    ensures Collect(PrintMessage, ms).Ok?
    ensures Collect(ReadMessage, Collect(PrintMessage, ms).value) == Ok(Map(SettleMessage, ms))
  {
    forall m | m in ms
      ensures PrintMessage(m).Ok? && Collect(ReadMessage, PrintMessage(m).value) == Ok([SettleMessage(m)])
    {
      RegularReturns(m);
    }
    hide Regular, PrintMessage, ReadMessage, SettleMessage;
    CollectTwice(PrintMessage, ReadMessage, SettleMessage, ms);
  }

  lemma FirstPrinted(ms: seq<Message>)
    requires (forall m :: m in ms ==> Regular(m)) && (ms != [] ==> ms[0].role != System)
    requires Collect(PrintMessage, ms).Ok?
    ensures var ps := Collect(PrintMessage, ms).value; ps != [] ==> !Instructs(ps[0])
  {
    if ms != [] {
      assert ms[0] in ms;
      RegularReturns(ms[0]);
      hide Regular, PrintMessage, ReadMessage, SettleMessage;
      CollectConcat(PrintMessage, [ms[0]], ms[1..]);
      CollectOne(PrintMessage, ms[0]);
      assert ms == [ms[0]] + ms[1..];
    }
  }

  /** At most one system message, then turns that do not start with one. */
  lemma Parted(system: seq<Content>, turns: seq<Msg>)
    requires turns != [] ==> !Instructs(turns[0])
    ensures var ms, n := SystemMessage(system) + turns, |SystemMessage(system)|;
            Leading(ms) == n && ms[..n] == SystemMessage(system) && ms[n..] == turns
  {
    var ms := SystemMessage(system) + turns;
    if system != [] {
      assert ms[1..] == turns;
    }
  }

  lemma InstructionsReturn(system: seq<Content>)
    ensures Collect(ReadInstructions, SystemMessage(system))
            == Ok(if system == [] then [] else [Text(JoinText(system))])
  {
    if system != [] {
      CollectOne(ReadInstructions, SystemMessage(system)[0]);
    }
  }

  /** A pass over a regular request, exactly. */
  lemma PassOnRegular(q: Request, bedrock: bool)
    requires RegularRequest(q)
    ensures Pass(q, q.model, bedrock) == Ok(SettleRequest(q))
  {
    hide Collect, FlatMap, Map, Leading, PrintMessage, ReadMessage, Regular, WithSchema, SystemMessage, SettleMessage;
    TurnsReturn(q.messages);
    FirstPrinted(q.messages);
    Parted(q.system, Collect(PrintMessage, q.messages).value);
    InstructionsReturn(q.system);
    ToolsReturn(q.tools);
    MapIdle(WithSchema, q.tools);
    hide ReadChoice, PrintChoice;
  }

  lemma {:induction false} SettledTurns(ms: seq<Message>)
    requires forall m :: m in ms ==> Regular(m)
    ensures forall m :: m in Map(SettleMessage, ms) ==> Regular(m) && SettleMessage(m) == m
    decreases |ms|
  {
    hide Regular, SettleMessage;
    if ms != [] {
      SettledTurns(ms[..|ms| - 1]);
      assert ms[|ms| - 1] in ms;
      RegularStays(ms[|ms| - 1]);
    }
  }

  lemma {:induction false} SettledIsRegular(q: Request)
    requires RegularRequest(q)
    ensures RegularRequest(SettleRequest(q)) && SettleRequest(SettleRequest(q)) == SettleRequest(q)
  {
    hide Regular, Map, WithSchema, ReadChoice, PrintChoice;
    SettledTurns(q.messages);
    JoinOne(JoinText(q.system));
    MapIdle(SettleMessage, Map(SettleMessage, q.messages));
  }

  // ---- When one pass is enough ----------------------------------------------------------------------

  function PartUrl(p: Part): seq<string> {
    if p.ImageP? then [if p.url.Some? then p.url.value else ""] else []
  }

  function MsgUrls(m: Msg): seq<string> {
    if m.role != ToolR && m.content.Parts? then FlatMap(PartUrl, m.content.parts) else []
  }

  function PartImages(p: Part): seq<Content> {
    FlatMap(ReadUrl, PartUrl(p))
  }

  function MsgImages(m: Msg): seq<Content> {
    FlatMap(ReadUrl, MsgUrls(m))
  }

  lemma ContentUrls(ps: seq<Part>)
    ensures MsgUrls(Msg(UserR, ContentBody(ps), [], "")) == FlatMap(PartUrl, ps)
  {
    hide FlatMap;
    if AllText(ps) {
      assert forall k :: 0 <= k < |ps| ==> PartUrl(ps[k]) == [];
      FlatMapNothing(PartUrl, ps);
    }
  }

  lemma UserUrls(cs: seq<Content>)
    requires PrintUser(cs).Ok?
    ensures FlatMap(MsgUrls, PrintUser(cs).value) == FlatMap(UrlOf, cs)
  {
    var parts, results := Collect(UserPart, cs).value, Collect(PrintResult, FlatMap(OnlyResult, cs)).value;
    CollectAll(PrintResult, IsToolMessage, FlatMap(OnlyResult, cs));
    hide FlatMap, Collect, ImageUrl;
    FlatMapNothing(MsgUrls, results);
    forall c | UserPart(c).Ok?
      ensures FlatMap(PartUrl, UserPart(c).value) == UrlOf(c)
    {
      if IsPart(c) { FlatMapOne(PartUrl, UserPart(c).value[0]); } else { FlatMapNothing(PartUrl, UserPart(c).value); }
    }
    CollectFlat(UserPart, PartUrl, UrlOf, cs);
    if parts == [] {
      FlatMapNothing(PartUrl, parts);
      assert results + [] == results;
    } else {
      ContentUrls(parts);
      FlatMapSnoc(MsgUrls, results, Msg(UserR, ContentBody(parts), [], ""));
    }
  }

  lemma PrintedUrls(m: Message)
    requires PrintMessage(m).Ok?
    ensures FlatMap(MsgUrls, PrintMessage(m).value) == TurnUrls(m)
  {
    if m.role == User {
      UserUrls(m.content);
    } else {
      forall p | p in PrintMessage(m).value ensures MsgUrls(p) == [] {
        PrintedForms(m, p);
        NotAUser(m, p);
      }
      hide PrintMessage, FlatMap;
      FlatMapNothing(MsgUrls, PrintMessage(m).value);
    }
  }

  lemma NotAUser(m: Message, p: Msg)
    requires m.role != User && PrintMessage(m).Ok? && p in PrintMessage(m).value
    ensures p.role != UserR
  {
    if m.role == Tool { CollectAll(PrintResult, IsToolMessage, m.content); }
  }

  lemma BodyImages(b: Body)
    requires ReadBody(b).Ok?
    ensures FlatMap(OnlyImage, ReadBody(b).value)
            == FlatMap(ReadUrl, if b.Parts? then FlatMap(PartUrl, b.parts) else [])
  {
    if b.Parts? {
      hide FlatMap, Collect;
      forall p | ReadPart(p).Ok?
        ensures FlatMap(OnlyImage, ReadPart(p).value) == PartImages(p)
      {
        PartImage(p);
      }
      CollectFlat(ReadPart, OnlyImage, PartImages, b.parts);
      FlatMapCompose(PartUrl, ReadUrl, PartImages, b.parts);
    } else {
      FlatMapNothing(OnlyImage, ReadBody(b).value);
    }
  }

  lemma PartImage(p: Part)
    requires ReadPart(p).Ok?
    ensures FlatMap(OnlyImage, ReadPart(p).value) == PartImages(p)
  {
    hide FlatMap;
    FlatMapOne(OnlyImage, ReadPart(p).value[0]);
    if p.ImageP? { FlatMapOne(ReadUrl, PartUrl(p)[0]); } else { FlatMapNothing(ReadUrl, PartUrl(p)); }
  }

  lemma ReadImages(m: Msg)
    requires ReadMessage(m).Ok?
    ensures FlatMap(TurnImages, ReadMessage(m).value) == MsgImages(m)
  {
    hide FlatMap, ReadBody, ToolText;
    var x := ReadMessage(m).value[0];
    FlatMapOne(TurnImages, x);
    if m.role == ToolR {
      FlatMapNothing(OnlyImage, x.content);
      FlatMapNothing(ReadUrl, MsgUrls(m));
    } else {
      BodyImages(m.content);
      if m.role == AssistantR {
        var calls := FlatMap(ReadCall, m.calls);
        FlatMapAll(ReadCall, (c: Content) => c.ToolUse?, m.calls);
        FlatMapNothing(OnlyImage, calls);
        FlatMapConcat(OnlyImage, ReadBody(m.content).value, calls);
      }
    }
  }

  lemma TurnsImages(ms: seq<Msg>)
    requires Collect(ReadMessage, ms).Ok?
    ensures FlatMap(TurnImages, Collect(ReadMessage, ms).value) == FlatMap(ReadUrl, FlatMap(MsgUrls, ms))
  {
    hide FlatMap, Collect, ReadMessage, TurnImages, MsgUrls;
    forall m | ReadMessage(m).Ok? ensures FlatMap(TurnImages, ReadMessage(m).value) == MsgImages(m) {
      ReadImages(m);
    }
    CollectFlat(ReadMessage, TurnImages, MsgImages, ms);
    FlatMapCompose(MsgUrls, ReadUrl, MsgImages, ms);
  }

  lemma {:induction false} PrintedTurnUrls(ms: seq<Message>)
    requires Collect(PrintMessage, ms).Ok?
    ensures FlatMap(MsgUrls, Collect(PrintMessage, ms).value) == FlatMap(TurnUrls, ms)
  {
    hide PrintMessage, FlatMap, Collect, TurnUrls, MsgUrls;
    forall m | PrintMessage(m).Ok? ensures FlatMap(MsgUrls, PrintMessage(m).value) == TurnUrls(m) {
      PrintedUrls(m);
    }
    CollectFlat(PrintMessage, MsgUrls, TurnUrls, ms);
  }

  /** Instructions carry no image. */
  lemma LeadingUrls(ms: seq<Msg>)
    requires forall m :: m in ms ==> PrintedForm(m)
    ensures FlatMap(MsgUrls, ms[Leading(ms)..]) == FlatMap(MsgUrls, ms)
  {
    hide FlatMap, Leading;
    var n := Leading(ms);
    LeadingExact(ms);
    assert ms[..n] + ms[n..] == ms;
    forall m | m in ms[..n] ensures MsgUrls(m) == [] {
      assert m in ms;
    }
    FlatMapNothing(MsgUrls, ms[..n]);
    FlatMapConcat(MsgUrls, ms[..n], ms[n..]);
  }

  /** What `FromIR` writes has the URLs of the user turns, all of them after the leading instructions. */
  lemma {:induction false} WireUrls(r: Request, model: string, bedrock: bool)
    requires FromIR(r, model, bedrock).Ok?
    ensures var ms := FromIR(r, model, bedrock).value.messages;
            FlatMap(MsgUrls, ms[Leading(ms)..]) == FlatMap(TurnUrls, r.messages)
  {
    hide PrintMessage, Leading, Map, FlatMap, Collect, TurnUrls, PrintedForm;
    var ms := FromIR(r, model, bedrock).value.messages;
    var head, turns := SystemMessage(r.system), Collect(PrintMessage, r.messages).value;
    PrintedMessages(r, model, bedrock);
    LeadingUrls(ms);
    PrintedTurnUrls(r.messages);
    FlatMapNothing(MsgUrls, head);
    FlatMapConcat(MsgUrls, head, turns);
  }

  /** A turn that is not printed at all. */
  predicate PrintsNothing(m: Message) {
    || (m.role == User && forall c :: c in m.content ==> c.Thinking?)
    || (m.role == Tool && m.content == [])
  }

  /** How many system turns are printed before the first other turn that is printed. */
  function Opening(ms: seq<Message>): nat {
    if ms == [] then 0
    else if ms[0].role == System then 1 + Opening(ms[1..])
    else if PrintsNothing(ms[0]) then Opening(ms[1..])
    else 0
  }

  lemma {:induction false} UserPrints(cs: seq<Content>)
    requires Collect(UserPart, cs).Ok?
    ensures Collect(UserPart, cs).value == [] && FlatMap(OnlyResult, cs) == [] <==> forall c :: c in cs ==> c.Thinking?
    decreases |cs|
  {
    if cs != [] {
      var n := |cs| - 1;
      assert cs == cs[..n] + [cs[n]] && cs[n] in cs;
      UserPrints(cs[..n]);
    }
  }

  lemma {:induction false} ResultsPrint(cs: seq<Content>)
    requires Collect(PrintResult, cs).Ok?
    ensures |Collect(PrintResult, cs).value| == |cs|
    decreases |cs|
  {
    if cs != [] { ResultsPrint(cs[..|cs| - 1]); }
  }

  lemma ResultsFirst(cs: seq<Content>)
    requires Collect(PrintResult, cs).Ok?
    ensures var ps := Collect(PrintResult, cs).value; (ps == [] <==> cs == []) && (ps != [] ==> ps[0].role == ToolR)
  {
    var ps := Collect(PrintResult, cs).value;
    ResultsPrint(cs);
    CollectAll(PrintResult, IsToolMessage, cs);
    hide Collect;
    assert ps != [] ==> ps[0] in ps;
  }

  lemma FirstOf(m: Message)
    requires PrintMessage(m).Ok? && m.role != System
    ensures var ps := PrintMessage(m).value; (ps == [] <==> PrintsNothing(m)) && (ps != [] ==> !Instructs(ps[0]))
  {
    hide Collect, FlatMap;
    if m.role == User {
      UserPrints(m.content);
      ResultsFirst(FlatMap(OnlyResult, m.content));
    } else if m.role == Tool {
      ResultsFirst(m.content);
    }
  }

  lemma LeadingAfter(p: Msg, ms: seq<Msg>)
    ensures Leading([p] + ms) == if Instructs(p) then 1 + Leading(ms) else 0
  {
    assert ([p] + ms)[1..] == ms;
  }

  lemma {:induction false} OpeningIsLeading(ms: seq<Message>)
    requires Collect(PrintMessage, ms).Ok?
    ensures Leading(Collect(PrintMessage, ms).value) == Opening(ms)
    decreases |ms|
  {
    if ms != [] {
      var m, rest := ms[0], ms[1..];
      assert ms == [m] + rest;
      CollectConcat(PrintMessage, [m], rest);
      CollectOne(PrintMessage, m);
      var ps, others := PrintMessage(m).value, Collect(PrintMessage, rest).value;
      if m.role == System {
        LeadingAfter(ps[0], others);
      } else {
        FirstOf(m);
        hide PrintMessage, PrintsNothing;
        if ps == [] { assert ps + others == others; } else { LeadingStep(ps + others); }
      }
      hide Collect, PrintMessage;
      OpeningIsLeading(rest);
    }
  }

  /** The system texts after one pass: one for each system message that opens the printed request. */
  lemma {:induction false} PassSystem(r: Request, model: string, bedrock: bool)
    requires Pass(r, model, bedrock).Ok?
    ensures |Pass(r, model, bedrock).value.system| == (if r.system == [] then 0 else 1) + Opening(r.messages)
  {
    var ms := FromIR(r, model, bedrock).value.messages;
    var turns := Collect(PrintMessage, r.messages).value;
    PrintedMessages(r, model, bedrock);
    LeadingExact(ms);
    hide Collect, Map, PrintMessage, PrintedForm, Leading, Opening;
    InstructionsAreText(ms[..Leading(ms)]);
    OpeningIsLeading(r.messages);
    if r.system == [] {
      assert [] + turns == turns;
    } else {
      LeadingAfter(SystemMessage(r.system)[0], turns);
    }
  }

  lemma {:induction false} PassImages(r: Request, model: string, bedrock: bool)
    requires Pass(r, model, bedrock).Ok?
    ensures FlatMap(TurnImages, Pass(r, model, bedrock).value.messages)
            == FlatMap(ReadUrl, FlatMap(TurnUrls, r.messages))
  {
    var ms := FromIR(r, model, bedrock).value.messages;
    hide FlatMap, Collect, Leading;
    WireUrls(r, model, bedrock);
    TurnsImages(ms[Leading(ms)..]);
  }

  /**
   * Two passes settle everything, and one is enough exactly when at most one system message opens the
   * printed request and no image of a user turn has a data URL without a media type.
   */
  lemma {:induction false} TwoPassesAreEnough(r: Request, model: string, bedrock: bool)
    requires Pass(r, model, bedrock).Ok?
    ensures var once := Pass(r, model, bedrock).value;
            && Pass(once, model, bedrock).Ok?
            && var twice := Pass(once, model, bedrock).value;
               && Pass(twice, model, bedrock) == Ok(twice)
               && (twice == once <==>
                     (if r.system == [] then 0 else 1) + Opening(r.messages) <= 1 && ImagesStable(r.messages))
  {
    var once := Pass(r, model, bedrock).value;
    OnePassIsRegular(r, model, bedrock);
    assert once.model == model;
    PassSystem(r, model, bedrock);
    PassImages(r, model, bedrock);
    hide Pass, FlatMap, Map, ImagesStable, Opening, Regular, WithSchema, ReadChoice, PrintChoice;
    SettledAtOnce(r.messages, once.messages);
    PassOnRegular(once, bedrock);
    SettledIsRegular(once);
    PassOnRegular(SettleRequest(once), bedrock);
    if |once.system| == 1 {
      assert once.system == [Text(once.system[0].text)];
      JoinOne(once.system[0].text);
    }
  }

  /** Several opening system turns are hoisted by the first pass and joined only by the second. */
  lemma {:induction false} OnePassIsNotEnough(model: string, bedrock: bool)
    requires model != ""
    ensures var turns := [Message(System, [Text("a")]), Message(System, [Text("b")])];
            var r := Request("m", [], turns, [], Unset, None, None, None, None, [], false, None);
            && Pass(r, model, bedrock).Ok?
            && Pass(Pass(r, model, bedrock).value, model, bedrock) != Pass(r, model, bedrock)
  {
    var turns := [Message(System, [Text("a")]), Message(System, [Text("b")])];
    var r := Request("m", [], turns, [], Unset, None, None, None, None, [], false, None);
    CollectOne(PrintMessage, turns[0]);
    CollectSnoc(PrintMessage, [turns[0]], turns[1]);
    assert turns == [turns[0]] + [turns[1]];
    assert turns[1..] == [turns[1]] && turns[1..][1..] == [];
    assert Opening(turns) == 2;
    OnePassIsRegular(r, model, bedrock);
    hide Opening, Pass, Collect;
    TwoPassesAreEnough(r, model, bedrock);
  }

  // ---- Tools ------------------------------------------------------------------------------------

  /** A call as the body has it, its arguments to the letter. */
  function WireCall(c: Call): seq<ToolCall> {
    [ToolCall(c.id, c.name, c.args.Raw())]
  }

  /** A call as the parser understands it. */
  function ParsedCall(c: Call): seq<ToolCall> {
    [ToolCall(c.id, c.name, c.args.Read().text)]
  }

  function ParsedCalls(m: Msg): seq<ToolCall> {
    if m.role == AssistantR then FlatMap(ParsedCall, m.calls) else []
  }

  /** Every call's arguments are empty or valid JSON. */
  predicate ArgumentsIntact(w: Wire) {
    forall m :: m in w.messages && m.role == AssistantR ==> forall c :: c in m.calls ==> c.args.Intact()
  }

  function MsgCalls(m: Msg): seq<ToolCall> {
    if m.role == AssistantR then FlatMap(WireCall, m.calls) else []
  }

  function MsgResults(m: Msg): seq<string> {
    if m.role == ToolR then [m.toolCallId] else []
  }

  function WireCalls(w: Wire): seq<ToolCall> {
    FlatMap(MsgCalls, w.messages)
  }

  function WireResults(w: Wire): seq<string> {
    FlatMap(MsgResults, w.messages)
  }

  lemma ResultsOnly(cs: seq<Content>)
    requires Collect(PrintResult, cs).Ok?
    ensures FlatMap(MsgCalls, Collect(PrintResult, cs).value) == []
    ensures FlatMap(MsgResults, Collect(PrintResult, cs).value) == FlatMap(ResultOf, cs)
  {
    forall c | PrintResult(c).Ok?
      ensures FlatMap(MsgResults, PrintResult(c).value) == ResultOf(c)
    {
      FlatMapOne(MsgResults, PrintResult(c).value[0]);
    }
    CollectFlat(PrintResult, MsgResults, ResultOf, cs);
    CollectAll(PrintResult, IsToolMessage, cs);
    FlatMapNothing(MsgCalls, Collect(PrintResult, cs).value);
  }

  lemma UserTools(m: Message)
    requires m.role == User && PrintMessage(m).Ok?
    ensures FlatMap(MsgCalls, PrintMessage(m).value) == []
    ensures FlatMap(MsgResults, PrintMessage(m).value) == Results(m)
  {
    hide Collect, MarkError;
    var only := FlatMap(OnlyResult, m.content);
    ResultsOnly(only);
    forall c
      ensures FlatMap(ResultOf, OnlyResult(c)) == ResultOf(c)
    {
      if c.ToolResult? { FlatMapOne(ResultOf, c); }
    }
    FlatMapCompose(OnlyResult, ResultOf, ResultOf, m.content);
    var parts := Collect(UserPart, m.content).value;
    if parts != [] {
      var last := Msg(UserR, ContentBody(parts), [], "");
      FlatMapSnoc(MsgCalls, Collect(PrintResult, only).value, last);
      FlatMapSnoc(MsgResults, Collect(PrintResult, only).value, last);
    } else {
      assert Collect(PrintResult, only).value + [] == Collect(PrintResult, only).value;
    }
  }

  lemma AssistantTools(m: Message)
    requires m.role == Assistant && PrintMessage(m).Ok?
    ensures FlatMap(MsgCalls, PrintMessage(m).value) == Calls(m)
    ensures FlatMap(MsgResults, PrintMessage(m).value) == []
  {
    hide Collect;
    forall c
      ensures FlatMap(WireCall, PrintCall(c)) == CallOf(c)
    {
      if c.ToolUse? { FlatMapOne(WireCall, PrintCall(c)[0]); }
    }
    FlatMapCompose(PrintCall, WireCall, CallOf, m.content);
    FlatMapOne(MsgCalls, PrintMessage(m).value[0]);
    FlatMapOne(MsgResults, PrintMessage(m).value[0]);
  }

  lemma PrintedTools(m: Message)
    requires PrintMessage(m).Ok?
    ensures FlatMap(MsgCalls, PrintMessage(m).value) == PlacedCalls(m)
    ensures FlatMap(MsgResults, PrintMessage(m).value) == PlacedResults(m)
  {
    match m.role {
      case User => UserTools(m);
      case Assistant => AssistantTools(m);
      case Tool => ResultsOnly(m.content);
      case System =>
        FlatMapOne(MsgCalls, PrintMessage(m).value[0]);
        FlatMapOne(MsgResults, PrintMessage(m).value[0]);
    }
  }

  /**
   * A request that can be sent keeps, in order, exactly the calls of assistant turns and the results of
   * user and tool turns; that is all of them exactly when none is out of place.
   */
  lemma KeepsTools(r: Request, model: string, bedrock: bool)
    requires FromIR(r, model, bedrock).Ok?
    ensures var w := FromIR(r, model, bedrock).value;
            && WireCalls(w) == FlatMap(PlacedCalls, r.messages)
            && WireResults(w) == FlatMap(PlacedResults, r.messages)
            && ((WireCalls(w) == AllCalls(r.messages) && WireResults(w) == AllResults(r.messages))
                <==> AllInPlace(r.messages))
  {
    forall m | PrintMessage(m).Ok?
      ensures FlatMap(MsgCalls, PrintMessage(m).value) == PlacedCalls(m)
      ensures FlatMap(MsgResults, PrintMessage(m).value) == PlacedResults(m)
    {
      PrintedTools(m);
    }
    hide PrintMessage, PlacedCalls, PlacedResults, Collect, AllInPlace, Map;
    CollectFlat(PrintMessage, MsgCalls, PlacedCalls, r.messages);
    CollectFlat(PrintMessage, MsgResults, PlacedResults, r.messages);
    var head, turns := SystemMessage(r.system), Collect(PrintMessage, r.messages).value;
    FlatMapConcat(MsgCalls, head, turns);
    FlatMapConcat(MsgResults, head, turns);
    FlatMapNothing(MsgCalls, head);
    FlatMapNothing(MsgResults, head);
    PlacedIsAll(r.messages);
  }

  lemma BodyHasNoTools(b: Body)
    requires ReadBody(b).Ok?
    ensures FlatMap(CallOf, ReadBody(b).value) == [] && FlatMap(ResultOf, ReadBody(b).value) == []
  {
    if b.Parts? {
      CollectAll(ReadPart, IsPart, b.parts);
    }
    FlatMapNothing(CallOf, ReadBody(b).value);
    FlatMapNothing(ResultOf, ReadBody(b).value);
  }

  lemma ReadTools(m: Msg)
    requires ReadMessage(m).Ok?
    ensures FlatMap(Calls, ReadMessage(m).value) == ParsedCalls(m)
            && FlatMap(Results, ReadMessage(m).value) == MsgResults(m)
    ensures InPlace(ReadMessage(m).value[0])
  {
    hide ReadBody, ToolText;
    var x := ReadMessage(m).value[0];
    FlatMapOne(Calls, x);
    FlatMapOne(Results, x);
    if m.role == ToolR {
      FlatMapOne(CallOf, x.content[0]);
      FlatMapOne(ResultOf, x.content[0]);
    } else {
      BodyHasNoTools(m.content);
      if m.role == AssistantR {
        forall c
          ensures FlatMap(CallOf, ReadCall(c)) == ParsedCall(c) && FlatMap(ResultOf, ReadCall(c)) == []
        {
          FlatMapOne(CallOf, ReadCall(c)[0]);
          FlatMapOne(ResultOf, ReadCall(c)[0]);
        }
        FlatMapCompose(ReadCall, CallOf, ParsedCall, m.calls);
        FlatMapCompose(ReadCall, ResultOf, Nothing<Call, string>, m.calls);
        FlatMapNothing(Nothing<Call, string>, m.calls);
        FlatMapConcat(CallOf, ReadBody(m.content).value, FlatMap(ReadCall, m.calls));
        FlatMapConcat(ResultOf, ReadBody(m.content).value, FlatMap(ReadCall, m.calls));
      }
    }
  }

  lemma {:induction false} TurnsFindTools(ms: seq<Msg>)
    requires Collect(ReadMessage, ms).Ok?
    ensures var q := Collect(ReadMessage, ms).value;
            AllCalls(q) == FlatMap(ParsedCalls, ms) && AllResults(q) == FlatMap(MsgResults, ms) && AllInPlace(q)
  {
    forall m | ReadMessage(m).Ok?
      ensures FlatMap(Calls, ReadMessage(m).value) == ParsedCalls(m)
      ensures FlatMap(Results, ReadMessage(m).value) == MsgResults(m)
      ensures forall x :: x in ReadMessage(m).value ==> InPlace(x)
    {
      ReadTools(m);
    }
    hide ReadMessage, InPlace, Collect, ParsedCalls, MsgResults, Calls, Results, FlatMap;
    CollectFlat(ReadMessage, Calls, ParsedCalls, ms);
    CollectFlat(ReadMessage, Results, MsgResults, ms);
    CollectAll(ReadMessage, InPlace, ms);
  }

  lemma CallsIntact(m: Msg)
    ensures |MsgCalls(m)| == |ParsedCalls(m)|
    ensures MsgCalls(m) == ParsedCalls(m) <==> (m.role == AssistantR ==> forall c :: c in m.calls ==> c.args.Intact())
  {
    hide FlatMap;
    FlatMapSame(WireCall, ParsedCall, m.calls);
    assert forall c: Call :: WireCall(c) == ParsedCall(c) <==> c.args.Intact() by {
      forall c: Call ensures WireCall(c) == ParsedCall(c) <==> c.args.Intact() {
        assert WireCall(c)[0].args == c.args.Raw() && ParsedCall(c)[0].args == c.args.Read().text;
      }
    }
  }

  /**
   * Reading a request finds every result and every tool call, in order and in place. The calls have
   * the arguments of the body exactly when all of those are empty or valid JSON.
   */
  lemma {:induction false} FindsTools(w: Wire)
    requires ToIR(w).Ok?
    ensures var q := ToIR(w).value.messages;
            && AllResults(q) == WireResults(w)
            && AllInPlace(q)
            && (AllCalls(q) == WireCalls(w) <==> ArgumentsIntact(w))
  {
    hide ReadMessage, AllInPlace, Collect, Leading, FlatMap;
    var n := Leading(w.messages);
    var head, turns := w.messages[..n], w.messages[n..];
    TurnsFindTools(turns);
    LeadingExact(w.messages);
    assert head + turns == w.messages;
    FlatMapNothing(ParsedCalls, head);
    FlatMapNothing(MsgResults, head);
    FlatMapConcat(ParsedCalls, head, turns);
    FlatMapConcat(MsgResults, head, turns);
    WholeIntact(w);
  }

  lemma {:induction false} WholeIntact(w: Wire)
    ensures FlatMap(ParsedCalls, w.messages) == WireCalls(w) <==> ArgumentsIntact(w)
  {
    hide FlatMap, MsgCalls, ParsedCalls;
    forall m
      ensures |MsgCalls(m)| == |ParsedCalls(m)|
      ensures MsgCalls(m) == ParsedCalls(m) <==> (m.role == AssistantR ==> forall c :: c in m.calls ==> c.args.Intact())
    {
      CallsIntact(m);
    }
    FlatMapSame(MsgCalls, ParsedCalls, w.messages);
  }
}
