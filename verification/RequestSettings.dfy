/** The settings of a request: everything in it that nobody says. */
module RequestSettings {
  import opened Folds
  import opened TokenUsage
  import opened RequestIr
  import opened RequestTranslation
  import A = AnthropicRequest
  import C = ChatRequest
  import R = ResponsesRequest

  datatype Settings = Settings(model: string, temperature: Option<real>, topP: Option<real>, stream: bool,
                               stop: seq<string>, limit: Option<int>, choice: ToolChoice, parallel: Option<bool>,
                               format: Option<string>, tools: seq<ToolDef>)

  function OfRequest(r: Request): Settings {
    Settings(r.model, r.temperature, r.topP, r.stream, r.stop, r.maxTokens, r.toolChoice, r.parallel, r.responseFormat,
             r.tools)
  }

  /** Anthropic has neither a switch for parallel calls nor a response format. */
  function OfAnthropic(w: A.Wire): Settings {
    var choice :=
      match w.choice
      case None => Unset
      case Some(c) =>
        (match c.kind
         case "any" => Required
         case "none" => Never
         case "tool" => Named(c.name)
         case _ => Unset);
    Settings(w.model, w.temperature, w.topP, w.stream, w.stop, w.maxTokens, choice, None, None, w.tools)
  }

  function ChatTool(t: C.ToolW): seq<ToolDef> {
    if t.kind in {"", "function"} then [t.def] else []
  }

  /** An OpenAI tool choice: a word, or a function by its name. */
  function Chosen(word: string, name: string): ToolChoice {
    if name != "" then Named(name)
    else
      match word
      case "none" => Never
      case "required" => Required
      case _ => Unset
  }

  function OfChat(w: C.Wire): Settings {
    var stop :=
      match w.stop
      case NoStop => []
      case One(s) => [s]
      case Many(ss) => ss;
    var choice :=
      match w.choice
      case NoChoice => Unset
      case Word(s) => Chosen(s, "")
      case Function(name) => Chosen("", name);
    Settings(w.model, w.temperature, w.topP, w.stream, stop,
             if w.maxCompletionTokens != None then w.maxCompletionTokens else w.maxTokens, choice, w.parallel,
             w.responseFormat, FlatMap(ChatTool, w.tools))
  }

  /** The functions, wherever they are nested. */
  function ResponsesTool(t: R.ToolW): seq<ToolDef> {
    match t
    case FunctionTool(def) => [def]
    case HostedTool(_) => []
    case Namespace(ts) => ResponsesTools(ts)
  }

  function ResponsesTools(ts: seq<R.ToolW>): seq<ToolDef> {
    if ts == [] then [] else ResponsesTool(ts[0]) + ResponsesTools(ts[1..])
  }

  /** Responses has no stop words. */
  function OfResponses(w: R.Wire): Settings {
    var choice :=
      match w.choice
      case NoChoice => Unset
      case Word(s) => Chosen(s, "")
      case Chosen(kind, name) => if kind == "function" then Chosen("", name) else Unset;
    Settings(w.model, w.temperature, w.topP, w.stream, [], w.maxOutputTokens, choice, w.parallel,
             if w.format in {Some(""), Some("null")} then None else w.format, ResponsesTools(w.tools))
  }

  function Of(w: Wire): Settings {
    match w
    case AnthropicWire(a) => OfAnthropic(a)
    case ChatWire(c) => OfChat(c)
    case ResponsesWire(r) => OfResponses(r)
  }

  function Typed(t: ToolDef): ToolDef {
    if t.schema == NoJson then ToolDef(t.name, t.description, Json("{\"type\":\"object\",\"properties\":{}}")) else t
  }

  /** What a protocol can carry of some settings: all of it, except what its body has no field for. */
  function Carried(s: Settings, to: Protocol, model: string, fallback: int): Settings {
    var positive := s.limit.Some? && s.limit.value > 0;
    var limit := if positive then s.limit else if to == Anthropic then Some(fallback) else None;
    var choice := if s.choice == Auto || (to != Anthropic && s.choice == Named("")) then Unset else s.choice;
    var parallel := if to == Anthropic then None else s.parallel;
    var stop := if to == OpenAIResponses then [] else s.stop;
    var format :=
      if to == Anthropic || s.format == Some("") || (to == OpenAIResponses && s.format == Some("null")) then None
      else s.format;
    Settings(model, s.temperature, s.topP, s.stream, stop, limit, choice, parallel, format, Map(Typed, s.tools))
  }

  // ---- Tools ----------------------------------------------------------------------------------------

  lemma {:induction false} FromTheFront(ts: seq<R.ToolW>, t: R.ToolW)
    ensures ResponsesTools(ts + [t]) == ResponsesTools(ts) + ResponsesTool(t)
  {
    if ts == [] {
      assert [] + [t] == [t] && [t][1..] == [];
      assert ResponsesTools([t][1..]) == [];
      assert ResponsesTool(t) + [] == [] + ResponsesTool(t);
    } else {
      assert (ts + [t])[1..] == ts[1..] + [t];
      FromTheFront(ts[1..], t);
    }
  }

  lemma {:induction false} ReadsOneTool(t: R.ToolW)
    ensures R.Flatten(t) == ResponsesTool(t)
  {
    if t.Namespace? { ReadsTools(t.tools); }
  }

  lemma {:induction false} ReadsTools(ts: seq<R.ToolW>)
    ensures R.FlattenAll(ts) == ResponsesTools(ts)
    decreases ts
  {
    if ts != [] {
      var n := |ts| - 1;
      assert ts[..n] + [ts[n]] == ts;
      ReadsTools(ts[..n]);
      ReadsOneTool(ts[n]);
      FromTheFront(ts[..n], ts[n]);
    }
  }

  lemma {:induction false} WritesTools(ts: seq<ToolDef>)
    ensures FlatMap(ChatTool, Map(C.PrintTool, ts)) == Map(Typed, ts)
    ensures ResponsesTools(Map(R.PrintTool, ts)) == Map(Typed, ts)
    ensures Map(WithSchema, ts) == Map(Typed, ts)
    decreases |ts|
  {
    if ts != [] {
      var n := |ts| - 1;
      WritesTools(ts[..n]);
      FlatMapSnoc(ChatTool, Map(C.PrintTool, ts[..n]), C.PrintTool(ts[n]));
      FromTheFront(Map(R.PrintTool, ts[..n]), R.PrintTool(ts[n]));
    }
  }

  // ---- All of it ------------------------------------------------------------------------------------

  /** Reading keeps every setting. */
  lemma {:induction false} Reads(w: Wire)
    requires Read(w).Ok?
    ensures OfRequest(Read(w).value) == Of(w)
  {
    hide FlatMap, Collect, R.FlattenAll, ResponsesTools, R.ReadInput, C.Leading;
    match w {
      case AnthropicWire(_) =>
      case ChatWire(c) => FlatMapAlike(C.ReadTool, ChatTool, c.tools);
      case ResponsesWire(r) => ReadsTools(r.tools);
    }
  }

  /** Writing keeps what the protocol can carry. */
  lemma {:induction false} Writes(r: Request, to: Protocol, model: string, opts: Options)
    requires Print(r, to, model, opts).Ok?
    ensures Of(Print(r, to, model, opts).value) == Carried(OfRequest(r), to, model, opts.defaultMaxTokens)
  {
    WritesTools(r.tools);
    hide FlatMap, Collect, Map, ResponsesTools, A.Leading, A.Merge, C.SystemMessage;
    match to {
      case Anthropic =>
      case OpenAIChat =>
      case OpenAIResponses =>
    }
  }

  /**
   * A translated request has the settings of the original, in every direction, except for what the target
   * has no field for; the limit on tokens is positive, and Anthropic's the default if there was none.
   */
  lemma {:induction false} Kept(w: Wire, to: Protocol, model: string, opts: Options)
    requires Translate(w, to, model, opts).Ok?
    ensures Of(Translate(w, to, model, opts).value) == Carried(Of(w), to, model, opts.defaultMaxTokens)
  {
    hide Read, Print, Of, Carried;
    Reads(w);
    Writes(Read(w).value, to, model, opts);
  }

  /** A streamed Chat request asks for its usage; only Bedrock is told not to reason, and only beside tools. */
  lemma {:induction false} ChatExtras(w: Wire, model: string, opts: Options)
    requires Translate(w, OpenAIChat, model, opts).Ok?
    ensures var out := Translate(w, OpenAIChat, model, opts).value.c;
            && out.includeUsage == Of(w).stream
            && out.reasoningEffort == if Of(w).tools != [] && opts.bedrock then "none" else ""
  {
    hide Of;
    Reads(w);
    hide Read, FlatMap, Collect, Map;
  }
}
