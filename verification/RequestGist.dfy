/** What a request says, told apart from how any protocol writes it down. */
module RequestGist {
  import opened Folds
  import opened RequestIr

  datatype Speaker = Instructor | Person | Model

  datatype Gist =
    | Words(text: string)
    | Linked(url: string)
    | Inline(mediaType: string, data: string)
    | Asks(call: ToolCall)
    | Answers(id: string, text: string, failed: bool)
    | Thought(text: string, signature: string)
    | Hidden(data: string)
    | Reasoned(raw: string)

  datatype Utterance = Utterance(who: Speaker, what: Gist)

  function Uttered(who: Speaker, gs: seq<Gist>): seq<Utterance> {
    seq(|gs|, k requires 0 <= k < |gs| => Utterance(who, gs[k]))
  }

  lemma UtteredConcat(who: Speaker, xs: seq<Gist>, ys: seq<Gist>)
    ensures Uttered(who, xs + ys) == Uttered(who, xs) + Uttered(who, ys)
  {
  }

  // ---- Of the intermediate form ---------------------------------------------------------------------

  function SpeakerOf(role: Role): Speaker {
    match role
    case System => Instructor
    case User => Person
    case Tool => Person
    case Assistant => Model
  }

  function WireSpeaker(role: WireRole): Speaker {
    match role
    case SystemR => Instructor
    case DeveloperR => Instructor
    case UserR => Person
    case ToolR => Person
    case OtherR(_) => Person
    case AssistantR => Model
  }

  function AnswerText(p: Payload): string {
    match p
    case NoPayload => ""
    case Str(s) => s
    case OtherJson(s) => s
  }

  function GistOf(c: Content): seq<Gist> {
    match c
    case Text(s) => [Words(s)]
    case Image(mediaType, data, url) => if url != "" then [Linked(url)] else [Inline(mediaType, data)]
    case Thinking(s, signature, raw) =>
      (match raw
       case NoOpaque => [Thought(s, signature)]
       case RedactedRaw(data) => [Hidden(data)]
       case ReasoningRaw(item, _) => [Reasoned(item)]
       case ForeignRaw => [])
    case ToolUse(id, name, input) =>
      [Asks(ToolCall(id, name, if input.NoJson? || input.text == "" then "{}" else input.text))]
    case ToolResult(id, result, isError) => [Answers(id, AnswerText(result), isError)]
  }

  function GistsIn(cs: seq<Content>): seq<Gist> {
    FlatMap(GistOf, cs)
  }

  function TurnGists(m: Message): seq<Utterance> {
    Uttered(SpeakerOf(m.role), GistsIn(m.content))
  }

  function RequestGists(r: Request): seq<Utterance> {
    Uttered(Instructor, GistsIn(r.system)) + FlatMap(TurnGists, r.messages)
  }

  function WordsIn(c: Content): seq<string> {
    if c.Text? then [c.text] else []
  }

  function TextsIn(cs: seq<Content>): seq<string> {
    FlatMap(WordsIn, cs)
  }

  // ---- How texts are joined -------------------------------------------------------------------------

  /** With a blank line in between, once something has been written. */
  function BlankJoin(ts: seq<string>): string {
    if ts == [] then ""
    else
      var front, t := BlankJoin(ts[..|ts| - 1]), ts[|ts| - 1];
      if front == "" then t else front + "\n\n" + t
  }

  /** One per line. */
  function LineJoin(ts: seq<string>): string {
    if ts == [] then ""
    else if |ts| == 1 then ts[0]
    else LineJoin(ts[..|ts| - 1]) + "\n" + ts[|ts| - 1]
  }

  lemma {:induction false} JoinTextJoins(cs: seq<Content>)
    ensures JoinText(cs) == BlankJoin(TextsIn(cs))
    decreases |cs|
  {
    if cs != [] {
      var n := |cs| - 1;
      JoinTextJoins(cs[..n]);
      var ts := TextsIn(cs[..n]);
      assert TextsIn(cs) == ts + WordsIn(cs[n]);
      if cs[n].Text? {
        assert (ts + [cs[n].text])[..|ts|] == ts;
        assert JoinText(cs[..n]) + "\n\n" + cs[n].text == (JoinText(cs[..n]) + "\n\n") + cs[n].text;
      } else {
        assert ts + [] == ts;
      }
    }
  }

  // ---- Pictures ---------------------------------------------------------------------------------------

  /** The URL under which an OpenAI protocol shows a picture. */
  function ShownAt(mediaType: string, data: string, url: string): string {
    if url != "" then url else "data:" + ((if mediaType == "" then "image/png" else mediaType) + (";base64," + data))
  }

  /** What such a URL stands for: its data, if it is a base64 data URL, or what it links to. */
  function PictureAt(u: string): Gist {
    match ParseDataUrl(u)
    case NotData => if u != "" then Linked(u) else Inline("", "")
    case Split(mediaType, data) => Inline(mediaType, data)
  }

  /** Nowhere before position i does `;base64,` begin. */
  predicate NoMarkerBefore(s: string, i: nat) {
    forall k :: 0 <= k < i && k <= |s| ==> !(";base64," <= s[k..])
  }

  lemma {:induction false} FirstMarker(s: string, i: nat)
    requires NoMarkerBefore(s, i)
    ensures i <= |s| && ";base64," <= s[i..] ==> Find(s) == Some(i)
    ensures i > |s| ==> Find(s) == None
  {
    if |s| >= |MARKER| && i > 0 {
      assert s == s[0..];
      forall k | 0 <= k < i - 1 && k <= |s[1..]|
        ensures !(";base64," <= s[1..][k..])
      {
        assert s[1..][k..] == s[k + 1..];
      }
      FirstMarker(s[1..], i - 1);
      assert i <= |s| ==> s[1..][i - 1..] == s[i..];
    } else {
      assert s[0..] == s;
    }
  }

  /** A data URL is split where the marker first begins, whatever stands before and after. */
  lemma DataUrlsAreInline(mediaType: string, data: string)
    requires NoMarkerBefore(mediaType + (";base64," + data), |mediaType|)
    ensures PictureAt("data:" + (mediaType + (";base64," + data))) == Inline(mediaType, data)
  {
    var rest := mediaType + (";base64," + data);
    var u := "data:" + rest;
    assert rest[|mediaType|..] == ";base64," + data;
    FirstMarker(rest, |mediaType|);
    assert u[|SCHEME|..] == rest;
    assert rest[|mediaType| + |MARKER|..] == data;
  }

  /** Any other URL is a link. */
  lemma OtherUrlsAreLinks(u: string)
    requires u != "" && ("data:" <= u ==> NoMarkerBefore(u[5..], |u| - 4))
    ensures PictureAt(u) == Linked(u)
  {
    if "data:" <= u { FirstMarker(u[5..], |u| - 4); }
  }

  /** Reading a picture by its URL. */
  function Look(u: Utterance): Utterance {
    if u.what.Linked? then u.(what := PictureAt(u.what.url)) else u
  }

  function LookAt(g: Gist): Gist {
    if g.Linked? then PictureAt(g.url) else g
  }

  lemma LookUttered(who: Speaker, gs: seq<Gist>)
    ensures Map(Look, Uttered(who, gs)) == Uttered(who, Map(LookAt, gs))
  {
  }

  lemma ReadImageGist(u: string)
    ensures GistOf(ImageOf(u)) == [PictureAt(u)]
  {
  }

  lemma PrintedImageGist(c: Content)
    requires c.Image?
    ensures ImageUrl(c) == ShownAt(c.mediaType, c.data, c.url)
  {
  }

  // ---- What each protocol takes ----------------------------------------------------------------------

  /** Anthropic replays thinking only with its signature, and no other protocol's reasoning. */
  function AnthropicTakes(g: Gist): seq<Gist> {
    if (g.Thought? && g.signature == "") || g.Reasoned? then [] else [g]
  }

  function OnlyWords(g: Gist): seq<Gist> {
    if g.Words? then [g] else []
  }

  /** How many system turns open the conversation. */
  function OpeningTurns(ms: seq<Message>): (n: nat)
    ensures n <= |ms|
  {
    if ms == [] || ms[0].role != System then 0 else 1 + OpeningTurns(ms[1..])
  }

  function AnthropicTurn(m: Message): seq<Utterance> {
    Uttered(SpeakerOf(m.role), FlatMap(AnthropicTakes, GistsIn(m.content)))
  }

  function WordsTurn(m: Message): seq<Utterance> {
    Uttered(SpeakerOf(m.role), FlatMap(OnlyWords, GistsIn(m.content)))
  }

  /** An Anthropic request says all of it, in order; its system prompt, into which the opening system turns
      go, only words. */
  function AnthropicSays(r: Request): seq<Utterance> {
    var n := OpeningTurns(r.messages);
    Uttered(Instructor, FlatMap(OnlyWords, GistsIn(r.system))) + FlatMap(WordsTurn, r.messages[..n])
    + FlatMap(AnthropicTurn, r.messages[n..])
  }

  /** An OpenAI tool message has no error flag: the text says so instead. */
  function Marked(id: string, text: string, failed: bool): Gist {
    Answers(id, if failed && !("Error" <= text) then "Error: " + text else text, false)
  }

  function ChatAnswer(c: Content): seq<Gist> {
    if c.ToolResult? then [Marked(c.id, AnswerText(c.result), c.isError)] else []
  }

  function Shown(c: Content): seq<Gist> {
    match c
    case Text(s) => [Words(s)]
    case Image(mediaType, data, url) => [Linked(ShownAt(mediaType, data, url))]
    case _ => []
  }

  function AskOf(c: Content): seq<Gist> {
    if c.ToolUse? then GistOf(c) else []
  }

  predicate AllWords(gs: seq<Gist>) {
    forall k :: 0 <= k < |gs| ==> gs[k].Words?
  }

  function TextsOf(gs: seq<Gist>): seq<string> {
    if gs == [] then [] else TextsOf(gs[..|gs| - 1]) + if gs[|gs| - 1].Words? then [gs[|gs| - 1].text] else []
  }

  /** Words alone become one text, a line each; with pictures among them they stay apart. */
  function ChatBody(gs: seq<Gist>): seq<Gist> {
    if gs == [] then [] else if AllWords(gs) then [Words(LineJoin(TextsOf(gs)))] else gs
  }

  /** A Chat user turn says the tool results first; an assistant turn its words and then its calls. */
  function ChatTurn(m: Message): seq<Utterance> {
    match m.role
    case System => [Utterance(Instructor, Words(BlankJoin(TextsIn(m.content))))]
    case Tool => Uttered(Person, FlatMap(ChatAnswer, m.content))
    case User => Uttered(Person, FlatMap(ChatAnswer, m.content) + ChatBody(FlatMap(Shown, m.content)))
    case Assistant =>
      var ts, calls := TextsIn(m.content), FlatMap(AskOf, m.content);
      Uttered(Model, (if ts != [] then [Words(LineJoin(ts))] else if calls == [] then [Words("")] else []) + calls)
  }

  function ChatSays(r: Request): seq<Utterance> {
    (if r.system == [] then [] else [Utterance(Instructor, Words(BlankJoin(TextsIn(r.system))))])
    + FlatMap(ChatTurn, r.messages)
  }

  /** A Responses output marks only string results. */
  function ResponsesAnswer(c: Content): seq<Gist> {
    if c.ToolResult? then [Marked(c.id, AnswerText(c.result), c.isError && c.result.Str?)] else []
  }

  function Wordy(c: Content): seq<Gist> {
    if c.Text? then [Words(c.text)] else []
  }

  function ModelSays(c: Content): seq<Gist> {
    if c.Text? || c.ToolUse? || (c.Thinking? && c.raw.ReasoningRaw?) then GistOf(c) else []
  }

  /** A Responses user turn says the tool results first; an assistant turn everything in order. */
  function ResponsesTurn(m: Message): seq<Utterance> {
    match m.role
    case System => Uttered(Instructor, FlatMap(Wordy, m.content))
    case Tool => Uttered(Person, FlatMap(ResponsesAnswer, m.content))
    case User => Uttered(Person, FlatMap(ResponsesAnswer, m.content) + FlatMap(Shown, m.content))
    case Assistant => Uttered(Model, FlatMap(ModelSays, m.content))
  }

  function ResponsesSays(r: Request): seq<Utterance> {
    var prompt := BlankJoin(TextsIn(r.system));
    (if prompt == "" then [] else [Utterance(Instructor, Words(prompt))]) + FlatMap(ResponsesTurn, r.messages)
  }
}
