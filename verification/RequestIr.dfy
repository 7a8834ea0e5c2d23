/** The protocol-neutral request (internal/protocol/translate/ir.go) and what its codecs share. */
module RequestIr {
  import opened Folds

  datatype Role = System | User | Assistant | Tool

  /** A role as the wire names it. */
  datatype WireRole = SystemR | DeveloperR | UserR | AssistantR | ToolR | OtherR(name: string)

  /** Raw JSON that is known to be valid, or nothing. */
  datatype Json = NoJson | Json(text: string)

  function OrEmptyObject(j: Json): Json {
    if j.NoJson? || j.text == "" then Json("{}") else j
  }

  /** Tool arguments as OpenAI carries them: a string that may or may not be valid JSON. */
  datatype Arguments = Arguments(text: string, valid: bool) {
    function Read(): Json {
      Json(if text == "" || !valid then "{}" else text)
    }

    /** What the sender wrote; nothing at all means the empty object. */
    function Raw(): string {
      if text == "" then "{}" else text
    }

    /** What the sender wrote is kept by reading it. */
    predicate Intact()
      ensures Intact() <==> Read().text == Raw()
    {
      text == "" || text == "{}" || valid
    }
  }

  function PrintArguments(j: Json): Arguments {
    if j.NoJson? || j.text == "" then Arguments("{}", true) else Arguments(j.text, true)
  }

  /** A tool result: nothing, a JSON string, or any other JSON kept as text. */
  datatype Payload = NoPayload | Str(text: string) | OtherJson(text: string) {
    /** What a protocol that only takes strings is given. */
    function AsText(): string {
      if NoPayload? then "" else text
    }
  }

  /** The opaque part of a thinking block, by what its own type says it is. */
  datatype Opaque = NoOpaque | RedactedRaw(data: string) | ReasoningRaw(raw: string, summary: string) | ForeignRaw

  datatype Content =
    | Text(text: string)
    | Image(mediaType: string, data: string, url: string)
    | Thinking(text: string, signature: string, raw: Opaque)
    | ToolUse(id: string, name: string, input: Json)
    | ToolResult(id: string, result: Payload, isError: bool)

  datatype Message = Message(role: Role, content: seq<Content>)

  datatype ToolDef = ToolDef(name: string, description: string, schema: Json)

  /** A missing schema is sent as an object without properties. */
  function WithSchema(t: ToolDef): ToolDef {
    if t.schema.NoJson? then t.(schema := Json("{\"type\":\"object\",\"properties\":{}}")) else t
  }

  datatype ToolChoice = Unset | Auto | Never | Required | Named(name: string)

  datatype Request = Request(model: string, system: seq<Content>, messages: seq<Message>, tools: seq<ToolDef>,
                             toolChoice: ToolChoice, parallel: Option<bool>, maxTokens: Option<int>,
                             temperature: Option<real>, topP: Option<real>, stop: seq<string>, stream: bool,
                             responseFormat: Option<string>)

  datatype Result<+T> = Ok(value: T) | Err(error: string)

  function Map<A, B>(f: A -> B, xs: seq<A>): (ys: seq<B>)
    ensures |ys| == |xs| && forall k :: 0 <= k < |xs| ==> ys[k] == f(xs[k])
  {
    if xs == [] then [] else Map(f, xs[..|xs| - 1]) + [f(xs[|xs| - 1])]
  }

  // ---- Lists ------------------------------------------------------------------------------------

  lemma {:induction false} FlatMapCompose<A, B, C>(f: A -> seq<B>, g: B -> seq<C>, both: A -> seq<C>, xs: seq<A>)
    requires forall x :: FlatMap(g, f(x)) == both(x)
    ensures FlatMap(g, FlatMap(f, xs)) == FlatMap(both, xs)
    decreases |xs|
  {
    if xs != [] {
      var n := |xs| - 1;
      FlatMapCompose(f, g, both, xs[..n]);
      FlatMapConcat(g, FlatMap(f, xs[..n]), f(xs[n]));
    }
  }

  function Nothing<A, B>(x: A): seq<B> { [] }

  lemma {:induction false} FlatMapAll<A, B>(f: A -> seq<B>, p: B -> bool, xs: seq<A>)
    requires forall x, b :: x in xs && b in f(x) ==> p(b)
    ensures forall b :: b in FlatMap(f, xs) ==> p(b)
    decreases |xs|
  {
    if xs != [] {
      FlatMapAll(f, p, xs[..|xs| - 1]);
      assert xs[|xs| - 1] in xs;
    }
  }

  /** If each piece is either whole or missing, all is there exactly when no piece is missing. */
  lemma {:induction false} FlatMapPart<A, B>(part: A -> seq<B>, whole: A -> seq<B>, xs: seq<A>)
    requires forall x :: part(x) == whole(x) || part(x) == []
    ensures |FlatMap(part, xs)| <= |FlatMap(whole, xs)|
    ensures FlatMap(part, xs) == FlatMap(whole, xs) <==> forall k :: 0 <= k < |xs| ==> part(xs[k]) == whole(xs[k])
    decreases |xs|
  {
    if xs != [] {
      var n := |xs| - 1;
      FlatMapPart(part, whole, xs[..n]);
      assert forall k :: 0 <= k < n ==> xs[..n][k] == xs[k];
      var a, b := FlatMap(part, xs[..n]), FlatMap(whole, xs[..n]);
      assert FlatMap(part, xs) == a + part(xs[n]) && FlatMap(whole, xs) == b + whole(xs[n]);
      hide FlatMap;
      if part(xs[n]) != whole(xs[n]) {
        assert |FlatMap(part, xs)| < |FlatMap(whole, xs)|;
      } else if a + part(xs[n]) == b + whole(xs[n]) {
        assert |a| == |b|;
        assert (a + part(xs[n]))[..|a|] == a && (b + whole(xs[n]))[..|b|] == b;
        assert a == b;
      }
    }
  }

  /** Lists made of pieces of equal length are the same exactly when all pieces are. */
  lemma {:induction false} FlatMapSame<A, B>(f: A -> seq<B>, g: A -> seq<B>, xs: seq<A>)
    requires forall x :: |f(x)| == |g(x)|
    ensures |FlatMap(f, xs)| == |FlatMap(g, xs)|
    ensures FlatMap(f, xs) == FlatMap(g, xs) <==> forall x :: x in xs ==> f(x) == g(x)
    decreases |xs|
  {
    if xs != [] {
      var n := |xs| - 1;
      assert xs == xs[..n] + [xs[n]] && xs[n] in xs;
      FlatMapSame(f, g, xs[..n]);
      var a, b := FlatMap(f, xs[..n]), FlatMap(g, xs[..n]);
      assert FlatMap(f, xs) == a + f(xs[n]) && FlatMap(g, xs) == b + g(xs[n]);
      hide FlatMap;
      if a + f(xs[n]) == b + g(xs[n]) {
        assert (a + f(xs[n]))[..|a|] == a && (b + g(xs[n]))[..|b|] == b;
        assert (a + f(xs[n]))[|a|..] == f(xs[n]) && (b + g(xs[n]))[|b|..] == g(xs[n]);
      }
    }
  }

  /** A loop that appends what each element gives and stops at the first error. */
  function Collect<A, B>(f: A -> Result<seq<B>>, xs: seq<A>): Result<seq<B>> {
    if xs == [] then Ok([])
    else
      var front := Collect(f, xs[..|xs| - 1]);
      if front.Err? then front else Append(front.value, f(xs[|xs| - 1]))
  }

  function Append<B>(front: seq<B>, next: Result<seq<B>>): Result<seq<B>> {
    if next.Err? then next else Ok(front + next.value)
  }

  lemma {:induction false} CollectConcat<A, B>(f: A -> Result<seq<B>>, xs: seq<A>, ys: seq<A>)
    ensures Collect(f, xs + ys) ==
            if Collect(f, xs).Err? then Collect(f, xs) else Append(Collect(f, xs).value, Collect(f, ys))
    decreases |ys|
  {
    if ys == [] {
      assert xs + ys == xs;
      if Collect(f, xs).Ok? {
        assert Collect(f, xs).value + [] == Collect(f, xs).value;
      }
    } else {
      var n := |ys| - 1;
      assert (xs + ys)[..|xs| + n] == xs + ys[..n];
      CollectConcat(f, xs, ys[..n]);
      if Collect(f, xs).Ok? && Collect(f, ys).Ok? {
        var a, b, c := Collect(f, xs).value, Collect(f, ys[..n]).value, f(ys[n]).value;
        assert a + b + c == a + (b + c);
      }
    }
  }

  lemma CollectNone<A, B>(f: A -> Result<seq<B>>)
    ensures Collect(f, []) == Ok([])
  {
  }

  lemma CollectOne<A, B>(f: A -> Result<seq<B>>, x: A)
    ensures Collect(f, [x]) == f(x)
  {
    assert [x][..0] == [];
    assert Collect(f, [x][..0]) == Ok([]);
    if f(x).Ok? {
      assert [] + f(x).value == f(x).value;
    }
  }

  lemma CollectSnoc<A, B>(f: A -> Result<seq<B>>, xs: seq<A>, x: A)
    ensures Collect(f, xs + [x]) == if Collect(f, xs).Err? then Collect(f, xs) else Append(Collect(f, xs).value, f(x))
    ensures f(x) == Ok([]) ==> Collect(f, xs + [x]) == Collect(f, xs)
  {
    assert (xs + [x])[..|xs|] == xs;
    if Collect(f, xs).Ok? {
      assert Collect(f, xs).value + [] == Collect(f, xs).value;
    }
  }

  /** What holds of everything the parts give holds of the whole. */
  lemma {:induction false} CollectAll<A, B>(f: A -> Result<seq<B>>, p: B -> bool, xs: seq<A>)
    requires forall x, b :: x in xs && f(x).Ok? && b in f(x).value ==> p(b)
    ensures Collect(f, xs).Ok? ==> forall b :: b in Collect(f, xs).value ==> p(b)
    decreases |xs|
  {
    if xs != [] {
      CollectAll(f, p, xs[..|xs| - 1]);
    }
  }

  /** What can be read off the parts can be read off the whole. */
  lemma {:induction false} CollectFlat<A, B, C>(f: A -> Result<seq<B>>, seen: B -> seq<C>, meant: A -> seq<C>,
                                                xs: seq<A>)
    requires forall x :: x in xs && f(x).Ok? ==> FlatMap(seen, f(x).value) == meant(x)
    ensures Collect(f, xs).Ok? ==> FlatMap(seen, Collect(f, xs).value) == FlatMap(meant, xs)
    decreases |xs|
  {
    if xs != [] {
      var n := |xs| - 1;
      CollectFlat(f, seen, meant, xs[..n]);
      if Collect(f, xs).Ok? {
        FlatMapConcat(seen, Collect(f, xs[..n]).value, f(xs[n]).value);
      }
    }
  }

  /** Two passes in a row, when element by element they amount to `once`. */
  lemma {:induction false} CollectTwice<A, B, C>(f: A -> Result<seq<B>>, g: B -> Result<seq<C>>, once: A -> C,
                                                 xs: seq<A>)
    requires forall x :: x in xs ==> f(x).Ok? && Collect(g, f(x).value) == Ok([once(x)])
    ensures Collect(f, xs).Ok? && Collect(g, Collect(f, xs).value) == Ok(Map(once, xs))
    decreases |xs|
  {
    if xs != [] {
      var n := |xs| - 1;
      CollectTwice(f, g, once, xs[..n]);
      CollectConcat(g, Collect(f, xs[..n]).value, f(xs[n]).value);
    }
  }

  /** The loop itself. */
  method AppendAll<A, B>(f: A -> Result<seq<B>>, xs: seq<A>) returns (r: Result<seq<B>>)
    ensures r == Collect(f, xs)
  {
    var out: seq<B> := [];
    for k := 0 to |xs|
      invariant Collect(f, xs[..k]) == Ok(out)
    {
      CollectSnoc(f, xs[..k], xs[k]);
      assert xs[..k] + [xs[k]] == xs[..k + 1];
      var next := f(xs[k]);
      if next.Err? {
        CollectConcat(f, xs[..k + 1], xs[k + 1..]);
        assert xs[..k + 1] + xs[k + 1..] == xs;
        return next;
      }
      out := out + next.value;
    }
    assert xs[..|xs|] == xs;
    r := Ok(out);
  }

  lemma MapIdle<A>(f: A -> A, xs: seq<A>)
    requires forall x :: x in xs ==> f(x) == x
    ensures Map(f, xs) == xs
  {
    assert forall k :: 0 <= k < |xs| ==> xs[k] in xs;
  }

  lemma {:induction false} MapConcat<A, B>(f: A -> B, xs: seq<A>, ys: seq<A>)
    ensures Map(f, xs + ys) == Map(f, xs) + Map(f, ys)
  {
  }

  lemma {:induction false} MapFlat<A, B>(f: A -> seq<B>, g: B -> B, both: A -> seq<B>, xs: seq<A>)
    requires forall x :: x in xs ==> Map(g, f(x)) == both(x)
    ensures Map(g, FlatMap(f, xs)) == FlatMap(both, xs)
    decreases |xs|
  {
    if xs != [] {
      var n := |xs| - 1;
      assert xs[n] in xs && forall x :: x in xs[..n] ==> x in xs;
      MapFlat(f, g, both, xs[..n]);
      MapConcat(g, FlatMap(f, xs[..n]), f(xs[n]));
    }
  }

  lemma {:induction false} FlatMapAlike<A, B>(f: A -> seq<B>, g: A -> seq<B>, xs: seq<A>)
    requires forall x :: x in xs ==> f(x) == g(x)
    ensures FlatMap(f, xs) == FlatMap(g, xs)
    decreases |xs|
  {
    if xs != [] {
      var n := |xs| - 1;
      assert xs[n] in xs && forall x :: x in xs[..n] ==> x in xs;
      FlatMapAlike(f, g, xs[..n]);
    }
  }

  function PositiveOnly(n: Option<int>): Option<int> {
    if n.Some? && n.value > 0 then n else None
  }

  /** Raw JSON of length zero is no JSON. */
  function Present(f: Option<string>): Option<string> {
    if f == Some("") then None else f
  }

  /** An error result says so, unless its text already does. */
  function MarkError(s: string, isError: bool): string {
    if isError && !("Error" <= s) then "Error: " + s else s
  }

  lemma {:induction false} SchemasAreSet(ts: seq<ToolDef>)
    ensures forall t :: t in Map(WithSchema, ts) ==> WithSchema(t) == t
    decreases |ts|
  {
    if ts != [] { SchemasAreSet(ts[..|ts| - 1]); }
  }

  // ---- Text ------------------------------------------------------------------------------------

  /** The text blocks, separated by blank lines once something has been written. */
  function JoinText(cs: seq<Content>): string {
    if cs == [] then ""
    else
      var front, c := JoinText(cs[..|cs| - 1]), cs[|cs| - 1];
      if c.Text? then (if front == "" then "" else front + "\n\n") + c.text else front
  }

  /** Joining text that is already one block changes nothing. */
  lemma JoinOne(s: string)
    ensures JoinText([Text(s)]) == s
  {
    assert [Text(s)][..0] == [];
    assert JoinText([]) == "" && "" + s == s;
  }

  method JoinTextLoop(cs: seq<Content>) returns (s: string)
    ensures s == JoinText(cs)
  {
    s := "";
    for k := 0 to |cs|
      invariant s == JoinText(cs[..k])
    {
      assert cs[..k + 1][..k] == cs[..k];
      if cs[k].Text? {
        if |s| > 0 {
          s := s + "\n\n";
        }
        s := s + cs[k].text;
      }
    }
    assert cs[..|cs|] == cs;
  }

  // ---- Data URLs -------------------------------------------------------------------------------

  const SCHEME := "data:"
  const MARKER := ";base64,"

  /** The first place where the marker starts, if any. */
  function Find(s: string): Option<nat> {
    if |s| < |MARKER| then None
    else if MARKER <= s then Some(0)
    else
      var r := Find(s[1..]);
      if r.Some? then Some(r.value + 1) else None
  }

  datatype Split = NotData | Split(mediaType: string, data: string)

  function ParseDataUrl(u: string): Split {
    if !(SCHEME <= u) then NotData
    else
      var rest := u[|SCHEME|..];
      var at := Find(rest);
      if at.None? || at.value + |MARKER| > |rest| then NotData
      else Split(rest[..at.value], rest[at.value + |MARKER|..])
  }

  function DataUrl(mediaType: string, data: string): string {
    SCHEME + (mediaType + (MARKER + data))
  }

  /** How an image is printed: its URL, or its data with PNG as the default type. */
  function ImageUrl(c: Content): string
    requires c.Image?
  {
    if c.url != "" then c.url else DataUrl(if c.mediaType == "" then "image/png" else c.mediaType, c.data)
  }

  /** How a printed image is read back. */
  function ImageOf(u: string): Content {
    match ParseDataUrl(u)
    case NotData => Image("", "", u)
    case Split(mt, data) => Image(mt, data, "")
  }

  /** A URL that reading and printing leaves alone. */
  predicate StableUrl(u: string) {
    u != "" && match ParseDataUrl(u)
               case NotData => true
               case Split(mt, _) => mt != ""
  }

  lemma {:induction false} FindSplits(s: string)
    ensures Find(s).Some? ==> var i := Find(s).value; i + |MARKER| <= |s| && s == s[..i] + (MARKER + s[i + |MARKER|..])
  {
    if |s| >= |MARKER| {
      if MARKER <= s {
        assert s == [] + (MARKER + s[|MARKER|..]);
      } else {
        FindSplits(s[1..]);
        if Find(s[1..]).Some? {
          var i := Find(s[1..]).value;
          assert s == [s[0]] + s[1..];
          assert s[1..][i + |MARKER|..] == s[i + 1 + |MARKER|..] && [s[0]] + s[1..][..i] == s[..i + 1];
        }
      }
    }
  }

  /** A type without a semicolon is found again, whatever the data. */
  lemma {:induction false} FindPlain(mt: string, data: string)
    requires ';' !in mt
    ensures Find(mt + (MARKER + data)) == Some(|mt|)
  {
    var s := mt + (MARKER + data);
    if mt == "" {
      assert s == MARKER + data;
    } else {
      assert s[0] == mt[0] && MARKER[0] == ';';
      assert s[1..] == mt[1..] + (MARKER + data);
      FindPlain(mt[1..], data);
    }
  }

  lemma StablePrints(u: string)
    requires StableUrl(u)
    ensures ImageUrl(ImageOf(u)) == u
  {
    if ParseDataUrl(u).Split? {
      var rest := u[|SCHEME|..];
      FindSplits(rest);
      assert u == SCHEME + rest;
    }
  }

  /** One pass makes every printed image stable. */
  lemma OnePassIsStable(u: string)
    requires u != ""
    ensures StableUrl(ImageUrl(ImageOf(u)))
  {
    if !StableUrl(u) {
      var data := ParseDataUrl(u).data;
      var v := DataUrl("image/png", data);
      assert v[|SCHEME|..] == "image/png" + (MARKER + data);
      FindPlain("image/png", data);
      assert ("image/png" + (MARKER + data))[..9] == "image/png";
    } else {
      StablePrints(u);
    }
  }

  /** What printing and reading does to an image; other content is left alone. */
  function Settle(c: Content): Content {
    if c.Image? then ImageOf(ImageUrl(c)) else c
  }

  function SettleMessage(m: Message): Message {
    m.(content := Map(Settle, m.content))
  }

  /** Settled for good by one more pass. */
  predicate Settles(c: Content) {
    Settle(Settle(c)) == Settle(c)
  }

  predicate AllSettle(m: Message) {
    forall c :: c in m.content ==> Settles(c)
  }

  predicate IsPart(c: Content) {
    c.Text? || c.Image?
  }

  predicate IsCall(c: Content) {
    c.ToolUse? && c.input.Json? && c.input.text != ""
  }

  lemma TextSettles(s: string)
    ensures Settles(Text(s))
  {
  }

  lemma NoImageNoChange(m: Message)
    requires forall c :: c in m.content ==> !c.Image?
    ensures SettleMessage(m) == m
  {
    MapIdle(Settle, m.content);
  }

  /** An image read from a printed URL settles in one more pass. */
  lemma ReadImageSettles(u: string)
    requires u != ""
    ensures Settles(ImageOf(u))
  {
    OnePassIsStable(u);
    StablePrints(ImageUrl(ImageOf(u)));
  }

  lemma SettledStays(m: Message)
    requires AllSettle(m)
    ensures SettleMessage(SettleMessage(m)) == SettleMessage(m) && AllSettle(SettleMessage(m))
  {
    forall k | 0 <= k < |m.content|
      ensures Settle(Settle(m.content[k])) == Settle(m.content[k])
    {
      assert m.content[k] in m.content;
    }
  }

  // ---- Which images settle at once ----------------------------------------------------------------

  function UrlOf(c: Content): seq<string> {
    if c.Image? then [ImageUrl(c)] else []
  }

  /** The URLs under which the images of a user turn are printed; other turns print none. */
  function TurnUrls(m: Message): seq<string> {
    if m.role == User then FlatMap(UrlOf, m.content) else []
  }

  /** Every image of a user turn has a URL that reading and printing leaves alone: it is not a data URL
      without a media type. */
  predicate ImagesStable(ms: seq<Message>) {
    forall m, c :: m in ms && m.role == User && c in m.content && c.Image? ==> StableUrl(ImageUrl(c))
  }

  function OnlyImage(c: Content): seq<Content> {
    if c.Image? then [c] else []
  }

  function TurnImages(m: Message): seq<Content> {
    FlatMap(OnlyImage, m.content)
  }

  lemma EmptyTypeMoves(data: string)
    ensures Settle(Image("", data, "")) != Image("", data, "")
  {
    var v := DataUrl("image/png", data);
    assert v[|SCHEME|..] == "image/png" + (MARKER + data);
    FindPlain("image/png", data);
    assert ("image/png" + (MARKER + data))[..9] == "image/png";
  }

  /** An image read from a URL stays as it is exactly when the URL is stable. */
  lemma StaysExactly(u: string)
    requires u != ""
    ensures Settle(ImageOf(u)) == ImageOf(u) <==> StableUrl(u)
  {
    if StableUrl(u) {
      StablePrints(u);
    } else {
      EmptyTypeMoves(ParseDataUrl(u).data);
    }
  }

  lemma {:induction false} SettledContent(cs: seq<Content>)
    ensures Map(Settle, cs) == cs <==> forall c :: c in FlatMap(OnlyImage, cs) ==> Settle(c) == c
    decreases |cs|
  {
    if cs != [] {
      var n := |cs| - 1;
      SettledContent(cs[..n]);
      assert cs == cs[..n] + [cs[n]];
      assert Map(Settle, cs) == Map(Settle, cs[..n]) + [Settle(cs[n])];
      assert FlatMap(OnlyImage, cs) == FlatMap(OnlyImage, cs[..n]) + OnlyImage(cs[n]);
      hide Map, FlatMap;
      if Map(Settle, cs) == cs {
        assert Map(Settle, cs)[n] == cs[n] && Map(Settle, cs)[..n] == cs[..n];
      } else if Settle(cs[n]) != cs[n] {
        assert cs[n] in FlatMap(OnlyImage, cs);
      }
    }
  }

  lemma SettledTurn(m: Message)
    ensures SettleMessage(m) == m <==> forall c :: c in TurnImages(m) ==> Settle(c) == c
  {
    hide Map, FlatMap, Settle;
    SettledContent(m.content);
  }

  /** Turns stay as they are exactly when each of their images does. */
  lemma {:induction false} SettledTurnsExactly(ms: seq<Message>)
    ensures Map(SettleMessage, ms) == ms <==> forall c :: c in FlatMap(TurnImages, ms) ==> Settle(c) == c
    decreases |ms|
  {
    if ms != [] {
      var n := |ms| - 1;
      hide Settle, SettleMessage, TurnImages;
      SettledTurnsExactly(ms[..n]);
      SettledTurn(ms[n]);
      assert ms == ms[..n] + [ms[n]];
      assert Map(SettleMessage, ms) == Map(SettleMessage, ms[..n]) + [SettleMessage(ms[n])];
      assert FlatMap(TurnImages, ms) == FlatMap(TurnImages, ms[..n]) + TurnImages(ms[n]);
      hide Map, FlatMap;
      if Map(SettleMessage, ms) == ms {
        assert Map(SettleMessage, ms)[n] == ms[n] && Map(SettleMessage, ms)[..n] == ms[..n];
      }
    }
  }

  lemma {:induction false} UrlsAre(cs: seq<Content>)
    ensures forall u :: u in FlatMap(UrlOf, cs) <==> exists c :: c in cs && c.Image? && ImageUrl(c) == u
    ensures forall u :: u in FlatMap(UrlOf, cs) ==> u != ""
    decreases |cs|
  {
    if cs != [] {
      var n := |cs| - 1;
      UrlsAre(cs[..n]);
      assert cs == cs[..n] + [cs[n]];
      hide FlatMap, DataUrl;
      FlatMapSnoc(UrlOf, cs[..n], cs[n]);
    }
  }

  lemma {:induction false} StableUrlsExactly(ms: seq<Message>)
    ensures ImagesStable(ms) <==> forall u :: u in FlatMap(TurnUrls, ms) ==> StableUrl(u)
    ensures forall u :: u in FlatMap(TurnUrls, ms) ==> u != ""
    decreases |ms|
  {
    if ms != [] {
      var n := |ms| - 1;
      var front, m := ms[..n], ms[n];
      StableUrlsExactly(front);
      UrlsAre(m.content);
      assert ms == front + [m] && m in ms;
      hide FlatMap, StableUrl, ImageUrl;
      FlatMapSnoc(TurnUrls, front, m);
      if ImagesStable(ms) {
        assert ImagesStable(front);
      }
    }
  }

  function ReadUrl(u: string): seq<Content> {
    [ImageOf(u)]
  }

  lemma {:induction false} ReadUrlsStay(us: seq<string>)
    requires forall u :: u in us ==> u != ""
    ensures (forall c :: c in FlatMap(ReadUrl, us) ==> Settle(c) == c) <==> forall u :: u in us ==> StableUrl(u)
    decreases |us|
  {
    if us != [] {
      var n := |us| - 1;
      assert us == us[..n] + [us[n]] && us[n] in us && forall u :: u in us[..n] ==> u in us;
      ReadUrlsStay(us[..n]);
      StaysExactly(us[n]);
      hide Settle, ImageOf, StableUrl, FlatMap;
      FlatMapSnoc(ReadUrl, us[..n], us[n]);
      assert ImageOf(us[n]) in ReadUrl(us[n]);
    }
  }

  /** When the images of `once` are read from the URLs that `ms` prints, they stay as they are exactly
      when the images of `ms` are stable. */
  lemma {:induction false} SettledAtOnce(ms: seq<Message>, once: seq<Message>)
    requires FlatMap(TurnImages, once) == FlatMap(ReadUrl, FlatMap(TurnUrls, ms))
    ensures Map(SettleMessage, once) == once <==> ImagesStable(ms)
  {
    hide FlatMap, Map, Settle, ImagesStable;
    SettledTurnsExactly(once);
    StableUrlsExactly(ms);
    ReadUrlsStay(FlatMap(TurnUrls, ms));
  }

  // ---- What a request says about tools ----------------------------------------------------------

  datatype ToolCall = ToolCall(id: string, name: string, args: string)

  function CallOf(c: Content): seq<ToolCall> {
    if c.ToolUse? then [ToolCall(c.id, c.name, OrEmptyObject(c.input).text)] else []
  }

  function ResultOf(c: Content): seq<string> {
    if c.ToolResult? then [c.id] else []
  }

  function Calls(m: Message): seq<ToolCall> {
    FlatMap(CallOf, m.content)
  }

  function Results(m: Message): seq<string> {
    FlatMap(ResultOf, m.content)
  }

  function AllCalls(ms: seq<Message>): seq<ToolCall> {
    FlatMap(Calls, ms)
  }

  function AllResults(ms: seq<Message>): seq<string> {
    FlatMap(Results, ms)
  }

  /** Calls only in assistant turns, results only in user and tool turns. */
  predicate InPlace(m: Message) {
    && (m.role != Assistant ==> Calls(m) == [])
    && (m.role != User && m.role != Tool ==> Results(m) == [])
  }

  predicate AllInPlace(ms: seq<Message>) {
    forall k :: 0 <= k < |ms| ==> InPlace(ms[k])
  }

  function ContentOf(m: Message): seq<Content> { m.content }

  function PlacedCalls(m: Message): seq<ToolCall> {
    if m.role == Assistant then Calls(m) else []
  }

  function PlacedResults(m: Message): seq<string> {
    if m.role == User || m.role == Tool then Results(m) else []
  }

  /** What is in place is everything exactly when nothing is out of place. */
  lemma PlacedIsAll(ms: seq<Message>)
    ensures (FlatMap(PlacedCalls, ms) == AllCalls(ms) && FlatMap(PlacedResults, ms) == AllResults(ms))
            <==> AllInPlace(ms)
  {
    FlatMapPart(PlacedCalls, Calls, ms);
    FlatMapPart(PlacedResults, Results, ms);
  }
}
