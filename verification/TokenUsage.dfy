/** Normalised token accounting, and the usage objects of the three wire protocols. */
module TokenUsage {

  datatype Usage = Usage(input: int, output: int, cacheRead: int, cacheWrite: int, reasoning: int, found: bool) {
    function Total(): int {
      input + cacheRead + cacheWrite + output
    }

    predicate NonNegative() {
      input >= 0 && output >= 0 && cacheRead >= 0 && cacheWrite >= 0 && reasoning >= 0
    }

    /** Zeroes every negative counter ("-1 = unknown" servers). */
    function Clamp(): (u: Usage)
      ensures u.NonNegative() && u.found == found
      ensures NonNegative() ==> u == this
      ensures (input >= 0 ==> u.input == input) && (input < 0 ==> u.input == 0)
      ensures (output >= 0 ==> u.output == output) && (output < 0 ==> u.output == 0)
      ensures (cacheRead >= 0 ==> u.cacheRead == cacheRead) && (cacheRead < 0 ==> u.cacheRead == 0)
      ensures (cacheWrite >= 0 ==> u.cacheWrite == cacheWrite) && (cacheWrite < 0 ==> u.cacheWrite == 0)
      ensures (reasoning >= 0 ==> u.reasoning == reasoning) && (reasoning < 0 ==> u.reasoning == 0)
    {
      Usage(AtLeastZero(input), AtLeastZero(output), AtLeastZero(cacheRead),
            AtLeastZero(cacheWrite), AtLeastZero(reasoning), found)
    }
  }

  function AtLeastZero(n: int): int {
    if n < 0 then 0 else n
  }

  /** The zero value of Usage: nothing was reported. */
  const NO_USAGE := Usage(0, 0, 0, 0, 0, false)

  /** A usage member of a JSON object: missing or null, of an undecodable shape, or decoded. */
  datatype Field<+T> = Absent | Malformed | Present(value: T)

  datatype ChatUsage = ChatUsage(prompt: int, completion: int, cached: int, detailWrite: int,
                                 creation: int, topWrite: int, reasoning: int)

  datatype ResponsesUsage = ResponsesUsage(input: int, output: int, cached: int, write: int, reasoning: int)

  /** Anthropic counters are individually optional on the wire. */
  datatype Counter = Missing | Count(n: int) {
    function Value(): int {
      if Count? then n else 0
    }
  }

  datatype AnthropicUsage = AnthropicUsage(input: Counter, output: Counter, cacheRead: Counter, cacheWrite: Counter)

  function FirstNonZero(a: int, b: int, c: int): int {
    if a != 0 then a else if b != 0 then b else c
  }

  function NormalizeChat(u: ChatUsage): Usage {
    var write := FirstNonZero(u.detailWrite, u.creation, u.topWrite);
    Usage(AtLeastZero(u.prompt - u.cached - write), u.completion, u.cached, write, u.reasoning, true)
  }

  function NormalizeResponses(u: ResponsesUsage): Usage {
    Usage(AtLeastZero(u.input - u.cached - u.write), u.output, u.cached, u.write, u.reasoning, true)
  }

  function NormalizeAnthropic(u: AnthropicUsage): Usage {
    Usage(u.input.Value(), u.output.Value(), u.cacheRead.Value(), u.cacheWrite.Value(), 0, true)
  }

  // ParseUsage, one function per protocol.

  function ParseChat(f: Field<ChatUsage>): Usage {
    if f.Present? then NormalizeChat(f.value).Clamp() else NO_USAGE
  }

  function ParseResponses(f: Field<ResponsesUsage>): Usage {
    if f.Present? then NormalizeResponses(f.value).Clamp() else NO_USAGE
  }

  function ParseAnthropic(f: Field<AnthropicUsage>): Usage {
    if f.Present? then NormalizeAnthropic(f.value).Clamp() else NO_USAGE
  }

  /** A Chat usage object is taken apart without loss: the input side adds up to the prompt, whichever of
      the three fields names the cache writes. */
  lemma ChatUsageParses(w: ChatUsage)
    requires w.prompt >= 0 && w.completion >= 0 && w.cached >= 0 && w.reasoning >= 0
    requires w.detailWrite >= 0 && w.creation >= 0 && w.topWrite >= 0
    ensures var u := ParseChat(Present(w));
            var write := if w.detailWrite > 0 then w.detailWrite else if w.creation > 0 then w.creation else w.topWrite;
            && u.found && u.output == w.completion && u.cacheRead == w.cached && u.cacheWrite == write
            && u.reasoning == w.reasoning
            && (w.cached + write <= w.prompt ==> u.input + u.cacheRead + u.cacheWrite == w.prompt)
            && (w.cached + write > w.prompt ==> u.input == 0)
  {
  }

  /** The same for a Responses usage object. */
  lemma ResponsesUsageParses(w: ResponsesUsage)
    requires w.input >= 0 && w.output >= 0 && w.cached >= 0 && w.write >= 0 && w.reasoning >= 0
    ensures var u := ParseResponses(Present(w));
            && u.found && u.output == w.output && u.cacheRead == w.cached && u.cacheWrite == w.write
            && u.reasoning == w.reasoning
            && (w.cached + w.write <= w.input ==> u.input + u.cacheRead + u.cacheWrite == w.input)
            && (w.cached + w.write > w.input ==> u.input == 0)
  {
  }

  /** An Anthropic usage object already counts apart; what is missing is zero. */
  lemma AnthropicUsageParses(w: AnthropicUsage)
    ensures var u := ParseAnthropic(Present(w));
            && u.found && u.reasoning == 0
            && (w.input.Missing? ==> u.input == 0) && (w.input.Count? && w.input.n >= 0 ==> u.input == w.input.n)
            && (w.output.Missing? ==> u.output == 0) && (w.output.Count? && w.output.n >= 0 ==> u.output == w.output.n)
            && (w.cacheRead.Missing? ==> u.cacheRead == 0)
            && (w.cacheRead.Count? && w.cacheRead.n >= 0 ==> u.cacheRead == w.cacheRead.n)
            && (w.cacheWrite.Missing? ==> u.cacheWrite == 0)
            && (w.cacheWrite.Count? && w.cacheWrite.n >= 0 ==> u.cacheWrite == w.cacheWrite.n)
  {
  }

  // Rendering of normalised usage. The OpenAI shapes omit the object when nothing was found and
  // have no slot for cache writes; Anthropic always writes all four counters.

  function RenderChat(u: Usage): Field<ChatUsage> {
    if !u.found then Absent
    else Present(ChatUsage(u.input + u.cacheRead + u.cacheWrite, u.output,
                           if u.cacheRead > 0 then u.cacheRead else 0, 0, 0, 0,
                           if u.reasoning > 0 then u.reasoning else 0))
  }

  function RenderResponses(u: Usage): Field<ResponsesUsage> {
    if !u.found then Absent
    else Present(ResponsesUsage(u.input + u.cacheRead + u.cacheWrite, u.output, u.cacheRead, 0, u.reasoning))
  }

  function RenderAnthropic(u: Usage): Field<AnthropicUsage> {
    Present(AnthropicUsage(Count(u.input), Count(u.output), Count(u.cacheRead), Count(u.cacheWrite)))
  }

  datatype Protocol = OpenAIChat | OpenAIResponses | Anthropic

  /** One hop: usage is rendered in a protocol and parsed again on the other side. */
  function Hop(p: Protocol, u: Usage): Usage {
    match p
    case OpenAIChat => ParseChat(RenderChat(u))
    case OpenAIResponses => ParseResponses(RenderResponses(u))
    case Anthropic => ParseAnthropic(RenderAnthropic(u))
  }

  function Chain(ps: seq<Protocol>, u: Usage): Usage {
    if ps == [] then u else Chain(ps[1..], Hop(ps[0], u))
  }

  /** What any chain of hops leaves of the counters, without running it. */
  function Folded(ps: seq<Protocol>, u: Usage): Usage {
    var openai := OpenAIChat in ps || OpenAIResponses in ps;
    Usage(if openai then u.input + u.cacheWrite else u.input, u.output, u.cacheRead,
          if openai then 0 else u.cacheWrite, if Anthropic in ps then 0 else u.reasoning, true)
  }

  /** Every chain of hops conserves the total and the output; the first OpenAI hop folds cache
      writes into the input, an Anthropic hop forgets the reasoning share, nothing else moves. */
  lemma {:induction false} ChainConserves(ps: seq<Protocol>, u: Usage)
    requires u.found && u.NonNegative()
    ensures Chain(ps, u) == Folded(ps, u)
    ensures Chain(ps, u).Total() == u.Total() && Chain(ps, u).output == u.output
  {
    if ps != [] {
      var v := Hop(ps[0], u);
      ChainConserves(ps[1..], v);
      assert forall p :: p in ps <==> p == ps[0] || p in ps[1..];
    }
  }

  /** Once an OpenAI hop has been taken, no further OpenAI hop changes any counter. */
  lemma LaterHopsAreSilent(p: Protocol, ps: seq<Protocol>, u: Usage)
    requires u.found && u.NonNegative() && p != Anthropic
    requires Anthropic !in ps
    ensures Chain([p] + ps, u) == Hop(p, u)
  {
    ChainConserves([p] + ps, u);
    ChainConserves([p], u);
    assert p in [p] + ps && p in [p];
    assert [p][1..] == [];
  }
}
