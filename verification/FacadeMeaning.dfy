/** What the client of a whole `Stream` reads and hears, over every sequence of calls. */
module FacadeMeaning {
  import opened Folds
  import opened TokenUsage
  import opened Ir
  import opened Facade
  import opened StreamContract
  import opened StreamMeaning
  import AnthropicGrammar
  import AnthropicMeaning
  import ResponsesReplay
  import ResponsesMeaning
  import ChatMeaning
  import ChatContract
  import EndToEnd
  import AnthropicUpstream
  import ResponsesUpstream

  // ---- The events a session passes on -----------------------------------------------------------

  function WithTokens(events: seq<Event>, tokens: nat -> Token): seq<Input> {
    if events == [] then []
    else
      var n := |events| - 1;
      WithTokens(events[..n], tokens) + [WithToken(events[n], tokens(n))]
  }

  /** What one call gives the encoder. */
  function PassedBy(s: Session, a: Action): seq<Input> {
    if s.ended then []
    else match a
      case FeedIt(raw, tokens) => if Decode(s.dec, raw).ok then WithTokens(Decode(s.dec, raw).events, tokens) else []
      case FailIt(message, token) => [WithToken(Error(message), token)]
  }

  /** What a sequence of calls gives the encoder. */
  function Passed(s: Session, acts: seq<Action>): seq<Input>
    decreases |acts|
  {
    if acts == [] then [] else PassedBy(s, acts[0]) + Passed(Act(s, acts[0]), acts[1..])
  }

  function Further(acc: Encoded, i: Input): Encoded {
    var b := Encode(acc.state, i);
    Encoded(b.state, acc.frames + b.frames)
  }

  lemma {:induction false} BatchIsFold(e: Encoder, events: seq<Event>, tokens: nat -> Token)
    ensures EncodeAll(e, events, tokens) == Fold(Further, Encoded(e, []), WithTokens(events, tokens))
    decreases |events|
  {
    hide Encode;
    if events != [] {
      var n := |events| - 1;
      BatchIsFold(e, events[..n], tokens);
      FoldSnoc(Further, Encoded(e, []), WithTokens(events[..n], tokens), WithToken(events[n], tokens(n)));
    }
  }

  /** Frames sent earlier only stand in front. */
  lemma {:induction false} FurtherShifts(e: Encoder, sent: seq<Frame>, ins: seq<Input>)
    ensures var r := Fold(Further, Encoded(e, []), ins);
            Fold(Further, Encoded(e, sent), ins) == Encoded(r.state, sent + r.frames)
    decreases |ins|
  {
    hide Encode;
    if ins == [] {
      assert sent + [] == sent;
    } else {
      var n := |ins| - 1;
      FurtherShifts(e, sent, ins[..n]);
      FoldSnoc(Further, Encoded(e, []), ins[..n], ins[n]);
      FoldSnoc(Further, Encoded(e, sent), ins[..n], ins[n]);
      assert ins[..n] + [ins[n]] == ins;
      var r := Fold(Further, Encoded(e, []), ins[..n]);
      var b := Encode(r.state, ins[n]);
      assert sent + (r.frames + b.frames) == (sent + r.frames) + b.frames;
    }
  }

  lemma ActPasses(s: Session, a: Action)
    ensures Encoded(Act(s, a).enc, Act(s, a).sent) == Fold(Further, Encoded(s.enc, s.sent), PassedBy(s, a))
  {
    hide Encode, Decode, EncodeAll;
    FurtherShifts(s.enc, s.sent, PassedBy(s, a));
    if !s.ended {
      match a
      case FeedIt(raw, tokens) =>
        if Decode(s.dec, raw).ok {
          BatchIsFold(s.enc, Decode(s.dec, raw).events, tokens);
        }
      case FailIt(message, token) =>
        FoldOne(Further, Encoded(s.enc, s.sent), WithToken(Error(message), token));
    }
  }

  /** The frames a session has sent are those of one encoder run over everything passed on. */
  lemma {:induction false} SentIsRun(s: Session, acts: seq<Action>)
    ensures var t := Fold(Act, s, acts);
            Encoded(t.enc, t.sent) == Fold(Further, Encoded(s.enc, s.sent), Passed(s, acts))
    decreases |acts|
  {
    hide Act, PassedBy, Further;
    if acts != [] {
      var next := Act(s, acts[0]);
      ActPasses(s, acts[0]);
      SentIsRun(next, acts[1..]);
      FoldConcat(Further, Encoded(s.enc, s.sent), PassedBy(s, acts[0]), Passed(next, acts[1..]));
    }
  }

  // ---- The frames of one client -----------------------------------------------------------------

  function ForAnthropic(fs: seq<AnthropicOut.Frame>): seq<Frame> {
    seq(|fs|, k requires 0 <= k < |fs| => AnthropicFrame(fs[k]))
  }

  function ForResponses(bs: seq<ResponsesOut.Body>): seq<Frame> {
    seq(|bs|, k requires 0 <= k < |bs| => ResponsesFrame(bs[k]))
  }

  function ForChat(fs: seq<ChatOut.Frame>): seq<Frame> {
    seq(|fs|, k requires 0 <= k < |fs| => ChatFrame(fs[k]))
  }

  lemma {:induction false} AnthropicSent(ins: seq<Input>)
    ensures var r := AnthropicOut.Run(ins);
            Fold(Further, Encoded(NewEncoder(Anthropic), []), ins)
                == Encoded(Encoder.ToAnthropic(r.state), ForAnthropic(r.frames))
    decreases |ins|
  {
    hide AnthropicOut.Step;
    if ins != [] {
      var n := |ins| - 1;
      AnthropicSent(ins[..n]);
      assert ins[..n] + [ins[n]] == ins;
      FoldSnoc(Further, Encoded(NewEncoder(Anthropic), []), ins[..n], ins[n]);
      FoldSnoc(AnthropicOut.Advance, AnthropicOut.Result(AnthropicOut.INIT, []), ins[..n], ins[n]);
    }
  }

  lemma {:induction false} ResponsesSent(ins: seq<Input>)
    ensures var r := ResponsesOut.Run(ins);
            Fold(Further, Encoded(NewEncoder(OpenAIResponses), []), ins)
                == Encoded(Encoder.ToResponses(r.state), ForResponses(r.bodies))
    decreases |ins|
  {
    hide ResponsesOut.Step;
    if ins != [] {
      var n := |ins| - 1;
      ResponsesSent(ins[..n]);
      assert ins[..n] + [ins[n]] == ins;
      FoldSnoc(Further, Encoded(NewEncoder(OpenAIResponses), []), ins[..n], ins[n]);
      FoldSnoc(ResponsesOut.Advance, ResponsesOut.Result(ResponsesOut.INIT, []), ins[..n], ins[n]);
    }
  }

  lemma {:induction false} ChatSent(ins: seq<Input>)
    ensures var r := ChatOut.Run(ins);
            Fold(Further, Encoded(NewEncoder(OpenAIChat), []), ins) == Encoded(ToChat(r.state), ForChat(r.frames))
    decreases |ins|
  {
    hide ChatOut.Step;
    if ins != [] {
      var n := |ins| - 1;
      ChatSent(ins[..n]);
      assert ins[..n] + [ins[n]] == ins;
      FoldSnoc(Further, Encoded(NewEncoder(OpenAIChat), []), ins[..n], ins[n]);
      FoldSnoc(ChatOut.Advance, ChatOut.Result(ChatOut.INIT, []), ins[..n], ins[n]);
    }
  }

  // ---- What the client makes of them --------------------------------------------------------------

  function OnlyAnthropic(fs: seq<Frame>): seq<AnthropicOut.Frame> {
    if fs == [] then []
    else OnlyAnthropic(fs[..|fs| - 1]) + if fs[|fs| - 1].AnthropicFrame? then [fs[|fs| - 1].a] else []
  }

  function OnlyResponses(fs: seq<Frame>): seq<ResponsesOut.Body> {
    if fs == [] then []
    else OnlyResponses(fs[..|fs| - 1]) + if fs[|fs| - 1].ResponsesFrame? then [fs[|fs| - 1].r] else []
  }

  function OnlyChat(fs: seq<Frame>): seq<ChatOut.Frame> {
    if fs == [] then []
    else OnlyChat(fs[..|fs| - 1]) + if fs[|fs| - 1].ChatFrame? then [fs[|fs| - 1].c] else []
  }

  lemma {:induction false} AnthropicBack(fs: seq<AnthropicOut.Frame>)
    ensures OnlyAnthropic(ForAnthropic(fs)) == fs
    decreases |fs|
  {
    if fs != [] {
      var n := |fs| - 1;
      AnthropicBack(fs[..n]);
      assert ForAnthropic(fs)[..n] == ForAnthropic(fs[..n]);
    }
  }

  lemma {:induction false} ResponsesBack(bs: seq<ResponsesOut.Body>)
    ensures OnlyResponses(ForResponses(bs)) == bs
    decreases |bs|
  {
    if bs != [] {
      var n := |bs| - 1;
      ResponsesBack(bs[..n]);
      assert ForResponses(bs)[..n] == ForResponses(bs[..n]);
    }
  }

  lemma {:induction false} ChatBack(fs: seq<ChatOut.Frame>)
    ensures OnlyChat(ForChat(fs)) == fs
    decreases |fs|
  {
    if fs != [] {
      var n := |fs| - 1;
      ChatBack(fs[..n]);
      assert ForChat(fs)[..n] == ForChat(fs[..n]);
    }
  }

  /** The message a client puts together from the frames it was sent. */
  function HeardBy(client: Protocol, sent: seq<Frame>): Meaning {
    match client
    case Anthropic => AnthropicMeaning.Assemble(Fold(AnthropicMeaning.Collect, [], OnlyAnthropic(sent)))
    case OpenAIResponses =>
      ResponsesMeaning.Assemble(ResponsesReplay.View(Fold(ResponsesReplay.Rebuild, [], OnlyResponses(sent))))
    case OpenAIChat => Fold(ChatMeaning.Accumulate, SILENCE, OnlyChat(sent))
  }

  function HeardOf(client: Protocol, ins: seq<Input>): Meaning {
    match client
    case Anthropic => AnthropicMeaning.Heard(ins)
    case OpenAIResponses => ResponsesMeaning.Heard(ins)
    case OpenAIChat => ChatMeaning.Heard(ins)
  }

  /** Each client is sent exactly the frames of its own encoder over what was passed on. */
  lemma {:induction false} SentToClient(client: Protocol, provider: Protocol, acts: seq<Action>)
    ensures var sent, ins := Fold(Act, Fresh(client, provider), acts).sent, Passed(Fresh(client, provider), acts);
            && HeardBy(client, sent) == HeardOf(client, ins)
            && (client == Anthropic ==> OnlyAnthropic(sent) == AnthropicOut.Run(ins).frames)
            && (client == OpenAIResponses ==> OnlyResponses(sent) == ResponsesOut.Run(ins).bodies)
            && (client == OpenAIChat ==> OnlyChat(sent) == ChatOut.Run(ins).frames)
  {
    hide Act, Passed, Further, AnthropicOut.Run, ResponsesOut.Run, ChatOut.Run;
    var ins := Passed(Fresh(client, provider), acts);
    SentIsRun(Fresh(client, provider), acts);
    match client
    case Anthropic => AnthropicSent(ins); AnthropicBack(AnthropicOut.Run(ins).frames);
    case OpenAIResponses => ResponsesSent(ins); ResponsesBack(ResponsesOut.Run(ins).bodies);
    case OpenAIChat => ChatSent(ins); ChatBack(ChatOut.Run(ins).frames);
  }

  /** For every provider and every sequence of Feed and Fail calls: a Responses client reads an orderly
      stream whose terminal frame sums it up, and an Anthropic client reads a grammatical one exactly
      unless an event addressed a negative tool index that had lost its block. */
  lemma {:induction false} EveryCallSequenceReadsWell(client: Protocol, provider: Protocol, acts: seq<Action>)
    ensures var sent, ins := Fold(Act, Fresh(client, provider), acts).sent, Passed(Fresh(client, provider), acts);
            && (client == Anthropic ==>
                  (AnthropicGrammar.Grammatical(OnlyAnthropic(sent)) <==> !AnthropicGrammar.AddressesLostTool(ins)))
            && (client == OpenAIResponses ==>
                  var bodies := OnlyResponses(sent);
                  && ResponsesReplay.Orderly(bodies)
                  && forall p :: 0 <= p < |bodies| && bodies[p].Final? ==>
                       bodies[p].response.output
                       == ResponsesReplay.View(Fold(ResponsesReplay.Rebuild, [], bodies[..p])))
  {
    var ins := Passed(Fresh(client, provider), acts);
    hide Passed, HeardBy, HeardOf;
    SentToClient(client, provider, acts);
    AnthropicGrammar.GrammarExact(ins);
    ResponsesReplay.StreamAgreesWithSummary(ins);
  }

  // ---- From the payloads to any client ---------------------------------------------------------------

  predicate AllFeeds(acts: seq<Action>) {
    forall k :: 0 <= k < |acts| ==> acts[k].FeedIt?
  }

  function Payloads(acts: seq<Action>): seq<Raw>
    requires AllFeeds(acts)
  {
    seq(|acts|, k requires 0 <= k < |acts| => acts[k].raw)
  }

  /** How many calls find the stream not ended. */
  function Taken(s: Session, acts: seq<Action>): (m: nat)
    ensures m <= |acts|
    decreases |acts|
  {
    if acts == [] || s.ended then 0 else 1 + Taken(Act(s, acts[0]), acts[1..])
  }

  /** Decoding payload after payload, up to the first that cannot be decoded. */
  function More(acc: Decoded, raw: Raw): Decoded {
    if !acc.ok then acc
    else
      var o := Decode(acc.state, raw);
      Decoded(o.state, acc.events + o.events, o.ok)
  }

  function DecodeAll(provider: Protocol, raws: seq<Raw>): Decoded {
    Fold(More, Decoded(NewDecoder(provider), [], true), raws)
  }

  /** The payloads a fresh session takes. */
  function TakenPayloads(client: Protocol, provider: Protocol, acts: seq<Action>): seq<Raw>
    requires AllFeeds(acts)
  {
    Payloads(acts)[..Taken(Fresh(client, provider), acts)]
  }

  lemma {:induction false} NothingAfterTheEnd(s: Session, acts: seq<Action>)
    requires s.ended
    ensures Passed(s, acts) == [] && Fold(Act, s, acts) == s && Taken(s, acts) == 0
    decreases |acts|
  {
    if acts != [] {
      NothingAfterTheEnd(s, acts[1..]);
    }
  }

  lemma {:induction false} RefusedStays(acc: Decoded, raws: seq<Raw>)
    requires !acc.ok
    ensures Fold(More, acc, raws) == acc
    decreases |raws|
  {
    if raws != [] { RefusedStays(acc, raws[1..]); }
  }

  lemma EventsConcat(xs: seq<Input>, ys: seq<Input>)
    ensures Events(xs + ys) == Events(xs) + Events(ys)
  {
  }

  lemma {:induction false} TokensAside(es: seq<Event>, tokens: nat -> Token)
    ensures Events(WithTokens(es, tokens)) == es
    decreases |es|
  {
    if es != [] {
      var n := |es| - 1;
      TokensAside(es[..n], tokens);
      EventsConcat(WithTokens(es[..n], tokens), [WithToken(es[n], tokens(n))]);
      assert Events([WithToken(es[n], tokens(n))]) == [es[n]];
    }
  }

  ghost predicate Ended(events: seq<Event>) {
    events != [] && events[|events| - 1].Terminal()
  }

  /** A decoder's events against what a session passed on after `before`. */
  ghost predicate Matches(r: Decoded, before: seq<Event>, passed: seq<Input>, ended: bool) {
    r.events == before + Events(passed) && LastOnly(r.events) && (ended <==> Ended(r.events))
  }

  lemma MatchesMore(r: Decoded, before: seq<Event>, xs: seq<Input>, ys: seq<Input>, ended: bool)
    requires Matches(r, before + Events(xs), ys, ended)
    ensures Matches(r, before, xs + ys, ended)
  {
    EventsConcat(xs, ys);
    assert (before + Events(xs)) + Events(ys) == before + (Events(xs) + Events(ys));
  }

  lemma MatchesNothing(r: Decoded, before: seq<Event>, ended: bool)
    requires r.events == before && LastOnly(before) && (ended <==> Ended(before))
    ensures Matches(r, before, [], ended)
  {
    assert Events([]) == [] && before + [] == before;
  }

  /** One payload: the session passes on exactly what the decoder adds to its events. */
  lemma FeedStep(s: Session, acc: Decoded, a: Action)
    requires a.FeedIt? && !s.ended && s.dec == acc.state && acc.ok && Calm(acc.events) && More(acc, a.raw).ok
    ensures var t, r := Act(s, a), More(acc, a.raw);
            && r.events == acc.events + Events(PassedBy(s, a)) && t.dec == r.state
            && LastOnly(r.events) && (t.ended <==> Ended(r.events)) && (!t.ended ==> Calm(r.events))
  {
    TerminalIsLast(s.dec, a.raw);
    hide Encode, Decode;
    var es := Decode(s.dec, a.raw).events;
    TokensAside(es, a.tokens);
    if es != [] && !es[|es| - 1].Terminal() { CalmHasNoTerminal(es); }
  }

  /** The payloads taken: the first, then the others. */
  lemma TakenFirst(s: Session, acts: seq<Action>)
    requires AllFeeds(acts) && acts != [] && !s.ended
    ensures AllFeeds(acts[1..])
    ensures var later := Payloads(acts[1..])[..Taken(Act(s, acts[0]), acts[1..])];
            Taken(s, acts) == 1 + |later| && Payloads(acts)[..Taken(s, acts)] == [acts[0].raw] + later
  {
    hide Act;
    assert AllFeeds(acts[1..]);
  }

  /** Before the last payload nothing had ended. */
  ghost predicate Awake(acc: Decoded, raws: seq<Raw>) {
    raws != [] ==> !Ended(Fold(More, acc, raws[..|raws| - 1]).events)
  }

  lemma AwakeMore(acc: Decoded, raw: Raw, later: seq<Raw>)
    requires !Ended(acc.events) && Awake(More(acc, raw), later)
    ensures Awake(acc, [raw] + later)
  {
    hide More, Ended;
    var front := ([raw] + later)[..|later|];
    if later == [] {
      assert front == [];
    } else {
      assert front[0] == raw && front[1..] == later[..|later| - 1];
    }
  }

  lemma {:induction false} FedEvents(s: Session, acc: Decoded, acts: seq<Action>)
    requires AllFeeds(acts) && !s.ended && s.dec == acc.state && acc.ok && Calm(acc.events)
    requires Fold(More, acc, Payloads(acts)[..Taken(s, acts)]).ok
    ensures var r, t := Fold(More, acc, Payloads(acts)[..Taken(s, acts)]), Fold(Act, s, acts);
            Matches(r, acc.events, Passed(s, acts), t.ended) && (Taken(s, acts) < |acts| ==> t.ended)
    ensures Awake(acc, Payloads(acts)[..Taken(s, acts)])
    decreases |acts|
  {
    if acts == [] {
      assert Payloads(acts)[..Taken(s, acts)] == [];
      MatchesNothing(acc, acc.events, false);
    } else {
      var a, rest, next := acts[0], acts[1..], Act(s, acts[0]);
      TakenFirst(s, acts);
      assert Passed(s, acts) == PassedBy(s, a) + Passed(next, rest) && Fold(Act, s, acts) == Fold(Act, next, rest);
      var later := Payloads(rest)[..Taken(next, rest)];
      var mid := More(acc, a.raw);
      assert ([a.raw] + later)[1..] == later;
      assert Fold(More, acc, [a.raw] + later) == Fold(More, mid, later);
      assert !Ended(acc.events);
      assert later == [] ==> Awake(mid, later);
      hide Act, PassedBy, Passed, More, Taken, Payloads, Matches, Awake, Ended;
      if !mid.ok { RefusedStays(mid, later); }
      FeedStep(s, acc, a);
      if next.ended {
        NothingAfterTheEnd(next, rest);
        assert later == [];
        MatchesNothing(mid, mid.events, true);
      } else {
        FedEvents(next, mid, rest);
      }
      AwakeMore(acc, a.raw, later);
      hide Fold;
      MatchesMore(Fold(More, mid, later), acc.events, PassedBy(s, a), Passed(next, rest), Fold(Act, next, rest).ended);
    }
  }

  /** For every provider: of the payloads fed, a fresh session takes all, or those up to the one whose last
      event ends the stream, and passes on exactly what they decode to. */
  lemma {:induction false} FedStream(client: Protocol, provider: Protocol, acts: seq<Action>)
    requires AllFeeds(acts) && DecodeAll(provider, TakenPayloads(client, provider, acts)).ok
    ensures var s, raws := Fold(Act, Fresh(client, provider), acts), TakenPayloads(client, provider, acts);
            var events := DecodeAll(provider, raws).events;
            && Events(Passed(Fresh(client, provider), acts)) == events
            && LastOnly(events) && (s.ended <==> Ended(events)) && (|raws| < |acts| ==> s.ended)
            && (raws != [] ==> !Ended(DecodeAll(provider, raws[..|raws| - 1]).events))
  {
    hide Act, Passed, Taken, More;
    var raws := TakenPayloads(client, provider, acts);
    FedEvents(Fresh(client, provider), Decoded(NewDecoder(provider), [], true), acts);
    var ins := Passed(Fresh(client, provider), acts);
    assert [] + Events(ins) == Events(ins);
  }

  // ---- A Chat upstream ---------------------------------------------------------------------------------

  function ChatPayloads(raws: seq<Raw>): seq<ChatIn.Payload> {
    seq(|raws|, k requires 0 <= k < |raws| => raws[k].chat)
  }

  /** What was decoded before only stands in front. */
  lemma {:induction false} RunShifts(acc: ChatIn.Result, ops: seq<ChatIn.Op>)
    requires acc.ok
    ensures var r := ChatIn.RunOps(ChatIn.Result(acc.state, [], true), ops);
            ChatIn.RunOps(acc, ops) == ChatIn.Result(r.state, acc.events + r.events, r.ok)
    decreases |ops|
  {
    hide ChatIn.Step;
    var zero := ChatIn.Result(acc.state, [], true);
    if ops == [] {
      assert acc.events + [] == acc.events;
    } else {
      var n := |ops| - 1;
      RunShifts(acc, ops[..n]);
      assert ops[..n] + [ops[n]] == ops;
      FoldSnoc(ChatIn.Advance, acc, ops[..n], ops[n]);
      FoldSnoc(ChatIn.Advance, zero, ops[..n], ops[n]);
      var r := ChatIn.RunOps(zero, ops[..n]);
      var more := ChatIn.Step(r.state, ops[n]).events;
      assert acc.events + (r.events + more) == (acc.events + r.events) + more;
    }
  }

  lemma {:induction false} ChatDecodes(acc: ChatIn.Result, raws: seq<Raw>)
    requires acc.ok && ChatIn.RunOps(acc, ChatIn.AllOps(ChatPayloads(raws))).ok
    ensures var r := ChatIn.RunOps(acc, ChatIn.AllOps(ChatPayloads(raws)));
            Fold(More, Decoded(FromChat(acc.state), acc.events, true), raws)
            == Decoded(FromChat(r.state), r.events, true)
    decreases |raws|
  {
    hide ChatIn.Advance, ChatIn.Ops;
    if raws == [] {
      assert ChatPayloads(raws) == [];
    } else {
      var ps, rest := ChatPayloads(raws), ChatPayloads(raws[1..]);
      assert ps[0] == raws[0].chat && ps[1..] == rest;
      var mid := ChatIn.RunOps(acc, ChatIn.Ops(ps[0]));
      FoldConcat(ChatIn.Advance, acc, ChatIn.Ops(ps[0]), ChatIn.AllOps(rest));
      if !mid.ok { ChatIn.RefusedStays(mid, ChatIn.AllOps(rest)); }
      RunShifts(acc, ChatIn.Ops(ps[0]));
      assert More(Decoded(FromChat(acc.state), acc.events, true), raws[0])
          == Decoded(FromChat(mid.state), mid.events, true);
      hide More, ChatIn.AllOps;
      ChatDecodes(mid, raws[1..]);
    }
  }

  /** For every sequence of payloads fed to a fresh stream with a Chat provider, of which those taken
      decode without error and have no negative tool index, and for each of the three clients:
      - the payloads taken are all of them, or those up to the one whose last event ended the stream;
      - the client reads a grammatical or orderly stream;
      - it hears the text of the payloads taken, and their calls exactly when it is a Chat client or
        no arguments arrived for an interrupted call. */
  lemma {:induction false} FedStreamIsHeard(client: Protocol, acts: seq<Action>)
    requires AllFeeds(acts)
    requires var ps := ChatPayloads(TakenPayloads(client, OpenAIChat, acts));
             ChatIn.Run(ps).ok && ChatContract.NonNegativeCalls(ChatIn.AllOps(ps))
    ensures var s := Fold(Act, Fresh(client, OpenAIChat), acts);
            var ps := ChatPayloads(TakenPayloads(client, OpenAIChat, acts));
            var src, heard := EndToEnd.Upstream(ps), HeardBy(client, s.sent);
            && LastOnly(ChatIn.Run(ps).events) && (s.ended <==> Ended(ChatIn.Run(ps).events))
            && (|ps| < |acts| ==> s.ended)
            && (client == Anthropic ==> AnthropicGrammar.Grammatical(OnlyAnthropic(s.sent)))
            && (client == OpenAIResponses ==> ResponsesReplay.Orderly(OnlyResponses(s.sent)))
            && heard.text == src.text
            && (Agree(src.Calls(), heard.calls) <==> client == OpenAIChat || src.splits == 0)
  {
    hide Act, Passed, TakenPayloads, ChatIn.AllOps, ChatIn.Advance, HeardBy, EndToEnd.Hear, More;
    var raws, ins := TakenPayloads(client, OpenAIChat, acts), Passed(Fresh(client, OpenAIChat), acts);
    var ps := ChatPayloads(raws);
    ChatDecodes(ChatIn.Result(ChatIn.INIT, [], true), raws);
    FedStream(client, OpenAIChat, acts);
    SentToClient(client, OpenAIChat, acts);
    EndToEnd.DecodedTools(ps, ins);
    AnthropicGrammar.GrammarForNonNegativeTools(ins);
    ResponsesReplay.StreamAgreesWithSummary(ins);
    EndToEnd.MeaningPreserved(ps, ins);
  }

  // ---- Anthropic and Responses upstreams -----------------------------------------------------------------

  /** The encoder whose splits matter to a client; a Chat client never sees one. */
  function TargetOf(client: Protocol): Target {
    if client == Anthropic then StreamMeaning.ToAnthropic else StreamMeaning.ToResponses
  }

  /** What a client hears of any contract-respecting stream. */
  lemma {:induction false} ClientHears(client: Protocol, provider: Protocol, acts: seq<Action>)
    requires var ins := Passed(Fresh(client, provider), acts);
             Respects(Events(ins)) && (client == Anthropic ==> AnthropicGrammar.NonNegativeTools(ins))
    ensures var ins := Passed(Fresh(client, provider), acts);
            var heard := HeardBy(client, Fold(Act, Fresh(client, provider), acts).sent);
            var t := Overview(TargetOf(client), ins);
            && heard.text == t.meaning.text
            && (Agree(t.meaning.calls, heard.calls) <==> client == OpenAIChat || t.splits == 0)
  {
    var ins := Passed(Fresh(client, provider), acts);
    hide Passed, Act, HeardBy, Follow;
    SentToClient(client, provider, acts);
    match client
    case Anthropic => AnthropicMeaning.AnthropicHears(ins);
    case OpenAIResponses => ResponsesMeaning.ResponsesHears(ins);
    case OpenAIChat => ChatMeaning.ChatHears(ins, TargetOf(client));
  }

  /** Under the contract the indices of tool events are those of the starts. */
  lemma StartsSuffice(ins: seq<Input>)
    requires Respects(Events(ins)) && forall e :: e in Events(ins) && e.ToolUseStart? ==> e.index >= 0
    ensures AnthropicGrammar.NonNegativeTools(ins)
  {
    forall k | 0 <= k < |ins| && ins[k].event.ToolUseStart? ensures ins[k].event.index >= 0 {
      assert Events(ins)[k] in Events(ins);
    }
    EndToEnd.DecodedIndices(ins, FRESH);
  }

  function AnthropicPayloads(raws: seq<Raw>): seq<AnthropicIn.Payload> {
    seq(|raws|, k requires 0 <= k < |raws| => raws[k].anthropic)
  }

  lemma {:induction false} AnthropicDecodes(acc: AnthropicIn.Result, raws: seq<Raw>)
    ensures var r := Fold(AnthropicUpstream.Advance, acc, AnthropicPayloads(raws));
            Fold(More, Decoded(FromAnthropic(acc.state), acc.events, acc.ok), raws)
            == Decoded(FromAnthropic(r.state), r.events, r.ok)
    decreases |raws|
  {
    hide AnthropicIn.Step;
    if raws != [] {
      assert AnthropicPayloads(raws)[1..] == AnthropicPayloads(raws[1..]);
      AnthropicDecodes(AnthropicUpstream.Advance(acc, raws[0].anthropic), raws[1..]);
    }
  }

  /** For every sequence of payloads fed to a fresh stream with an Anthropic provider, of which those taken
      decode without error: what is passed on keeps the contract exactly when nothing came out of turn;
      and then every client hears the text of the payloads taken, and their calls exactly when it is a
      Chat client or no input arrived for an interrupted call. */
  lemma {:induction false} FedAnthropicIsHeard(client: Protocol, acts: seq<Action>)
    requires AllFeeds(acts)
    requires AnthropicUpstream.Run(AnthropicPayloads(TakenPayloads(client, Anthropic, acts))).ok
    ensures var ins := Passed(Fresh(client, Anthropic), acts);
            var heard := HeardBy(client, Fold(Act, Fresh(client, Anthropic), acts).sent);
            var ps := AnthropicPayloads(TakenPayloads(client, Anthropic, acts));
            var src := AnthropicUpstream.Heard(TargetOf(client), ps);
            && (Respects(Events(ins)) <==> src.fit)
            && (src.fit && (client == Anthropic ==> AnthropicUpstream.NonNegativeTools(ps)) ==>
                  && heard.text == src.text
                  && (Agree(src.Calls(), heard.calls) <==> client == OpenAIChat || src.splits == 0))
  {
    hide Act, Passed, TakenPayloads, HeardBy, More, AnthropicUpstream.Hear, AnthropicUpstream.Advance, Follow;
    var raws, ins := TakenPayloads(client, Anthropic, acts), Passed(Fresh(client, Anthropic), acts);
    AnthropicDecodes(AnthropicIn.Result(AnthropicIn.INIT, [], true), raws);
    FedStream(client, Anthropic, acts);
    AnthropicUpstream.UpstreamExact(TargetOf(client), AnthropicPayloads(raws), ins);
    if Respects(Events(ins)) && (client == Anthropic ==> AnthropicUpstream.NonNegativeTools(AnthropicPayloads(raws))) {
      if client == Anthropic {
        AnthropicUpstream.StartsNonNegative(AnthropicIn.Result(AnthropicIn.INIT, [], true), AnthropicPayloads(raws));
        StartsSuffice(ins);
      }
      ClientHears(client, Anthropic, acts);
    }
  }

  function ResponsesPayloads(raws: seq<Raw>): seq<ResponsesIn.Payload> {
    seq(|raws|, k requires 0 <= k < |raws| => raws[k].responses)
  }

  lemma {:induction false} ResponsesDecodes(acc: ResponsesIn.Result, raws: seq<Raw>)
    ensures var r := Fold(ResponsesUpstream.Advance, acc, ResponsesPayloads(raws));
            Fold(More, Decoded(FromResponses(acc.state), acc.events, acc.ok), raws)
            == Decoded(FromResponses(r.state), r.events, r.ok)
    decreases |raws|
  {
    hide ResponsesIn.Step;
    if raws != [] {
      assert ResponsesPayloads(raws)[1..] == ResponsesPayloads(raws[1..]);
      ResponsesDecodes(ResponsesUpstream.Advance(acc, raws[0].responses), raws[1..]);
    }
  }

  /** The same for a Responses provider. */
  lemma {:induction false} FedResponsesIsHeard(client: Protocol, acts: seq<Action>)
    requires AllFeeds(acts)
    requires ResponsesUpstream.Run(ResponsesPayloads(TakenPayloads(client, OpenAIResponses, acts))).ok
    ensures var ins := Passed(Fresh(client, OpenAIResponses), acts);
            var heard := HeardBy(client, Fold(Act, Fresh(client, OpenAIResponses), acts).sent);
            var ps := ResponsesPayloads(TakenPayloads(client, OpenAIResponses, acts));
            var src := ResponsesUpstream.Heard(TargetOf(client), ps);
            && (Respects(Events(ins)) <==> src.fit)
            && (src.fit && (client == Anthropic ==> ResponsesUpstream.NonNegativeTools(ps)) ==>
                  && heard.text == src.text
                  && (Agree(src.Calls(), heard.calls) <==> client == OpenAIChat || src.splits == 0))
  {
    hide Act, Passed, TakenPayloads, HeardBy, More, ResponsesUpstream.Hear, ResponsesUpstream.Advance, Follow;
    var raws, ins := TakenPayloads(client, OpenAIResponses, acts), Passed(Fresh(client, OpenAIResponses), acts);
    ResponsesDecodes(ResponsesIn.Result(ResponsesIn.INIT, [], true), raws);
    FedStream(client, OpenAIResponses, acts);
    ResponsesUpstream.UpstreamExact(TargetOf(client), ResponsesPayloads(raws), ins);
    if Respects(Events(ins)) && (client == Anthropic ==> ResponsesUpstream.NonNegativeTools(ResponsesPayloads(raws))) {
      if client == Anthropic {
        ResponsesUpstream.StartsNonNegative(ResponsesIn.Result(ResponsesIn.INIT, [], true), ResponsesPayloads(raws));
        StartsSuffice(ins);
      }
      ClientHears(client, OpenAIResponses, acts);
    }
  }
}
