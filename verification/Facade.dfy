/** The per-response stream translator: upstream events in, client frames out
    (internal/protocol/translate/translate.go). */
module Facade {
  import opened Folds
  import opened TokenUsage
  import opened Ir
  import ChatIn = ChatDecoder
  import ResponsesIn = ResponsesDecoder
  import AnthropicIn = AnthropicDecoder
  import ChatOut = ChatEncoder
  import ResponsesOut = ResponsesEncoder
  import AnthropicOut = AnthropicEncoder

  /** The bytes of one upstream event, as each protocol's JSON decoding sees them. */
  datatype Raw = Raw(chat: ChatIn.Payload, responses: ResponsesIn.Payload, anthropic: AnthropicIn.Payload)

  datatype Decoder =
    | FromChat(c: ChatIn.State)
    | FromResponses(r: ResponsesIn.State)
    | FromAnthropic(a: AnthropicIn.State)

  datatype Encoder = ToChat(c: ChatOut.State) | ToResponses(r: ResponsesOut.State) | ToAnthropic(a: AnthropicOut.State)

  datatype Frame =
    | ChatFrame(c: ChatOut.Frame)
    | ResponsesFrame(r: ResponsesOut.Body)
    | AnthropicFrame(a: AnthropicOut.Frame)

  function NewDecoder(p: Protocol): Decoder {
    match p
    case OpenAIChat => FromChat(ChatIn.INIT)
    case OpenAIResponses => FromResponses(ResponsesIn.INIT)
    case Anthropic => FromAnthropic(AnthropicIn.INIT)
  }

  function NewEncoder(p: Protocol): Encoder {
    match p
    case OpenAIChat => ToChat(ChatOut.INIT)
    case OpenAIResponses => ToResponses(ResponsesOut.INIT)
    case Anthropic => ToAnthropic(AnthropicOut.INIT)
  }

  datatype Decoded = Decoded(state: Decoder, events: seq<Event>, ok: bool)

  function Decode(d: Decoder, raw: Raw): Decoded {
    match d
    case FromChat(s) =>
      var r := ChatIn.RunOps(ChatIn.Result(s, [], true), ChatIn.Ops(raw.chat));
      Decoded(FromChat(r.state), if r.ok then r.events else [], r.ok)
    case FromResponses(s) =>
      var r := ResponsesIn.Step(s, raw.responses);
      Decoded(FromResponses(r.state), r.events, r.ok)
    case FromAnthropic(s) =>
      var r := AnthropicIn.Step(s, raw.anthropic);
      Decoded(FromAnthropic(r.state), r.events, r.ok)
  }

  datatype Encoded = Encoded(state: Encoder, frames: seq<Frame>)

  function Encode(e: Encoder, i: Input): Encoded {
    match e
    case ToChat(s) =>
      var r := ChatOut.Step(s, i);
      Encoded(ToChat(r.state), seq(|r.frames|, k requires 0 <= k < |r.frames| => ChatFrame(r.frames[k])))
    case ToResponses(s) =>
      var r := ResponsesOut.Step(s, i);
      Encoded(ToResponses(r.state), seq(|r.bodies|, k requires 0 <= k < |r.bodies| => ResponsesFrame(r.bodies[k])))
    case ToAnthropic(s) =>
      var r := AnthropicOut.Step(s, i);
      Encoded(ToAnthropic(r.state), seq(|r.frames|, k requires 0 <= k < |r.frames| => AnthropicFrame(r.frames[k])))
  }

  /** The frame that closes the client's message: message_stop / error, response.completed /
      incomplete / failed, [DONE] / error. */
  predicate Closing(f: Frame) {
    match f
    case ChatFrame(c) => c.DoneMarker? || c.ErrorChunk?
    case ResponsesFrame(r) => r.Final?
    case AnthropicFrame(a) => a.StopFrame? || a.ErrorFrame?
  }

  predicate NothingOpen(e: Encoder) {
    match e
    case ToChat(_) => true
    case ToResponses(s) => s.open.Idle?
    case ToAnthropic(s) => s.open.Nothing?
  }

  /** Randomness for missing ids, drawn once per encoded event. */
  datatype Token = Token(item: string, call: string)

  function WithToken(e: Event, t: Token): Input {
    Input(e, t.item, t.call)
  }

  /** A batch of events, encoded in order. */
  function EncodeAll(e: Encoder, events: seq<Event>, tokens: nat -> Token): Encoded {
    if events == [] then Encoded(e, [])
    else
      var n := |events| - 1;
      var r := EncodeAll(e, events[..n], tokens);
      var b := Encode(r.state, WithToken(events[n], tokens(n)));
      Encoded(b.state, r.frames + b.frames)
  }

  predicate AnyTerminal(events: seq<Event>) {
    events != [] && (events[|events| - 1].Terminal() || AnyTerminal(events[..|events| - 1]))
  }

  /** A caller feeds upstream events, or gives up with a message for the client. */
  datatype Action = FeedIt(raw: Raw, tokens: nat -> Token) | FailIt(message: string, token: Token)

  /** The stream's fields, and everything it has returned to the caller so far. */
  datatype Session = Session(dec: Decoder, enc: Encoder, ended: bool, sent: seq<Frame>)

  /** A new stream: `client` is the client's protocol, `provider` the provider's. */
  function Fresh(client: Protocol, provider: Protocol): Session {
    Session(NewDecoder(provider), NewEncoder(client), false, [])
  }

  function Act(s: Session, a: Action): Session {
    if s.ended then s
    else match a
      case FeedIt(raw, tokens) =>
        var d := Decode(s.dec, raw);
        if !d.ok then s.(dec := d.state)
        else
          var r := EncodeAll(s.enc, d.events, tokens);
          Session(d.state, r.state, AnyTerminal(d.events), s.sent + r.frames)
      case FailIt(message, token) =>
        var r := Encode(s.enc, WithToken(Error(message), token));
        Session(s.dec, r.state, true, s.sent + r.frames)
  }

  class Stream {
    var dec: Decoder
    var enc: Encoder
    var ended: bool
    var usage: Usage
    ghost var sent: seq<Frame>

    ghost function Abs(): Session
      reads this
    {
      Session(dec, enc, ended, sent)
    }

    /** `from` is the client's protocol, `to` the provider's. */
    constructor (from: Protocol, to: Protocol)
      ensures Abs() == Fresh(from, to)
    {
      dec, enc, ended, usage, sent := NewDecoder(to), NewEncoder(from), false, NO_USAGE, [];
    }

    method Render(e: Event, t: Token) returns (out: seq<Frame>)
      modifies this
      ensures dec == old(dec) && sent == old(sent) + out && ended == (old(ended) || e.Terminal())
      ensures Encoded(enc, out) == Encode(old(enc), WithToken(e, t))
      ensures usage == if e.MessageStop? then e.usage else old(usage)
    {
      var b := Encode(enc, WithToken(e, t));
      enc, out := b.state, b.frames;
      sent := sent + out;
      if e.MessageStop? {
        ended, usage := true, e.usage;
      } else if e.Error? {
        ended := true;
      }
    }

    method Feed(raw: Raw, tokens: nat -> Token) returns (out: seq<Frame>, ok: bool)
      modifies this
      ensures Abs() == Act(old(Abs()), FeedIt(raw, tokens)) && sent == old(sent) + out
      ensures ok == (old(ended) || Decode(old(dec), raw).ok)
    {
      out, ok := [], true;
      if ended {
        return;
      }
      var d := Decode(dec, raw);
      dec := d.state;
      if !d.ok {
        ok := false;
        return;
      }
      out := RenderAll(d.events, tokens);
    }

    method RenderAll(events: seq<Event>, tokens: nat -> Token) returns (out: seq<Frame>)
      requires !ended
      modifies this
      ensures dec == old(dec) && sent == old(sent) + out && ended == AnyTerminal(events)
      ensures Encoded(enc, out) == EncodeAll(old(enc), events, tokens)
    {
      hide Encode;
      out := [];
      for k := 0 to |events|
        invariant dec == old(dec) && sent == old(sent) + out && ended == AnyTerminal(events[..k])
        invariant Encoded(enc, out) == EncodeAll(old(enc), events[..k], tokens)
      {
        assert events[..k + 1][..k] == events[..k];
        var b := Render(events[k], tokens(k));
        out := out + b;
      }
      assert events[..|events|] == events;
    }

    method Fail(message: string, token: Token) returns (out: seq<Frame>)
      modifies this
      ensures Abs() == Act(old(Abs()), FailIt(message, token)) && sent == old(sent) + out
    {
      out := [];
      if !ended {
        out := Render(Error(message), token);
      }
    }
  }

  // ---- Safety over every sequence of calls -------------------------------------------------

  /** Once ended, the last frame sent is the only closing one and the encoder has nothing open;
      before that no closing frame was sent. */
  ghost predicate Safe(s: Session) {
    && (forall k :: 0 <= k < |s.sent| && Closing(s.sent[k]) ==> k == |s.sent| - 1 && s.ended)
    && (s.ended ==> s.sent != [] && Closing(s.sent[|s.sent| - 1]) && NothingOpen(s.enc))
  }

  lemma {:induction false} CalmHasNoTerminal(events: seq<Event>)
    requires Calm(events)
    ensures !AnyTerminal(events)
  {
    if events != [] {
      CalmHasNoTerminal(events[..|events| - 1]);
    }
  }

  lemma {:induction false} BatchSafe(s: Session, events: seq<Event>, tokens: nat -> Token)
    requires Safe(s) && !s.ended && LastOnly(events)
    ensures var r := EncodeAll(s.enc, events, tokens);
            Safe(Session(s.dec, r.state, AnyTerminal(events), s.sent + r.frames))
    decreases |events|
  {
    hide Encode;
    if events == [] {
      assert s.sent + [] == s.sent;
    } else {
      var n := |events| - 1;
      var r := EncodeAll(s.enc, events[..n], tokens);
      BatchSafe(s, events[..n], tokens);
      CalmHasNoTerminal(events[..n]);
      SafeAppend(Session(s.dec, r.state, false, s.sent + r.frames), WithToken(events[n], tokens(n)));
      var b := Encode(r.state, WithToken(events[n], tokens(n)));
      assert s.sent + (r.frames + b.frames) == s.sent + r.frames + b.frames;
    }
  }

  lemma {:induction false} ActSafe(s: Session, a: Action)
    requires Safe(s)
    ensures Safe(Act(s, a))
  {
    if !s.ended {
      match a
      case FeedIt(raw, tokens) =>
        TerminalIsLast(s.dec, raw);
        BatchSafe(s, Decode(s.dec, raw).events, tokens);
      case FailIt(message, token) => SafeAppend(s, WithToken(Error(message), token));
    }
  }

  lemma {:induction false} RunSafe(s: Session, actions: seq<Action>)
    requires Safe(s)
    ensures Safe(Fold(Act, s, actions)) && s.sent <= Fold(Act, s, actions).sent
    ensures s.ended ==> Fold(Act, s, actions) == s
    decreases |actions|
  {
    if actions != [] {
      ActSafe(s, actions[0]);
      RunSafe(Act(s, actions[0]), actions[1..]);
    }
  }

  /** For each of the nine protocol pairs and every sequence of Feed and Fail calls: at most one
      closing frame reaches the client, nothing follows it, and nothing is left open then. Once
      the stream has ended no further call sends anything. */
  lemma {:induction false} EveryCallSequenceIsSafe(from: Protocol, to: Protocol, actions: seq<Action>,
                                                   more: seq<Action>)
    ensures var s := Fold(Act, Fresh(from, to), actions);
            && Safe(s)
            && (forall j, k :: 0 <= j < |s.sent| && 0 <= k < |s.sent| && Closing(s.sent[j]) && Closing(s.sent[k]) ==>
                j == k)
            && (s.ended ==> Fold(Act, Fresh(from, to), actions + more) == s)
  {
    var s0 := Fresh(from, to);
    RunSafe(s0, actions);
    RunSafe(Fold(Act, s0, actions), more);
    FoldConcat(Act, s0, actions, more);
  }

  // ---- Every encoder closes on a terminal event, and only then ----------------------------

  /** Frames of one event: a closing frame is last and belongs to a terminal event. */
  ghost predicate Closes(frames: seq<Frame>, terminal: bool) {
    && (forall k :: 0 <= k < |frames| && Closing(frames[k]) ==> k == |frames| - 1 && terminal)
    && (terminal ==> frames != [] && Closing(frames[|frames| - 1]))
  }

  lemma ChatCloses(s: ChatOut.State, i: Input)
    ensures Closes(Encode(ToChat(s), i).frames, i.event.Terminal())
  {
  }

  lemma AnthropicQuiet(s: AnthropicOut.State, i: Input)
    requires !i.event.Terminal()
    ensures forall f :: f in AnthropicOut.Step(s, i).frames ==> !f.StopFrame? && !f.ErrorFrame?
  {
    assert forall f :: f in AnthropicOut.Close(s).frames ==> f.BlockStop?;
  }

  lemma AnthropicCloses(s: AnthropicOut.State, i: Input)
    ensures Closes(Encode(ToAnthropic(s), i).frames, i.event.Terminal())
    ensures i.event.Terminal() ==> NothingOpen(Encode(ToAnthropic(s), i).state)
  {
    if i.event.Terminal() {
      assert forall f :: f in AnthropicOut.Close(s).frames ==> f.BlockStop?;
    } else {
      AnthropicQuiet(s, i);
    }
  }

  lemma ResponsesQuiet(s: ResponsesOut.State, i: Input)
    requires !i.event.Terminal()
    ensures forall b :: b in ResponsesOut.Step(s, i).bodies ==> !b.Final?
  {
    assert forall b :: b in ResponsesOut.Close(s).bodies ==> !b.Final?;
  }

  lemma ResponsesCloses(s: ResponsesOut.State, i: Input)
    ensures Closes(Encode(ToResponses(s), i).frames, i.event.Terminal())
    ensures i.event.Terminal() ==> NothingOpen(Encode(ToResponses(s), i).state)
  {
    if i.event.Terminal() {
      assert forall b :: b in ResponsesOut.Close(s).bodies ==> !b.Final?;
    } else {
      ResponsesQuiet(s, i);
    }
  }

  lemma {:induction false} SafeAppend(s: Session, i: Input)
    requires Safe(s) && !s.ended
    ensures var b := Encode(s.enc, i); Safe(Session(s.dec, b.state, i.event.Terminal(), s.sent + b.frames))
  {
    match s.enc
    case ToChat(c) => ChatCloses(c, i);
    case ToResponses(r) => ResponsesCloses(r, i);
    case ToAnthropic(a) => AnthropicCloses(a, i);
  }

  // ---- Every decoder puts its terminal event last ------------------------------------------

  predicate LastOnly(events: seq<Event>) {
    forall k :: 0 <= k < |events| - 1 ==> !events[k].Terminal()
  }

  lemma {:induction false} TerminalIsLast(d: Decoder, raw: Raw)
    ensures LastOnly(Decode(d, raw).events)
  {
    if d.FromChat? {
      ChatTerminalIsLast(d.c, raw.chat);
    }
  }

  predicate Calm(events: seq<Event>) {
    forall k :: 0 <= k < |events| ==> !events[k].Terminal()
  }

  predicate Peaceful(ops: seq<ChatIn.Op>) {
    forall k :: 0 <= k < |ops| ==> !ops[k].Stop? && !ops[k].StopIfFinished? && !ops[k].Fail?
  }

  lemma CalmStep(s: ChatIn.State, op: ChatIn.Op)
    requires !op.Stop? && !op.StopIfFinished? && !op.Fail?
    ensures Calm(ChatIn.Step(s, op).events)
  {
  }

  lemma {:induction false} CalmRun(acc: ChatIn.Result, ops: seq<ChatIn.Op>)
    requires Calm(acc.events)
    requires Peaceful(ops)
    ensures Calm(ChatIn.RunOps(acc, ops).events)
    decreases |ops|
  {
    if ops != [] {
      CalmStep(acc.state, ops[0]);
      CalmRun(ChatIn.Advance(acc, ops[0]), ops[1..]);
    }
  }

  lemma {:induction false} ChoicesAreCalm(cs: seq<ChatIn.Choice>)
    ensures Peaceful(ChatIn.ChoicesOps(cs))
  {
    if cs != [] {
      var c := cs[|cs| - 1];
      ChoicesAreCalm(cs[..|cs| - 1]);
      assert Peaceful(ChatIn.DeltaOps(c)) && Peaceful(ChatIn.CallOps(c.toolCalls));
      assert Peaceful(ChatIn.ChoiceOps(c));
    }
  }

  lemma TerminateLast(s: ChatIn.State)
    ensures LastOnly(ChatIn.Terminate(s).events)
  {
  }

  lemma ChatTerminalIsLast(s: ChatIn.State, p: ChatIn.Payload)
    ensures LastOnly(ChatIn.RunOps(ChatIn.Result(s, [], true), ChatIn.Ops(p)).events)
  {
    var start := ChatIn.Result(s, [], true);
    if p.Chunk? {
      var body := ChatIn.HeadOps(p.id, p.model, p.usage) + ChatIn.ChoicesOps(p.choices);
      ChoicesAreCalm(p.choices);
      assert Peaceful(ChatIn.HeadOps(p.id, p.model, p.usage));
      assert Peaceful(body);
      CalmRun(start, body);
      if p.usage.Absent? {
        assert ChatIn.Ops(p) == body;
      } else {
        var acc := ChatIn.RunOps(start, body);
        FoldSnoc(ChatIn.Advance, start, body, ChatIn.StopIfFinished);
        TerminateLast(acc.state);
      }
    } else if ChatIn.Ops(p) != [] {
      FoldOne(ChatIn.Advance, start, ChatIn.Ops(p)[0]);
      TerminateLast(s);
    }
  }
}
