/** The usage a client sees in a translated stream against the usage that is billed: metering parses
    the raw upstream events on its own (the stream parsers of internal/protocol). */
module UsageAgreement {
  import opened Folds
  import opened TokenUsage
  import opened Ir
  import Chat = ChatDecoder
  import Responses = ResponsesDecoder
  import Claude = AnthropicDecoder

  // ---- The metering parsers ----------------------------------------------------------------

  function MeterChat(u: Usage, p: Chat.Payload): Usage {
    if p.Chunk? && p.usage.Present? then NormalizeChat(p.usage.value)
    else if p.ErrorPayload? && p.extra.Present? then NormalizeChat(p.extra.value)
    else u
  }

  function MeterResponses(u: Usage, p: Responses.Payload): Usage {
    if p.EndPayload? && p.final.Some? && p.final.value.usage.Present?
    then NormalizeResponses(p.final.value.usage.value)
    else u
  }

  function Keep(before: int, c: Counter): int {
    if c.Count? then c.n else before
  }

  function MeterAnthropic(u: Usage, p: Claude.Payload): Usage {
    if p.StartPayload? && p.message.Some? && p.message.value.usage.Present? then
      var w := p.message.value.usage.value;
      Usage(w.input.Value(), w.output.Value(), w.cacheRead.Value(), w.cacheWrite.Value(), u.reasoning, true)
    else if p.DeltaPayload? && p.usage.Present? then
      var w := p.usage.value;
      Usage(Keep(u.input, w.input), Keep(u.output, w.output), Keep(u.cacheRead, w.cacheRead),
          Keep(u.cacheWrite, w.cacheWrite), u.reasoning, true)
    else u
  }

  /** The parsers as objects: Feed overwrites or merges, Usage clamps on the way out. */
  class ChatMeter {
    var u: Usage

    constructor ()
      ensures u == NO_USAGE
    {
      u := NO_USAGE;
    }

    method Feed(p: Chat.Payload)
      modifies this
      ensures u == MeterChat(old(u), p)
    {
      match p {
        case Chunk(_, _, _, usage) => if usage.Present? { u := NormalizeChat(usage.value); }
        case ErrorPayload(_, _, extra) => if extra.Present? { u := NormalizeChat(extra.value); }
        case _ =>
      }
    }

    method Usage() returns (r: Usage)
      ensures r == u.Clamp()
    {
      r := u.Clamp();
    }
  }

  class ResponsesMeter {
    var u: Usage

    constructor ()
      ensures u == NO_USAGE
    {
      u := NO_USAGE;
    }

    method Feed(p: Responses.Payload)
      modifies this
      ensures u == MeterResponses(old(u), p)
    {
      if p.EndPayload? && p.final.Some? && p.final.value.usage.Present? {
        u := NormalizeResponses(p.final.value.usage.value);
      }
    }
  }

  class AnthropicMeter {
    var u: Usage

    constructor ()
      ensures u == NO_USAGE
    {
      u := NO_USAGE;
    }

    method Feed(p: Claude.Payload)
      modifies this
      ensures u == MeterAnthropic(old(u), p)
    {
      match p {
        case StartPayload(message) =>
          if message.Some? && message.value.usage.Present? {
            var w := message.value.usage.value;
            u := u.(input := w.input.Value(), cacheRead := w.cacheRead.Value(),
                    cacheWrite := w.cacheWrite.Value(), output := w.output.Value(), found := true);
          }
        case DeltaPayload(_, usage) =>
          if usage.Present? {
            var w := usage.value;
            if w.output.Count? { u := u.(output := w.output.n); }
            if w.input.Count? { u := u.(input := w.input.n); }
            if w.cacheRead.Count? { u := u.(cacheRead := w.cacheRead.n); }
            if w.cacheWrite.Count? { u := u.(cacheWrite := w.cacheWrite.n); }
            u := u.(found := true);
          }
        case _ =>
      }
    }
  }

  // ---- Chat upstreams ----------------------------------------------------------------------

  /** The usage objects of a payload that can be read, an error's among them. */
  function UsageIn(p: Chat.Payload): seq<ChatUsage> {
    match p
    case Chunk(_, _, _, Present(w)) => [w]
    case ErrorPayload(_, _, Present(w)) => [w]
    case _ => []
  }

  /** What is billed for a Chat stream is the last usage object that can be read, whatever came after it. */
  lemma {:induction false} ChatBillsTheLast(ps: seq<Chat.Payload>)
    ensures var ws := FlatMap(UsageIn, ps);
            Fold(MeterChat, NO_USAGE, ps).Clamp() == if ws == [] then NO_USAGE else ParseChat(Present(ws[|ws| - 1]))
    decreases |ps|
  {
    if ps != [] {
      var n := |ps| - 1;
      ChatBillsTheLast(ps[..n]);
      FoldSnoc(MeterChat, NO_USAGE, ps[..n], ps[n]);
      FlatMapSnoc(UsageIn, ps[..n], ps[n]);
      assert ps[..n] + [ps[n]] == ps;
      hide Fold, FlatMap, NormalizeChat;
    }
  }

  /** The decoder forgets its counters on a usage object it cannot read; metering keeps the last
      one it could read. */
  datatype Seen = Seen(any: bool, lastUnreadable: bool)

  function Watch(w: Seen, p: Chat.Payload): Seen {
    if !p.Chunk? || p.usage.Absent? then w else Seen(w.any || p.usage.Present?, p.usage.Malformed?)
  }

  predicate NoErrors(ps: seq<Chat.Payload>) {
    forall k :: 0 <= k < |ps| ==> !ps[k].ErrorPayload?
  }

  /** Operations that neither set usage nor stop. */
  predicate Plain(op: Chat.Op) {
    !op.SetUsage? && !op.Stop? && !op.StopIfFinished?
  }

  lemma PlainStep(s: Chat.State, op: Chat.Op)
    requires Plain(op)
    ensures Chat.Step(s, op).state.usage == s.usage && Chat.Step(s, op).state.stopSent == s.stopSent
  {
    hide Chat.FinishReason, Chat.Terminate;
    if op.Call? {
      CallKeepsUsage(s, op.f);
    }
    hide Chat.OnCall;
  }

  lemma {:induction false} PlainRun(acc: Chat.Result, ops: seq<Chat.Op>)
    requires forall k :: 0 <= k < |ops| ==> Plain(ops[k])
    ensures Chat.RunOps(acc, ops).state.usage == acc.state.usage
            && Chat.RunOps(acc, ops).state.stopSent == acc.state.stopSent
    decreases |ops|
  {
    if ops != [] {
      PlainStep(acc.state, ops[0]);
      PlainRun(Chat.Advance(acc, ops[0]), ops[1..]);
    }
  }

  lemma {:induction false} ChoicesArePlain(cs: seq<Chat.Choice>)
    ensures forall k :: 0 <= k < |Chat.ChoicesOps(cs)| ==> Plain(Chat.ChoicesOps(cs)[k])
  {
    if cs != [] {
      var c := cs[|cs| - 1];
      ChoicesArePlain(cs[..|cs| - 1]);
      assert forall k :: 0 <= k < |Chat.DeltaOps(c)| ==> Plain(Chat.DeltaOps(c)[k]);
      assert forall k :: 0 <= k < |Chat.ChoiceOps(c)| ==> Plain(Chat.ChoiceOps(c)[k]);
    }
  }

  lemma HeadUsage(acc: Chat.Result, id: string, model: string, usage: Field<ChatUsage>)
    requires acc.ok
    ensures var r := Chat.RunOps(acc, Chat.HeadOps(id, model, usage));
            r.ok && r.state.stopSent == acc.state.stopSent
                && r.state.usage == if usage.Absent? then acc.state.usage else ParseChat(usage)
  {
    var begin := Chat.Begin(id, model);
    FoldOne(Chat.Advance, acc, begin);
    if !usage.Absent? {
      FoldSnoc(Chat.Advance, acc, [begin], Chat.SetUsage(ParseChat(usage)));
    } else {
      assert Chat.HeadOps(id, model, usage) == [begin];
    }
  }

  /** What one payload does to the decoder's usage, and what the stop it emits carries. */
  lemma PayloadUsage(acc: Chat.Result, p: Chat.Payload)
    requires acc.ok && Chat.RunOps(acc, Chat.Ops(p)).ok
    ensures var r := Chat.RunOps(acc, Chat.Ops(p));
            && r.state.usage == (if p.Chunk? && !p.usage.Absent? then ParseChat(p.usage) else acc.state.usage)
            && (!acc.state.stopSent && r.state.stopSent ==>
                  |r.events| > 0 && r.events[|r.events| - 1].MessageStop?
                      && r.events[|r.events| - 1].usage == r.state.usage)
  {
    var ops := Chat.Ops(p);
    if p.Chunk? {
      var head := Chat.HeadOps(p.id, p.model, p.usage);
      var body := head + Chat.ChoicesOps(p.choices);
      HeadUsage(acc, p.id, p.model, p.usage);
      ChoicesArePlain(p.choices);
      PlainRun(Chat.RunOps(acc, head), Chat.ChoicesOps(p.choices));
      FoldConcat(Chat.Advance, acc, head, Chat.ChoicesOps(p.choices));
      if p.usage.Absent? {
        assert ops == body;
      } else {
        FoldSnoc(Chat.Advance, acc, body, Chat.StopIfFinished);
        StopCarries(Chat.RunOps(acc, body), Chat.StopIfFinished);
      }
    } else if ops != [] {
      FoldOne(Chat.Advance, acc, ops[0]);
      StopCarries(acc, ops[0]);
    }
  }

  lemma StopCarries(acc: Chat.Result, op: Chat.Op)
    requires !op.SetUsage?
    ensures var r := Chat.Advance(acc, op);
            && r.state.usage == acc.state.usage
            && (!acc.state.stopSent && r.state.stopSent ==>
                  |r.events| > 0 && r.events[|r.events| - 1].MessageStop?
                      && r.events[|r.events| - 1].usage == r.state.usage)
  {
    hide Chat.FinishReason;
    if op.Call? {
      CallKeepsUsage(acc.state, op.f);
      hide Chat.OnCall;
    } else {
      hide Chat.OnCall;
    }
  }

  lemma CallKeepsUsage(s: Chat.State, f: Chat.Fragment)
    ensures var r := Chat.OnCall(s, f).state; r.usage == s.usage && r.stopSent == s.stopSent
  {
    hide Chat.InputOf;
  }

  lemma {:induction false} ChatUsageRun(acc: Chat.Result, u: Usage, w: Seen, ps: seq<Chat.Payload>)
    requires acc.ok && NoErrors(ps) && Chat.RunOps(acc, Chat.AllOps(ps)).ok
    requires acc.state.usage == (if w.lastUnreadable then NO_USAGE else u.Clamp()) && u.found == w.any
             && (!w.any ==> u == NO_USAGE)
    ensures var r, v, x := Chat.RunOps(acc, Chat.AllOps(ps)), Fold(MeterChat, u, ps), Fold(Watch, w, ps);
            r.state.usage == (if x.lastUnreadable then NO_USAGE else v.Clamp()) && v.found == x.any
                && (!x.any ==> v == NO_USAGE)
    decreases |ps|
  {
    if ps != [] {
      FoldConcat(Chat.Advance, acc, Chat.Ops(ps[0]), Chat.AllOps(ps[1..]));
      if !Chat.RunOps(acc, Chat.Ops(ps[0])).ok {
        Chat.RefusedStays(Chat.RunOps(acc, Chat.Ops(ps[0])), Chat.AllOps(ps[1..]));
      }
      PayloadUsage(acc, ps[0]);
      ChatUsageRun(Chat.RunOps(acc, Chat.Ops(ps[0])), MeterChat(u, ps[0]), Watch(w, ps[0]), ps[1..]);
    }
  }

  /** The payload that makes the decoder stop carries the billed usage, exactly unless an unreadable
      usage object came after a readable one. */
  lemma ChatUsageAgrees(ps: seq<Chat.Payload>, p: Chat.Payload)
    requires NoErrors(ps + [p]) && Chat.Run(ps).ok && Chat.RunOps(Chat.Run(ps), Chat.Ops(p)).ok
    requires !Chat.Run(ps).state.stopSent && Chat.RunOps(Chat.Run(ps), Chat.Ops(p)).state.stopSent
    ensures var events := Chat.RunOps(Chat.Run(ps), Chat.Ops(p)).events;
            var billed := Fold(MeterChat, NO_USAGE, ps + [p]).Clamp();
            var w := Fold(Watch, Seen(false, false), ps + [p]);
            && |events| > 0 && events[|events| - 1].MessageStop?
            && (events[|events| - 1].usage == billed <==> !(w.any && w.lastUnreadable))
  {
    PayloadUsage(Chat.Run(ps), p);
    assert NoErrors(ps) by {
      assert forall k :: 0 <= k < |ps| ==> ps[k] == (ps + [p])[k];
    }
    ChatUsageRun(Chat.Result(Chat.INIT, [], true), NO_USAGE, Seen(false, false), ps);
    FoldSnoc(MeterChat, NO_USAGE, ps, p);
    FoldSnoc(Watch, Seen(false, false), ps, p);
    assert (ps + [p])[|ps|] == p;
  }

  lemma Three(acc: Chat.Result, a: Chat.Op, b: Chat.Op, c: Chat.Op)
    ensures Chat.RunOps(acc, [a, b, c]) == Chat.Advance(Chat.Advance(Chat.Advance(acc, a), b), c)
  {
    hide Chat.Advance;
    assert [a, b, c] == [a, b] + [c];
    FoldTwo(Chat.Advance, acc, a, b);
    FoldSnoc(Chat.Advance, acc, [a, b], c);
  }

  /** The run of the example below. */
  lemma UnreadableRun(u: ChatUsage)
    ensures var first := Chat.Chunk("c", "m", [], Present(u));
            var last := Chat.Chunk("c", "m", [Chat.Choice(0, "", "", [], "stop")], Malformed);
            && Chat.Run([first]).ok && !Chat.Run([first]).state.stopSent
            && var r := Chat.RunOps(Chat.Run([first]), Chat.Ops(last)); r.ok && r.state.stopSent
  {
    var stop := Chat.Choice(0, "", "", [], "stop");
    var first, last := Chat.Chunk("c", "m", [], Present(u)), Chat.Chunk("c", "m", [stop], Malformed);
    var start := Chat.Result(Chat.INIT, [], true);
    var begin, finish := Chat.Begin("c", "m"), Chat.Finish("stop");
    assert Chat.ChoicesOps([]) == [];
    assert Chat.Ops(first) == [begin, Chat.SetUsage(ParseChat(Present(u))), Chat.StopIfFinished];
    assert [first][1..] == [] && Chat.AllOps([]) == [];
    assert Chat.AllOps([first]) == Chat.Ops(first);
    Three(start, begin, Chat.SetUsage(ParseChat(Present(u))), Chat.StopIfFinished);
    assert [stop][..0] == [] && Chat.ChoiceOps(stop) == [finish];
    assert Chat.ChoicesOps([stop]) == [finish];
    var front := [begin, Chat.SetUsage(NO_USAGE), finish];
    assert Chat.Ops(last) == front + [Chat.StopIfFinished];
    var r := Chat.Run([first]);
    hide Chat.Ops, Chat.ChoicesOps, Chat.AllOps, Chat.FinishReason, ParseChat;
    Three(r, begin, Chat.SetUsage(NO_USAGE), finish);
    FoldSnoc(Chat.Advance, r, front, Chat.StopIfFinished);
  }

  /** A usage object that cannot be read, after one that could: the client is told that nothing was
      used, and the first object is billed. */
  lemma UnreadableUsageDisagrees(u: ChatUsage)
    ensures var first := Chat.Chunk("c", "m", [], Present(u));
            var last := Chat.Chunk("c", "m", [Chat.Choice(0, "", "", [], "stop")], Malformed);
            var events := Chat.RunOps(Chat.Run([first]), Chat.Ops(last)).events;
            && |events| > 0 && events[|events| - 1].MessageStop?
            && events[|events| - 1].usage != Fold(MeterChat, NO_USAGE, [first] + [last]).Clamp()
  {
    var first := Chat.Chunk("c", "m", [], Present(u));
    var last := Chat.Chunk("c", "m", [Chat.Choice(0, "", "", [], "stop")], Malformed);
    UnreadableRun(u);
    assert [first] + [last] == [first, last];
    FoldTwo(Watch, Seen(false, false), first, last);
    assert Fold(Watch, Seen(false, false), [first] + [last]) == Seen(true, true);
    hide Chat.RunOps, Chat.Run, Chat.Ops, MeterChat, Watch, Fold;
    ChatUsageAgrees([first], last);
  }

  // ---- Responses upstreams -----------------------------------------------------------------

  function StepResponses(s: Responses.State, p: Responses.Payload): Responses.State {
    Responses.Step(s, p).state
  }

  lemma {:induction false} UnstoppedIsUnmetered(s: Responses.State, u: Usage, ps: seq<Responses.Payload>)
    requires !s.stopped ==> u == NO_USAGE
    ensures !Fold(StepResponses, s, ps).stopped ==> Fold(MeterResponses, u, ps) == NO_USAGE
    decreases |ps|
  {
    if ps != [] {
      UnstoppedIsUnmetered(StepResponses(s, ps[0]), MeterResponses(u, ps[0]), ps[1..]);
    }
  }

  /** The MessageStop of a Responses upstream always carries the billed usage. */
  lemma ResponsesUsageAgrees(ps: seq<Responses.Payload>, p: Responses.Payload, e: Event)
    requires var s := Fold(StepResponses, Responses.INIT, ps); e in Responses.Step(s, p).events && e.MessageStop?
    ensures e.usage == Fold(MeterResponses, NO_USAGE, ps + [p]).Clamp()
  {
    UnstoppedIsUnmetered(Responses.INIT, NO_USAGE, ps);
    FoldSnoc(MeterResponses, NO_USAGE, ps, p);
  }

  // ---- Anthropic upstreams -----------------------------------------------------------------

  /** Input-side counters of a message_delta: metering keeps what is missing, the decoder keeps all
      three when they are all zero and none otherwise. */
  predicate SideAgrees(before: int, c: Counter, allZero: bool) {
    (if allZero then c.Count? else c.Missing?) ==> before <= 0
  }

  /** Whether one event keeps the two in step, given the metered counters before it. */
  predicate KeepsAgreement(u: Usage, p: Claude.Payload) {
    if p.StartPayload? && p.message.Some? && p.message.value.usage.Absent? then
      u.found && u.input <= 0 && u.output <= 0 && u.cacheRead <= 0 && u.cacheWrite <= 0
    else if p.DeltaPayload? && p.usage.Present? then
      var w := p.usage.value;
      var zero := w.input.Value() == 0 && w.cacheRead.Value() == 0 && w.cacheWrite.Value() == 0;
      && (w.output.Missing? ==> u.output <= 0)
      && SideAgrees(u.input, w.input, zero) && SideAgrees(u.cacheRead, w.cacheRead, zero)
         && SideAgrees(u.cacheWrite, w.cacheWrite, zero)
    else true
  }

  lemma AnthropicStepExact(s: Claude.State, u: Usage, p: Claude.Payload)
    requires s.usage == u.Clamp() && u.reasoning == 0 && !p.Undecodable()
    ensures MeterAnthropic(u, p).reasoning == 0
    ensures Claude.Step(s, p).state.usage == MeterAnthropic(u, p).Clamp() <==> KeepsAgreement(u, p)
  {
    hide Claude.StopOf, Claude.OnBlockStart, Claude.OnBlockStop, Claude.OnDelta;
    if p.DeltaPayload? && p.usage.Present? {
      DeltaExact(u, p.usage.value, p);
      hide Claude.Merge, Claude.Typed, MeterAnthropic, KeepsAgreement;
    } else if !p.StartPayload? {
      OthersKeep(s, p);
      hide Claude.Step;
    }
  }

  lemma OthersKeep(s: Claude.State, p: Claude.Payload)
    requires !p.StartPayload? && !(p.DeltaPayload? && p.usage.Present?)
    ensures Claude.Step(s, p).state.usage == s.usage
  {
  }

  lemma DeltaExact(u: Usage, w: AnthropicUsage, p: Claude.Payload)
    requires p.DeltaPayload? && p.usage == Present(w) && u.reasoning == 0
    ensures MeterAnthropic(u, p).reasoning == 0
    ensures Claude.Merge(u.Clamp(), Claude.Typed(p.usage)) == MeterAnthropic(u, p).Clamp() <==> KeepsAgreement(u, p)
  {
  }

  function StepAnthropic(s: Claude.State, p: Claude.Payload): Claude.State {
    Claude.Step(s, p).state
  }

  predicate Decodable(ps: seq<Claude.Payload>) {
    forall k :: 0 <= k < |ps| ==> !ps[k].Undecodable()
  }

  predicate AllKeep(u: Usage, ps: seq<Claude.Payload>)
    decreases |ps|
  {
    ps == [] || (KeepsAgreement(u, ps[0]) && AllKeep(MeterAnthropic(u, ps[0]), ps[1..]))
  }

  ghost predicate AgreeThroughout(s: Claude.State, u: Usage, ps: seq<Claude.Payload>) {
    forall k :: 0 <= k <= |ps| ==> Fold(StepAnthropic, s, ps[..k]).usage == Fold(MeterAnthropic, u, ps[..k]).Clamp()
  }

  lemma {:induction false} AnthropicRunExact(s: Claude.State, u: Usage, ps: seq<Claude.Payload>)
    requires s.usage == u.Clamp() && u.reasoning == 0 && Decodable(ps)
    ensures AgreeThroughout(s, u, ps) <==> AllKeep(u, ps)
    decreases |ps|
  {
    if ps == [] {
      assert ps[..0] == [];
    } else {
      var t, v, rest := StepAnthropic(s, ps[0]), MeterAnthropic(u, ps[0]), ps[1..];
      AnthropicStepExact(s, u, ps[0]);
      forall k | 0 <= k <= |rest|
        ensures Fold(StepAnthropic, s, ps[..k + 1]) == Fold(StepAnthropic, t, rest[..k])
        ensures Fold(MeterAnthropic, u, ps[..k + 1]) == Fold(MeterAnthropic, v, rest[..k])
      {
        assert ps[..k + 1][1..] == rest[..k];
      }
      assert ps[..0] == [] && rest[..0] == [];
      if t.usage == v.Clamp() {
        AnthropicRunExact(t, v, rest);
        if AgreeThroughout(t, v, rest) {
          forall k | 0 <= k <= |ps| ensures Fold(StepAnthropic, s, ps[..k]).usage
              == Fold(MeterAnthropic, u, ps[..k]).Clamp() {
            if k > 0 { assert Fold(StepAnthropic, t, rest[..k - 1]).usage
                == Fold(MeterAnthropic, v, rest[..k - 1]).Clamp(); }
          }
        } else {
          var j :| 0 <= j <= |rest| && Fold(StepAnthropic, t, rest[..j]).usage != Fold(MeterAnthropic, v,
              rest[..j]).Clamp();
          assert Fold(StepAnthropic, s, ps[..j + 1]).usage != Fold(MeterAnthropic, u, ps[..j + 1]).Clamp();
        }
      } else {
        assert Fold(StepAnthropic, s, ps[..1]).usage != Fold(MeterAnthropic, u, ps[..1]).Clamp();
      }
    }
  }

  /** For an Anthropic upstream the client's usage follows the billed usage at every point of the
      stream exactly when every event keeps them in step. */
  lemma AnthropicUsageExact(ps: seq<Claude.Payload>)
    requires Decodable(ps)
    ensures AgreeThroughout(Claude.INIT, NO_USAGE, ps) <==> AllKeep(NO_USAGE, ps)
  {
    AnthropicRunExact(Claude.INIT, NO_USAGE, ps);
  }

  // ---- What is told at the stop, and what is billed, read off the events --------------------------

  /** message_start with its message, and message_delta with usage. */
  predicate Opens(p: Claude.Payload) {
    p.StartPayload? && p.message.Some?
  }

  predicate Counts(p: Claude.Payload) {
    p.DeltaPayload? && p.usage.Present?
  }

  const NO_COUNTERS := AnthropicUsage(Missing, Missing, Missing, Missing)

  /** The counters an event carries. */
  function Counters(p: Claude.Payload): AnthropicUsage {
    if Opens(p) && p.message.value.usage.Present? then p.message.value.usage.value
    else if Counts(p) then p.usage.value
    else NO_COUNTERS
  }

  /** An event with a usage object of its own. */
  predicate Reports(p: Claude.Payload) {
    Counts(p) || (Opens(p) && p.message.value.usage.Present?)
  }

  predicate ZeroInput(u: AnthropicUsage) {
    u.input.Value() == 0 && u.cacheRead.Value() == 0 && u.cacheWrite.Value() == 0
  }

  /** The client is told the input side of a message_start, or of a message_delta that is not all zero. */
  predicate TellsInput(p: Claude.Payload) {
    Opens(p) || (Counts(p) && !ZeroInput(Counters(p)))
  }

  predicate TellsOutput(p: Claude.Payload) {
    Opens(p) || Counts(p)
  }

  /** Billing takes each counter from the last event that has it, and all of them from a message_start. */
  predicate BillsInput(p: Claude.Payload) {
    Reports(p) && (Opens(p) || Counters(p).input.Count?)
  }

  predicate BillsOutput(p: Claude.Payload) {
    Reports(p) && (Opens(p) || Counters(p).output.Count?)
  }

  predicate BillsCacheRead(p: Claude.Payload) {
    Reports(p) && (Opens(p) || Counters(p).cacheRead.Count?)
  }

  predicate BillsCacheWrite(p: Claude.Payload) {
    Reports(p) && (Opens(p) || Counters(p).cacheWrite.Count?)
  }

  function LastWhere(decides: Claude.Payload -> bool, ps: seq<Claude.Payload>): (k: int)
    ensures -1 <= k < |ps| && (k >= 0 ==> decides(ps[k]))
    ensures forall j :: k < j < |ps| ==> !decides(ps[j])
  {
    if ps == [] then -1
    else if decides(ps[|ps| - 1]) then |ps| - 1
    else LastWhere(decides, ps[..|ps| - 1])
  }

  /** The counters of the last event that decides; none before the first such event. */
  function Last(decides: Claude.Payload -> bool, ps: seq<Claude.Payload>): AnthropicUsage {
    var k := LastWhere(decides, ps);
    if k < 0 then NO_COUNTERS else Counters(ps[k])
  }

  predicate Any(decides: Claude.Payload -> bool, ps: seq<Claude.Payload>) {
    LastWhere(decides, ps) >= 0
  }

  /** What the client is told: both the input side and the output from the last event that tells it. */
  function Told(ps: seq<Claude.Payload>): Usage {
    var i, o := Last(TellsInput, ps), Last(TellsOutput, ps);
    Usage(i.input.Value(), o.output.Value(), i.cacheRead.Value(), i.cacheWrite.Value(), 0, Any(TellsOutput, ps)).Clamp()
  }

  /** What is billed: each counter's last value on the wire. */
  function Billed(ps: seq<Claude.Payload>): Usage {
    Usage(Last(BillsInput, ps).input.Value(), Last(BillsOutput, ps).output.Value(),
          Last(BillsCacheRead, ps).cacheRead.Value(), Last(BillsCacheWrite, ps).cacheWrite.Value(),
          0, Any(Reports, ps)).Clamp()
  }

  /** Every counter has the same value, negative ones counting as zero, where it is last told and where it
      is last billed; and something is told exactly when something is billed. */
  predicate SameAtTheStop(ps: seq<Claude.Payload>) {
    var i, o := Last(TellsInput, ps), Last(TellsOutput, ps);
    && AtLeastZero(i.input.Value()) == AtLeastZero(Last(BillsInput, ps).input.Value())
    && AtLeastZero(i.cacheRead.Value()) == AtLeastZero(Last(BillsCacheRead, ps).cacheRead.Value())
    && AtLeastZero(i.cacheWrite.Value()) == AtLeastZero(Last(BillsCacheWrite, ps).cacheWrite.Value())
    && AtLeastZero(o.output.Value()) == AtLeastZero(Last(BillsOutput, ps).output.Value())
    && Any(TellsOutput, ps) == Any(Reports, ps)
  }

  lemma LastSnoc(decides: Claude.Payload -> bool, ps: seq<Claude.Payload>, p: Claude.Payload)
    ensures Last(decides, ps + [p]) == if decides(p) then Counters(p) else Last(decides, ps)
    ensures Any(decides, ps + [p]) == (decides(p) || Any(decides, ps))
  {
    assert (ps + [p])[..|ps|] == ps && (ps + [p])[|ps|] == p;
  }

  lemma UsageStep(s: Claude.State, p: Claude.Payload)
    requires !p.Undecodable()
    ensures Claude.Step(s, p).state.usage ==
            if Opens(p) then ParseAnthropic(Present(Claude.Typed(p.message.value.usage)))
            else if Counts(p) then Claude.Merge(s.usage, Claude.Typed(p.usage))
            else s.usage
  {
    hide Claude.StopOf, Claude.Typed, Claude.Merge;
  }

  lemma {:induction false} ToldExactly(ps: seq<Claude.Payload>)
    requires Decodable(ps)
    ensures Fold(StepAnthropic, Claude.INIT, ps).usage == Told(ps)
    decreases |ps|
  {
    if ps != [] {
      var n := |ps| - 1;
      var front, p := ps[..n], ps[n];
      ToldExactly(front);
      FoldSnoc(StepAnthropic, Claude.INIT, front, p);
      assert ps == front + [p] && !p.Undecodable();
      LastSnoc(TellsInput, front, p);
      LastSnoc(TellsOutput, front, p);
      UsageStep(Fold(StepAnthropic, Claude.INIT, front), p);
      hide Last, Any, Fold, Claude.Step;
    }
  }

  /** The unclamped counters of the metering parser. */
  lemma {:induction false} BilledExactly(ps: seq<Claude.Payload>)
    ensures var u := Fold(MeterAnthropic, NO_USAGE, ps);
            && u.input == Last(BillsInput, ps).input.Value() && u.output == Last(BillsOutput, ps).output.Value()
            && u.cacheRead == Last(BillsCacheRead, ps).cacheRead.Value()
            && u.cacheWrite == Last(BillsCacheWrite, ps).cacheWrite.Value()
            && u.reasoning == 0 && u.found == Any(Reports, ps)
    decreases |ps|
  {
    if ps != [] {
      var n := |ps| - 1;
      var front, p := ps[..n], ps[n];
      BilledExactly(front);
      FoldSnoc(MeterAnthropic, NO_USAGE, front, p);
      assert ps == front + [p];
      LastSnoc(BillsInput, front, p);
      LastSnoc(BillsOutput, front, p);
      LastSnoc(BillsCacheRead, front, p);
      LastSnoc(BillsCacheWrite, front, p);
      LastSnoc(Reports, front, p);
      hide Last, Any, Fold;
    }
  }

  /** For an Anthropic upstream the MessageStop, the only place where a client sees the usage of such a
      stream, carries the billed usage exactly when every counter has the same value in the event
      that last tells it and in the event that last bills it. */
  lemma {:induction false} AnthropicStopExact(ps: seq<Claude.Payload>)
    requires Decodable(ps)
    ensures var s := Fold(StepAnthropic, Claude.INIT, ps);
            var told, billed := Claude.Step(s, Claude.StopPayload).events[0].usage,
                                Fold(MeterAnthropic, NO_USAGE, ps + [Claude.StopPayload]).Clamp();
            told == Told(ps) && billed == Billed(ps) && (told == billed <==> SameAtTheStop(ps))
  {
    ToldExactly(ps);
    BilledExactly(ps);
    FoldSnoc(MeterAnthropic, NO_USAGE, ps, Claude.StopPayload);
    hide Last, Any, Fold;
  }

  /** Agreement on the way is not needed for agreement at the stop: a later message_delta can mend it. */
  lemma LaterCountersMend()
    ensures var start := Claude.StartPayload(Some(Claude.Envelope("i", "m",
                           Present(AnthropicUsage(Count(5), Count(0), Count(0), Count(0))))));
            var zero := Claude.DeltaPayload(None, Present(AnthropicUsage(Count(0), Count(3), Count(0), Count(0))));
            var full := Claude.DeltaPayload(None, Present(AnthropicUsage(Count(7), Count(4), Count(1), Count(1))));
            var ps := [start, zero, full];
            Decodable(ps) && !AllKeep(NO_USAGE, ps) && SameAtTheStop(ps)
  {
    var start := Claude.StartPayload(Some(Claude.Envelope("i", "m",
                   Present(AnthropicUsage(Count(5), Count(0), Count(0), Count(0))))));
    var zero := Claude.DeltaPayload(None, Present(AnthropicUsage(Count(0), Count(3), Count(0), Count(0))));
    var full := Claude.DeltaPayload(None, Present(AnthropicUsage(Count(7), Count(4), Count(1), Count(1))));
    var ps, two := [start, zero, full], [start, zero];
    assert ps == two + [full] && ps[1..] == [zero, full];
    LastSnoc(TellsInput, two, full);
    LastSnoc(TellsOutput, two, full);
    LastSnoc(BillsInput, two, full);
    LastSnoc(BillsOutput, two, full);
    LastSnoc(BillsCacheRead, two, full);
    LastSnoc(BillsCacheWrite, two, full);
    LastSnoc(Reports, two, full);
  }

  /** The shapes real servers send: message_start with usage, and message_delta with output_tokens
      and either none of the input-side counters, or all of them and not all zero. */
  predicate Regular(p: Claude.Payload) {
    && (p.StartPayload? && p.message.Some? ==> p.message.value.usage.Present?)
    && (p.DeltaPayload? && p.usage.Present? ==>
          var w := p.usage.value;
          && w.output.Count?
          && ((w.input.Missing? && w.cacheRead.Missing? && w.cacheWrite.Missing?)
              || (w.input.Count? && w.cacheRead.Count? && w.cacheWrite.Count?
                  && (w.input.n != 0 || w.cacheRead.n != 0 || w.cacheWrite.n != 0))))
  }

  lemma {:induction false} RegularKeeps(u: Usage, ps: seq<Claude.Payload>)
    requires Decodable(ps) && forall k :: 0 <= k < |ps| ==> Regular(ps[k])
    ensures AllKeep(u, ps)
    decreases |ps|
  {
    if ps != [] {
      assert Regular(ps[0]) && !ps[0].Undecodable();
      RegularKeeps(MeterAnthropic(u, ps[0]), ps[1..]);
    }
  }

  /** On such streams the MessageStop carries the billed usage. */
  lemma {:induction false} AnthropicUsageAgrees(ps: seq<Claude.Payload>, p: Claude.Payload)
    requires Decodable(ps) && p.StopPayload? && forall k :: 0 <= k < |ps| ==> Regular(ps[k])
    ensures var s := Fold(StepAnthropic, Claude.INIT, ps);
            Claude.Step(s, p).events[0].usage == Fold(MeterAnthropic, NO_USAGE, ps + [p]).Clamp()
  {
    RegularKeeps(NO_USAGE, ps);
    AnthropicUsageExact(ps);
    FoldSnoc(MeterAnthropic, NO_USAGE, ps, p);
    assert ps[..|ps|] == ps;
  }

  /** A message_delta that repeats the input-side counters as zeros: the client keeps the counters of
      message_start, and zeros are billed. */
  lemma ZeroCountersDisagree()
    ensures var start := Claude.StartPayload(Some(Claude.Envelope("i", "m",
                           Present(AnthropicUsage(Count(5), Count(0), Count(0), Count(0))))));
            var delta := Claude.DeltaPayload(None, Present(AnthropicUsage(Count(0), Count(3), Count(0), Count(0))));
            var ps := [start, delta];
            && Decodable(ps)
            && !AgreeThroughout(Claude.INIT, NO_USAGE, ps)
            && Claude.Step(Fold(StepAnthropic, Claude.INIT, ps), Claude.StopPayload).events[0].usage.input == 5
            && Fold(MeterAnthropic, NO_USAGE, ps).Clamp().input == 0
  {
    var start := Claude.StartPayload(Some(Claude.Envelope("i", "m",
                   Present(AnthropicUsage(Count(5), Count(0), Count(0), Count(0))))));
    var delta := Claude.DeltaPayload(None, Present(AnthropicUsage(Count(0), Count(3), Count(0), Count(0))));
    var ps := [start, delta];
    FoldTwo(StepAnthropic, Claude.INIT, start, delta);
    FoldTwo(MeterAnthropic, NO_USAGE, start, delta);
    assert ps[..2] == ps;
  }
}
