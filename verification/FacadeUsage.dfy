/** The usage a client of a whole `Stream` is told at the end, against what is billed. */
module FacadeUsage {
  import opened Folds
  import opened TokenUsage
  import opened Ir
  import opened Facade
  import opened StreamMeaning
  import opened FacadeMeaning
  import AnthropicUpstream
  import ResponsesUpstream
  import ClosingFrames
  import UpstreamEnds
  import Agreement = UsageAgreement

  /** What can be read off any client's last frames: the whole input side, the output, the cache reads. */
  datatype Told = Told(input: int, output: int, cached: int)

  function ToldBy(client: Protocol, sent: seq<Frame>): Option<Told> {
    match client
    case Anthropic =>
      var fs := OnlyAnthropic(sent);
      if |fs| >= 2 && fs[|fs| - 2].MessageDelta? && fs[|fs| - 2].usage.Present? then
        var w := fs[|fs| - 2].usage.value;
        Some(Told(w.input.Value() + w.cacheRead.Value() + w.cacheWrite.Value(), w.output.Value(), w.cacheRead.Value()))
      else None
    case OpenAIChat =>
      var fs := OnlyChat(sent);
      if |fs| >= 2 && fs[|fs| - 2].UsageChunk?
      then Some(Told(fs[|fs| - 2].usage.prompt, fs[|fs| - 2].usage.completion, fs[|fs| - 2].usage.cached))
      else None
    case OpenAIResponses =>
      var bs := OnlyResponses(sent);
      if bs != [] && bs[|bs| - 1].Final? && bs[|bs| - 1].usage.Present? then
        var w := bs[|bs| - 1].usage.value;
        Some(Told(w.input, w.output, w.cached))
      else None
  }

  /** The same numbers of a usage account. */
  function Owed(u: Usage): Told {
    Told(u.input + u.cacheRead + u.cacheWrite, u.output, u.cacheRead)
  }

  /** Whatever is fed: when the stream ends in a MessageStop, the client's last frames tell the usage of that
      event; an OpenAI client is told nothing when it has none. */
  lemma {:induction false} ClientIsTold(client: Protocol, provider: Protocol, acts: seq<Action>)
    requires AllFeeds(acts) && DecodeAll(provider, TakenPayloads(client, provider, acts)).ok
    requires var events := DecodeAll(provider, TakenPayloads(client, provider, acts)).events;
             events != [] && events[|events| - 1].MessageStop? && events[|events| - 1].usage.NonNegative()
    ensures var events := DecodeAll(provider, TakenPayloads(client, provider, acts)).events;
            var told, u := ToldBy(client, Fold(Act, Fresh(client, provider), acts).sent), events[|events| - 1].usage;
            && (u.found ==> told == Some(Owed(u)))
            && (!u.found && client != Anthropic ==> told == None)
  {
    hide Act, Passed, TakenPayloads, DecodeAll, HeardBy;
    FedStream(client, provider, acts);
    SentToClient(client, provider, acts);
    var ins := Passed(Fresh(client, provider), acts);
    var n := |ins| - 1;
    assert Events(ins)[n] == ins[n].event && ins[..n] + [ins[n]] == ins;
    hide ToldBy, Fresh, LastOnly, OnlyAnthropic, OnlyChat, OnlyResponses;
    FramesTell(client, Fold(Act, Fresh(client, provider), acts).sent, ins[..n], ins[n]);
  }

  lemma FramesTell(client: Protocol, sent: seq<Frame>, ins: seq<Input>, i: Input)
    requires i.event.MessageStop? && i.event.usage.NonNegative()
    requires client == Anthropic ==> OnlyAnthropic(sent) == AnthropicOut.Run(ins + [i]).frames
    requires client == OpenAIChat ==> OnlyChat(sent) == ChatOut.Run(ins + [i]).frames
    requires client == OpenAIResponses ==> OnlyResponses(sent) == ResponsesOut.Run(ins + [i]).bodies
    ensures var u := i.event.usage;
            && (u.found ==> ToldBy(client, sent) == Some(Owed(u)))
            && (!u.found && client != Anthropic ==> ToldBy(client, sent) == None)
  {
    hide AnthropicOut.Run, ChatOut.Run, ResponsesOut.Run, OnlyAnthropic, OnlyChat, OnlyResponses;
    match client
    case Anthropic => ClosingFrames.AnthropicCloses(ins, i);
    case OpenAIChat => ClosingFrames.ChatCloses(ins, i);
    case OpenAIResponses => ClosingFrames.ResponsesCloses(ins, i);
  }

  /** The payload that ended a stream, and what was decoded before it. */
  lemma {:induction false} LastPayload(client: Protocol, provider: Protocol, acts: seq<Action>)
    requires AllFeeds(acts)
    requires var d := DecodeAll(provider, TakenPayloads(client, provider, acts)); d.ok && Ended(d.events)
    ensures var raws := TakenPayloads(client, provider, acts);
            && raws != []
            && var front, last := DecodeAll(provider, raws[..|raws| - 1]), raws[|raws| - 1];
               && front.ok && Calm(front.events)
               && DecodeAll(provider, raws).events == front.events + Decode(front.state, last).events
               && Ended(Decode(front.state, last).events)
  {
    hide Act, Passed, TakenPayloads, Decode;
    FedStream(client, provider, acts);
    var raws := TakenPayloads(client, provider, acts);
    var start := Decoded(NewDecoder(provider), [], true);
    NothingDecoded(start);
    var n := |raws| - 1;
    FoldSnoc(More, start, raws[..n], raws[n]);
    assert raws[..n] + [raws[n]] == raws;
    var front, all := DecodeAll(provider, raws[..n]), DecodeAll(provider, raws);
    assert all == More(front, raws[n]);
    var more := Decode(front.state, raws[n]).events;
    assert front.events + [] == front.events && all.events == front.events + more;
    forall k | 0 <= k < |front.events| ensures !front.events[k].Terminal() {
      assert all.events[k] == front.events[k];
    }
    assert all.events[|all.events| - 1] == more[|more| - 1];
  }

  lemma NothingDecoded(start: Decoded)
    ensures Fold(More, start, []) == start
  {
  }

  // ---- Responses providers ----------------------------------------------------------------------------

  lemma {:induction false} ResponsesStates(raws: seq<Raw>)
    requires ResponsesUpstream.Run(ResponsesPayloads(raws)).ok
    ensures ResponsesUpstream.Run(ResponsesPayloads(raws)).state
            == Fold(Agreement.StepResponses, ResponsesIn.INIT, ResponsesPayloads(raws))
    decreases |raws|
  {
    var ps := ResponsesPayloads(raws);
    if raws != [] {
      var n := |raws| - 1;
      hide ResponsesIn.Step;
      assert ps == ResponsesPayloads(raws[..n]) + [raws[n].responses];
      FoldSnoc(ResponsesUpstream.Advance, ResponsesIn.Result(ResponsesIn.INIT, [], true), ResponsesPayloads(raws[..n]),
               raws[n].responses);
      FoldSnoc(Agreement.StepResponses, ResponsesIn.INIT, ResponsesPayloads(raws[..n]), raws[n].responses);
      ResponsesStates(raws[..n]);
    }
  }

  /** Every client of a Responses provider whose stream ends in a MessageStop with usage is told exactly what
      is billed. */
  lemma {:induction false} ResponsesProviderTellsBilled(client: Protocol, acts: seq<Action>)
    requires AllFeeds(acts)
    requires var d := DecodeAll(OpenAIResponses, TakenPayloads(client, OpenAIResponses, acts));
             d.ok && d.events != [] && d.events[|d.events| - 1].MessageStop? && d.events[|d.events| - 1].usage.found
    ensures var ps := ResponsesPayloads(TakenPayloads(client, OpenAIResponses, acts));
            ToldBy(client, Fold(Act, Fresh(client, OpenAIResponses), acts).sent)
            == Some(Owed(Fold(Agreement.MeterResponses, NO_USAGE, ps).Clamp()))
  {
    hide Act, Passed, TakenPayloads, ToldBy, More, ResponsesIn.Step;
    var raws := TakenPayloads(client, OpenAIResponses, acts);
    LastPayload(client, OpenAIResponses, acts);
    var n := |raws| - 1;
    var ps, before := ResponsesPayloads(raws), ResponsesPayloads(raws[..n]);
    assert ps == before + [raws[n].responses];
    ResponsesDecodes(ResponsesIn.Result(ResponsesIn.INIT, [], true), raws[..n]);
    ResponsesStates(raws[..n]);
    var events := DecodeAll(OpenAIResponses, raws).events;
    Agreement.ResponsesUsageAgrees(before, raws[n].responses, events[|events| - 1]);
    ClientIsTold(client, OpenAIResponses, acts);
  }

  // ---- Anthropic providers ----------------------------------------------------------------------------

  lemma {:induction false} AnthropicStates(raws: seq<Raw>)
    requires AnthropicUpstream.Run(AnthropicPayloads(raws)).ok
    ensures Agreement.Decodable(AnthropicPayloads(raws))
    ensures AnthropicUpstream.Run(AnthropicPayloads(raws)).state
            == Fold(Agreement.StepAnthropic, AnthropicIn.INIT, AnthropicPayloads(raws))
    decreases |raws|
  {
    var ps := AnthropicPayloads(raws);
    if raws != [] {
      var n := |raws| - 1;
      var front := AnthropicPayloads(raws[..n]);
      assert ps == front + [raws[n].anthropic];
      FoldSnoc(AnthropicUpstream.Advance, AnthropicIn.Result(AnthropicIn.INIT, [], true), front, raws[n].anthropic);
      FoldSnoc(Agreement.StepAnthropic, AnthropicIn.INIT, front, raws[n].anthropic);
      AnthropicStates(raws[..n]);
      Undecodable(AnthropicUpstream.Run(front).state, raws[n].anthropic);
      hide AnthropicIn.Step, Fold;
      forall k | 0 <= k < |ps| ensures !ps[k].Undecodable() {
        if k < n { assert ps[k] == front[k]; }
      }
    }
  }

  lemma Undecodable(s: AnthropicIn.State, p: AnthropicIn.Payload)
    ensures AnthropicIn.Step(s, p).ok ==> !p.Undecodable()
  {
  }

  lemma OnlyTheStopStops(s: AnthropicIn.State, p: AnthropicIn.Payload, e: Event)
    requires e in AnthropicIn.Step(s, p).events && e.MessageStop?
    ensures p.StopPayload? && AnthropicIn.Step(s, p).events == [e]
  {
  }

  /** Every client of an Anthropic provider whose stream ends in a MessageStop with usage is told what
      the events last tell, which is what is billed exactly when the counters are the same. */
  lemma {:induction false} AnthropicProviderTells(client: Protocol, acts: seq<Action>)
    requires AllFeeds(acts)
    requires var d := DecodeAll(Anthropic, TakenPayloads(client, Anthropic, acts));
             d.ok && d.events != [] && d.events[|d.events| - 1].MessageStop? && d.events[|d.events| - 1].usage.found
    ensures var raws := TakenPayloads(client, Anthropic, acts);
            && raws != []
            && var ps := AnthropicPayloads(raws[..|raws| - 1]);
               var told := ToldBy(client, Fold(Act, Fresh(client, Anthropic), acts).sent);
               && told == Some(Owed(Agreement.Told(ps)))
               && (Agreement.SameAtTheStop(ps) ==>
                     told == Some(Owed(Fold(Agreement.MeterAnthropic, NO_USAGE, AnthropicPayloads(raws)).Clamp())))
  {
    hide Act, Passed, TakenPayloads, ToldBy, More, Agreement.Last, Agreement.Any, Agreement.Billed,
        Agreement.SameAtTheStop;
    var raws := TakenPayloads(client, Anthropic, acts);
    LastPayload(client, Anthropic, acts);
    var n := |raws| - 1;
    var ps, before := AnthropicPayloads(raws), AnthropicPayloads(raws[..n]);
    assert ps == before + [raws[n].anthropic];
    AnthropicDecodes(AnthropicIn.Result(AnthropicIn.INIT, [], true), raws[..n]);
    AnthropicStates(raws[..n]);
    var events := DecodeAll(Anthropic, raws).events;
    OnlyTheStopStops(AnthropicUpstream.Run(before).state, raws[n].anthropic, events[|events| - 1]);
    Agreement.AnthropicStopExact(before);
    ClientIsTold(client, Anthropic, acts);
  }

  // ---- Chat providers ---------------------------------------------------------------------------------

  predicate Stopped(events: seq<Event>) {
    exists k :: 0 <= k < |events| && events[k].MessageStop?
  }

  lemma StopStep(s: ChatIn.State, op: ChatIn.Op)
    ensures ChatIn.Step(s, op).state.stopSent <==> s.stopSent || Stopped(ChatIn.Step(s, op).events)
  {
    hide ChatIn.FinishReason, ChatIn.OnCall, ChatIn.Terminate;
    if op.Call? {
      CallStep(s, op.f);
    } else if op.Stop? || op.StopIfFinished? {
      TerminateStep(s);
    }
  }

  lemma CallStep(s: ChatIn.State, f: ChatIn.Fragment)
    ensures ChatIn.OnCall(s, f).state.stopSent == s.stopSent && !Stopped(ChatIn.OnCall(s, f).events)
  {
    UpstreamEnds.CallsDoNotStop(s, f);
    Agreement.CallKeepsUsage(s, f);
    hide ChatIn.OnCall;
    var events := ChatIn.OnCall(s, f).events;
    assert forall k :: 0 <= k < |events| ==> events[k] in events;
  }

  lemma TerminateStep(s: ChatIn.State)
    ensures var r := ChatIn.Terminate(s);
            && r.state.stopSent == (s.stopSent || s.started)
            && (Stopped(r.events) <==> !s.stopSent && s.started)
  {
    hide ChatIn.FinishReason;
    var r := ChatIn.Terminate(s);
    if !s.stopSent && s.started {
      assert r.events[|r.events| - 1].MessageStop?;
    }
  }

  lemma {:induction false} StopIsTold(ops: seq<ChatIn.Op>)
    ensures var r := ChatIn.RunOps(ChatIn.Result(ChatIn.INIT, [], true), ops);
            r.state.stopSent <==> Stopped(r.events)
    decreases |ops|
  {
    if ops != [] {
      var n := |ops| - 1;
      var start := ChatIn.Result(ChatIn.INIT, [], true);
      StopIsTold(ops[..n]);
      FoldSnoc(ChatIn.Advance, start, ops[..n], ops[n]);
      assert ops[..n] + [ops[n]] == ops;
      var front := ChatIn.RunOps(start, ops[..n]);
      StopStep(front.state, ops[n]);
      StoppedConcat(front.events, ChatIn.Step(front.state, ops[n]).events);
      hide ChatIn.Step, Fold, Stopped;
    }
  }

  lemma StoppedConcat(xs: seq<Event>, ys: seq<Event>)
    ensures Stopped(xs + ys) <==> Stopped(xs) || Stopped(ys)
  {
    if Stopped(xs) {
      var k :| 0 <= k < |xs| && xs[k].MessageStop?;
      assert (xs + ys)[k].MessageStop?;
    }
    if Stopped(ys) {
      var k :| 0 <= k < |ys| && ys[k].MessageStop?;
      assert (xs + ys)[|xs| + k].MessageStop?;
    }
  }

  /** An error payload is an error event, which ends the stream. */
  lemma {:induction false} ErrorsEnd(acc: ChatIn.Result, ps: seq<ChatIn.Payload>, k: nat)
    requires acc.ok && ChatIn.RunOps(acc, ChatIn.AllOps(ps)).ok && k < |ps| && ps[k].ErrorPayload?
    ensures exists e :: e in ChatIn.RunOps(acc, ChatIn.AllOps(ps)).events && e.Error?
    decreases |ps|
  {
    hide ChatIn.Step;
    var xs, rest := ChatIn.Ops(ps[0]), ChatIn.AllOps(ps[1..]);
    FoldConcat(ChatIn.Advance, acc, xs, rest);
    var mid := ChatIn.RunOps(acc, xs);
    if !mid.ok { ChatIn.RefusedStays(mid, rest); }
    if k == 0 {
      var fail := xs[0];
      assert xs == [fail];
      FoldOne(ChatIn.Advance, acc, fail);
      FailSays(acc.state, fail);
      assert Error(fail.message) in mid.events;
      EventsStay(mid, rest, Error(fail.message));
    } else {
      ErrorsEnd(mid, ps[1..], k - 1);
    }
  }

  lemma FailSays(s: ChatIn.State, op: ChatIn.Op)
    requires op.Fail?
    ensures ChatIn.Step(s, op) == ChatIn.Result(s, [Error(op.message)], true)
  {
  }

  lemma {:induction false} EventsStay(acc: ChatIn.Result, ops: seq<ChatIn.Op>, e: Event)
    requires e in acc.events
    ensures e in ChatIn.RunOps(acc, ops).events
    decreases |ops|
  {
    hide ChatIn.Step;
    if ops != [] {
      EventsStay(ChatIn.Advance(acc, ops[0]), ops[1..], e);
    }
  }

  lemma {:induction false} AllOpsSnoc(ps: seq<ChatIn.Payload>, p: ChatIn.Payload)
    ensures ChatIn.AllOps(ps + [p]) == ChatIn.AllOps(ps) + ChatIn.Ops(p)
    decreases |ps|
  {
    hide ChatIn.Ops;
    if ps == [] {
      assert [p][1..] == [] && ps + [p] == [p] && ChatIn.AllOps([]) == [];
      assert ChatIn.Ops(p) + [] == [] + ChatIn.Ops(p);
    } else {
      assert (ps + [p])[0] == ps[0] && (ps + [p])[1..] == ps[1..] + [p];
      AllOpsSnoc(ps[1..], p);
    }
  }

  /** What decodes without error, decodes so up to any point. */
  lemma {:induction false} ChatPrefix(ps: seq<ChatIn.Payload>, n: nat)
    requires n <= |ps| && ChatIn.Run(ps).ok
    ensures ChatIn.Run(ps[..n]).ok
    decreases |ps| - n
  {
    if n < |ps| {
      hide ChatIn.Step, ChatIn.Ops;
      ChatPrefix(ps, n + 1);
      assert ps[..n + 1] == ps[..n] + [ps[n]];
      AllOpsSnoc(ps[..n], ps[n]);
      var start := ChatIn.Result(ChatIn.INIT, [], true);
      FoldConcat(ChatIn.Advance, start, ChatIn.AllOps(ps[..n]), ChatIn.Ops(ps[n]));
      if !ChatIn.Run(ps[..n]).ok { ChatIn.RefusedStays(ChatIn.Run(ps[..n]), ChatIn.Ops(ps[n])); }
    } else {
      assert ps[..n] == ps;
    }
  }

  lemma NoErrorBefore(ps: seq<ChatIn.Payload>)
    requires ChatIn.Run(ps).ok && LastOnly(ChatIn.Run(ps).events)
    requires var es := ChatIn.Run(ps).events; es != [] && es[|es| - 1].MessageStop?
    ensures Agreement.NoErrors(ps)
  {
    hide ChatIn.AllOps, ChatIn.Advance;
    var es := ChatIn.Run(ps).events;
    assert forall e :: e in es ==> !e.Error?;
    hide LastOnly;
    forall k | 0 <= k < |ps| ensures !ps[k].ErrorPayload? {
      if ps[k].ErrorPayload? {
        ErrorsEnd(ChatIn.Result(ChatIn.INIT, [], true), ps, k);
      }
    }
  }

  /** The stop of a Chat stream carries the last readable usage, or none after an unreadable one. */
  lemma {:induction false} ChatStopUsage(ps: seq<ChatIn.Payload>)
    requires ps != [] && ChatIn.Run(ps).ok && Calm(ChatIn.Run(ps[..|ps| - 1]).events) && LastOnly(ChatIn.Run(ps).events)
    requires var es := ChatIn.Run(ps).events; es != [] && es[|es| - 1].MessageStop?
    ensures var es, u := ChatIn.Run(ps).events, Fold(Agreement.MeterChat, NO_USAGE, ps);
            var w := Fold(Agreement.Watch, Agreement.Seen(false, false), ps);
            es[|es| - 1].usage == (if w.lastUnreadable then NO_USAGE else u.Clamp()) && (u.found ==> w.any)
  {
    hide ChatIn.Step, ChatIn.Ops, Agreement.MeterChat, Agreement.Watch;
    var n := |ps| - 1;
    var start := ChatIn.Result(ChatIn.INIT, [], true);
    var front, p := ChatIn.Run(ps[..n]), ps[n];
    assert ps == ps[..n] + [p];
    AllOpsSnoc(ps[..n], p);
    FoldConcat(ChatIn.Advance, start, ChatIn.AllOps(ps[..n]), ChatIn.Ops(p));
    if !front.ok { ChatIn.RefusedStays(front, ChatIn.Ops(p)); }
    StopIsTold(ChatIn.AllOps(ps[..n]));
    StopIsTold(ChatIn.AllOps(ps));
    assert Stopped(ChatIn.Run(ps).events);
    hide Stopped, Calm;
    NoErrorBefore(ps);
    hide ChatIn.AllOps, ChatIn.Advance, LastOnly;
    Agreement.PayloadUsage(front, p);
    Agreement.ChatUsageRun(start, NO_USAGE, Agreement.Seen(false, false), ps);
  }

  /** Every client of a Chat provider whose stream ends in a MessageStop is told exactly what is billed, unless
      an unreadable usage object came after a readable one. */
  lemma {:induction false} ChatProviderTellsBilled(client: Protocol, acts: seq<Action>)
    requires AllFeeds(acts) && ChatIn.Run(ChatPayloads(TakenPayloads(client, OpenAIChat, acts))).ok
    requires var es := ChatIn.Run(ChatPayloads(TakenPayloads(client, OpenAIChat, acts))).events;
             es != [] && es[|es| - 1].MessageStop?
    ensures var ps := ChatPayloads(TakenPayloads(client, OpenAIChat, acts));
            var billed := Fold(Agreement.MeterChat, NO_USAGE, ps).Clamp();
            var w := Fold(Agreement.Watch, Agreement.Seen(false, false), ps);
            var told := ToldBy(client, Fold(Act, Fresh(client, OpenAIChat), acts).sent);
            && (billed.found && !w.lastUnreadable ==> told == Some(Owed(billed)))
            && (client != Anthropic && (!billed.found || w.lastUnreadable) ==> told == None)
  {
    hide Act, Passed, TakenPayloads, ToldBy, More, ChatIn.Step, ChatIn.Ops;
    var raws := TakenPayloads(client, OpenAIChat, acts);
    var ps := ChatPayloads(raws);
    ChatDecodes(ChatIn.Result(ChatIn.INIT, [], true), raws);
    LastPayload(client, OpenAIChat, acts);
    var n := |raws| - 1;
    assert ps[..n] == ChatPayloads(raws[..n]);
    ChatPrefix(ps, n);
    ChatDecodes(ChatIn.Result(ChatIn.INIT, [], true), raws[..n]);
    FedStream(client, OpenAIChat, acts);
    ChatStopUsage(ps);
    ClientIsTold(client, OpenAIChat, acts);
  }
}
