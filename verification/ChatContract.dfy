/** The Chat decoder keeps the stream contract, exactly when no tool call has a negative index. */
module ChatContract {
  import opened Folds
  import opened TokenUsage
  import opened Ir
  import opened ChatDecoder
  import opened StreamContract

  predicate NonNegativeCalls(ops: seq<Op>) {
    forall k :: 0 <= k < |ops| && ops[k].Call? ==> ops[k].f.index >= 0
  }

  predicate NonNegative(s: State) {
    forall k :: k in s.phase ==> k >= 0
  }

  predicate EndsInStop(events: seq<Event>) {
    |events| > 0 && events[|events| - 1].MessageStop?
  }

  /** While no negative index was seen the decoder state mirrors the contract; afterwards the tool
      with the negative index is open for good. */
  ghost predicate Mirrored(s: State, c: Contract) {
    && c == Keeping(s.started, s.stopSent, if s.cur >= 0 then Some(s.cur + 1) else None, s.reasonOpen)
    && NonNegative(s) && s.cur >= -1 && (s.cur >= 0 ==> s.cur in s.phase)
    && forall k :: k in s.phase ==> s.phase[k] == if k == s.cur then Opened else Closed
  }

  ghost predicate Sound(s: State, c: Contract, events: seq<Event>) {
    if NonNegative(s) then Mirrored(s, c)
    else c.Violated? || (c.tool.Some? && c.started && s.cur < 0 && s.started && !EndsInStop(events))
  }

  lemma {:induction false} ObeyInTurn(c: Contract, xs: seq<Event>, ys: seq<Event>, z: Event)
    ensures Fold(Obey, c, xs + ys + [z]) == Obey(Fold(Obey, Fold(Obey, c, xs), ys), z)
  {
    FoldConcat(Obey, c, xs, ys);
    FoldSnoc(Obey, c, xs + ys, z);
  }

  lemma CloseToolObeys(s: State, c: Contract)
    requires Mirrored(s, c) && s.started
    ensures var r := CloseTool(s); Mirrored(r.state, Fold(Obey, c, r.events)) && r.state.cur == -1
  {
    if s.cur >= 0 {
      FoldOne(Obey, c, CloseTool(s).events[0]);
    }
  }

  lemma CloseReasoningObeys(s: State, c: Contract)
    requires c.Keeping? && c.started && c.thinking == s.reasonOpen
    ensures Fold(Obey, c, CloseReasoning(s).events) == c.(thinking := false)
  {
    if s.reasonOpen {
      FoldOne(Obey, c, CloseReasoning(s).events[0]);
    }
  }

  lemma TerminateObeys(s: State, c: Contract)
    requires Mirrored(s, c)
    ensures var r := Terminate(s); Mirrored(r.state, Fold(Obey, c, r.events))
  {
    if !s.stopSent && s.started {
      CloseToolObeys(s, c);
      var closed, t := CloseTool(s), CloseTool(s.(stopSent := true));
      assert t.events == closed.events;
      CloseReasoningObeys(t.state, Fold(Obey, c, t.events));
      ObeyInTurn(c, t.events, CloseReasoning(t.state).events, MessageStop(FinishReason(s.finish, s.hasTools), s.usage));
    }
  }

  lemma OpenToolObeys(s: State, c: Contract, f: Fragment)
    requires Mirrored(s, c) && s.started && f.index !in s.phase
    ensures var r := OpenTool(s, f); var d := Fold(Obey, c, r.events);
            && d == Keeping(true, s.stopSent, Some(f.index + 1), false)
            && (f.index >= 0 ==> Mirrored(r.state, d))
            && r.state.started && r.state.cur == f.index && f.index in r.state.phase && !EndsInStop(r.events)
  {
    CloseToolObeys(s, c);
    var t := CloseTool(s);
    CloseReasoningObeys(t.state, Fold(Obey, c, t.events));
    ObeyInTurn(c, t.events, CloseReasoning(s).events, ToolUseStart(f.index + 1, f.id, f.name));
  }

  lemma OpeningObeys(s: State, c: Contract, f: Fragment)
    requires s.started && Mirrored(s, c) && OnCall(s, f).ok
    ensures var o := Opening(s, f); var d := Fold(Obey, c, o.events);
            && d.Keeping? && d.started && d.tool == Some(f.index + 1) && o.state.started && !EndsInStop(o.events)
            && o.state.cur == f.index && (if f.index >= 0 then Mirrored(o.state, d) else f.index in o.state.phase)
  {
    if Lookup(s.phase, f.index, Unseen) == Unseen {
      OpenToolObeys(s.(hasTools := true), c, f);
    }
  }

  lemma CallObeys(s: State, c: Contract, f: Fragment, events: seq<Event>)
    requires s.started && Mirrored(s, c) && OnCall(s, f).ok
    ensures var r := OnCall(s, f); Sound(r.state, Fold(Obey, c, r.events), events + r.events)
  {
    OpeningObeys(s, c, f);
    var o := Opening(s, f);
    var d := Fold(Obey, c, o.events);
    FoldConcat(Obey, c, o.events, InputOf(o.state, f));
    if f.args != "" {
      FoldOne(Obey, d, InputOf(o.state, f)[0]);
    } else if f.index < 0 {
      assert o.events != [];
    }
  }

  /** Which phases an operation leaves: closing the current tool and opening a new one. */
  lemma PhaseAfter(s: State, op: Op)
    requires Step(s, op).ok
    ensures !op.Call? ==> Step(s, op).state.phase == s.phase || Step(s, op).state.phase == CloseTool(s).state.phase
    ensures op.Call? && Lookup(s.phase, op.f.index, Unseen) == Unseen ==>
              Step(s, op).state.phase == CloseTool(s).state.phase[op.f.index := Opened]
    ensures op.Call? && Lookup(s.phase, op.f.index, Unseen) != Unseen ==> Step(s, op).state.phase == s.phase
  {
    if op.Call? {
      CallPhase(s, op.f);
    }
    hide OnCall, FinishReason;
  }

  lemma CallPhase(s: State, f: Fragment)
    requires OnCall(s, f).ok
    ensures OnCall(s, f).state.phase ==
            if Lookup(s.phase, f.index, Unseen) == Unseen then CloseTool(s).state.phase[f.index := Opened] else s.phase
  {
    hide InputOf;
  }

  /** An index once seen stays seen; only a fragment introduces one. */
  lemma SeenIndices(s: State, op: Op)
    requires Step(s, op).ok
    ensures NonNegative(Step(s, op).state) <==> NonNegative(s) && (op.Call? ==> op.f.index >= 0)
  {
    PhaseAfter(s, op);
    SeenInPhase(s, Step(s, op).state, if op.Call? then Some(op.f.index) else None);
  }

  lemma SeenInPhase(s: State, t: State, call: Option<int>)
    requires call.None? ==> t.phase == s.phase || t.phase == CloseTool(s).state.phase
    requires call.Some? && Lookup(s.phase, call.value, Unseen) == Unseen ==>
             t.phase == CloseTool(s).state.phase[call.value := Opened]
    requires call.Some? && Lookup(s.phase, call.value, Unseen) != Unseen ==> t.phase == s.phase
    ensures NonNegative(t) <==> NonNegative(s) && (call.Some? ==> call.value >= 0)
  {
    var c := CloseTool(s).state.phase;
    assert forall k :: k in c <==> k in s.phase || (k >= 0 && k == s.cur);
    assert call.Some? ==> call.value in t.phase;
    assert forall k :: k in s.phase ==> k in t.phase;
  }

  /** After a negative index nothing the decoder does can close its block. */
  lemma LeakStays(s: State, c: Contract, op: Op, events: seq<Event>)
    requires !NonNegative(s) && Sound(s, c, events) && Step(s, op).ok
    ensures var r := Step(s, op); Sound(r.state, Fold(Obey, c, r.events), events + r.events)
  {
    var r := Step(s, op);
    SeenIndices(s, op);
    if c.Violated? {
      ViolatedStays(r.events);
    } else if r.events == [] {
      assert events + r.events == events;
    } else if op.Call? {
      LeakedCall(s, c, op.f);
    } else if op.StopIfFinished? || op.Stop? {
      LeakedStop(s, c);
    } else {
      LeakedDelta(s, c, op);
    }
  }

  lemma LeakedDelta(s: State, c: Contract, op: Op)
    requires c.Keeping? && c.started && c.tool.Some? && s.cur < 0 && s.started
    requires op.Begin? || op.SetUsage? || op.Reason? || op.Content? || op.Finish? || op.Fail?
    ensures var r := Step(s, op); var d := Fold(Obey, c, r.events);
            d.Keeping? && d.started && d.tool == c.tool && r.state.cur == s.cur && r.state.started
                && !EndsInStop(r.events)
  {
    if op.Reason? {
      FoldOne(Obey, c, ThinkingDelta(-1, op.text));
    } else if op.Fail? {
      FoldOne(Obey, c, Error(op.message));
    } else if op.Content? {
      FoldSnoc(Obey, c, CloseReasoning(s).events, TextDelta(0, op.text));
      if s.reasonOpen { FoldOne(Obey, c, CloseReasoning(s).events[0]); }
    }
  }

  lemma LeakedCall(s: State, c: Contract, f: Fragment)
    requires c.Keeping? && c.started && c.tool.Some? && s.cur < 0 && s.started && OnCall(s, f).ok
    ensures var r := OnCall(s, f); var d := Fold(Obey, c, r.events);
            d.Violated? || (d == c && r.state.cur == s.cur && r.state.started && !EndsInStop(r.events))
  {
    if Lookup(s.phase, f.index, Unseen) == Unseen {
      LeakedOpen(s, c, f);
    } else if f.args != "" {
      FoldOne(Obey, c, OnCall(s, f).events[0]);
      assert OnCall(s, f).events == [OnCall(s, f).events[0]];
    }
  }

  lemma LeakedOpen(s: State, c: Contract, f: Fragment)
    requires c.Keeping? && c.started && c.tool.Some? && s.cur < 0 && Lookup(s.phase, f.index, Unseen) == Unseen
    ensures Fold(Obey, c, OnCall(s, f).events).Violated?
  {
    var start := ToolUseStart(f.index + 1, f.id, f.name);
    FoldSnoc(Obey, c, CloseReasoning(s).events, start);
    if s.reasonOpen { FoldOne(Obey, c, CloseReasoning(s).events[0]); }
    var o := Opening(s, f);
    assert o.events == CloseReasoning(s).events + [start];
    FoldConcat(Obey, c, o.events, InputOf(o.state, f));
    ViolatedStays(InputOf(o.state, f));
  }

  lemma LeakedStop(s: State, c: Contract)
    requires c.Keeping? && c.started && c.tool.Some? && s.cur < 0 && Terminate(s).events != []
    ensures Fold(Obey, c, Terminate(s).events).Violated?
  {
    FoldSnoc(Obey, c, CloseReasoning(s).events, MessageStop(FinishReason(s.finish, s.hasTools), s.usage));
    if s.reasonOpen { FoldOne(Obey, c, CloseReasoning(s).events[0]); }
    assert Terminate(s).events == CloseReasoning(s).events + [MessageStop(FinishReason(s.finish, s.hasTools), s.usage)];
  }

  /** One operation, from any reachable state. Before Begin, a chunk does nothing that matters. */
  lemma StepSound(s: State, c: Contract, op: Op, events: seq<Event>)
    requires Sound(s, c, events) && Step(s, op).ok
    requires s.started || op.Begin? || op.Stop? || op.Fail?
    ensures var r := Step(s, op); Sound(r.state, Fold(Obey, c, r.events), events + r.events)
  {
    var r := Step(s, op);
    if !NonNegative(s) {
      LeakStays(s, c, op, events);
    } else {
      match op
      case Begin(id, model) => FoldOne(Obey, c, MessageStart(id, model, NO_USAGE));
      case SetUsage(_) =>
      case Reason(text) => FoldOne(Obey, c, ThinkingDelta(-1, text));
      case Content(text) =>
        CloseReasoningObeys(s, c);
        FoldSnoc(Obey, c, CloseReasoning(s).events, TextDelta(0, text));
      case Call(f) => CallObeys(s, c, f, events);
      case Finish(reason) => CloseToolObeys(s.(finish := Some(reason)), c);
      case StopIfFinished => TerminateObeys(s, c);
      case Stop => TerminateObeys(s, c);
      case Fail(m) => FoldOne(Obey, c, Error(m));
    }
  }

  // ---- Runs ------------------------------------------------------------------------------

  ghost predicate SoundRun(acc: Result) {
    acc.ok && Sound(acc.state, Fold(Obey, FRESH, acc.events), acc.events)
  }

  lemma AdvanceSound(acc: Result, op: Op)
    requires SoundRun(acc) && Advance(acc, op).ok
    requires acc.state.started || op.Begin? || op.Stop? || op.Fail?
    ensures SoundRun(Advance(acc, op))
    ensures acc.state.started || op.Begin? ==> Advance(acc, op).state.started
    ensures NonNegative(Advance(acc, op).state) <==> NonNegative(acc.state) && (op.Call? ==> op.f.index >= 0)
  {
    StepSound(acc.state, Fold(Obey, FRESH, acc.events), op, acc.events);
    FoldConcat(Obey, FRESH, acc.events, Step(acc.state, op).events);
    SeenIndices(acc.state, op);
  }

  lemma {:induction false} RunSound(acc: Result, ops: seq<Op>)
    requires SoundRun(acc) && acc.state.started && RunOps(acc, ops).ok
    ensures SoundRun(RunOps(acc, ops)) && RunOps(acc, ops).state.started
    ensures NonNegative(RunOps(acc, ops).state) <==> NonNegative(acc.state) && NonNegativeCalls(ops)
    decreases |ops|
  {
    if ops != [] {
      if !Advance(acc, ops[0]).ok {
        RefusedStays(Advance(acc, ops[0]), ops[1..]);
      }
      AdvanceSound(acc, ops[0]);
      RunSound(Advance(acc, ops[0]), ops[1..]);
      assert ops == [ops[0]] + ops[1..];
    }
  }

  lemma PayloadSound(acc: Result, p: Payload)
    requires SoundRun(acc) && RunOps(acc, Ops(p)).ok
    ensures SoundRun(RunOps(acc, Ops(p)))
    ensures NonNegative(RunOps(acc, Ops(p)).state) <==> NonNegative(acc.state) && NonNegativeCalls(Ops(p))
  {
    var ops := Ops(p);
    if ops != [] {
      var first := Advance(acc, ops[0]);
      if !first.ok {
        RefusedStays(first, ops[1..]);
      }
      AdvanceSound(acc, ops[0]);
      assert ops == [ops[0]] + ops[1..];
      if p.Chunk? {
        RunSound(first, ops[1..]);
      } else {
        assert ops[1..] == [];
        assert RunOps(acc, ops) == RunOps(first, []);
      }
    }
  }

  lemma {:induction false} StreamSound(acc: Result, ps: seq<Payload>)
    requires SoundRun(acc) && RunOps(acc, AllOps(ps)).ok
    ensures SoundRun(RunOps(acc, AllOps(ps)))
    ensures NonNegative(RunOps(acc, AllOps(ps)).state) <==> NonNegative(acc.state) && NonNegativeCalls(AllOps(ps))
    decreases |ps|
  {
    if ps != [] {
      FoldConcat(Advance, acc, Ops(ps[0]), AllOps(ps[1..]));
      if !RunOps(acc, Ops(ps[0])).ok {
        RefusedStays(RunOps(acc, Ops(ps[0])), AllOps(ps[1..]));
      }
      PayloadSound(acc, ps[0]);
      StreamSound(RunOps(acc, Ops(ps[0])), ps[1..]);
      var xs, ys := Ops(ps[0]), AllOps(ps[1..]);
      assert NonNegativeCalls(xs + ys) <==> NonNegativeCalls(xs) && NonNegativeCalls(ys) by {
        assert forall k :: 0 <= k < |xs| ==> (xs + ys)[k] == xs[k];
        assert forall k :: 0 <= k < |ys| ==> (xs + ys)[|xs| + k] == ys[k];
      }
    }
  }

  // ---- Results ---------------------------------------------------------------------------

  /** Every chunk sequence decoded without error keeps the contract at every point of the run,
      provided no tool call of choice 0 has a negative index. */
  lemma DecoderKeepsContract(ps: seq<Payload>)
    requires Run(ps).ok && NonNegativeCalls(AllOps(ps))
    ensures Respects(Run(ps).events)
  {
    StreamSound(Result(INIT, [], true), ps);
  }

  /** On a stream that ran to its MessageStop the condition is exact. */
  lemma ContractExact(ps: seq<Payload>)
    requires Run(ps).ok && EndsInStop(Run(ps).events)
    ensures Respects(Run(ps).events) <==> NonNegativeCalls(AllOps(ps))
  {
    StreamSound(Result(INIT, [], true), ps);
  }

  /** A call with index -1 is never closed, because -1 also stands for "no tool is open": the stream
      decodes without error and stops with the tool block open. */
  lemma NegativeIndexStaysOpen()
    ensures var call := Choice(0, "", "", [Fragment(-1, "id", "f", "{}")], "stop");
            var ps := [Chunk("c", "m", [call], Absent), Done];
            Run(ps).ok && EndsInStop(Run(ps).events) && !Respects(Run(ps).events)
  {
    var f := Fragment(-1, "id", "f", "{}");
    var call := Choice(0, "", "", [f], "stop");
    var p := Chunk("c", "m", [call], Absent);
    var ps := [p, Done];
    var a, b, c := Begin("c", "m"), Call(f), Finish("stop");
    assert ChoiceOps(call) == [b, c];
    assert [call][..0] == [] && ChoicesOps([]) == [] && ChoicesOps([call]) == [b, c];
    assert Ops(p) == [a, b, c] && Ops(Done) == [Stop];
    assert ps[1..] == [Done] && [Done][1..] == [] && AllOps([]) == [] && AllOps([Done]) == [Stop];
    assert AllOps(ps) == [a, b] + [c, Stop];
    var start := Result(INIT, [], true);
    hide AllOps, Ops, ChoicesOps, ChoiceOps, FinishReason;
    FoldConcat(Advance, start, [a, b], [c, Stop]);
    FoldTwo(Advance, start, a, b);
    FoldTwo(Advance, RunOps(start, [a, b]), c, Stop);
    NegativeRun(start, a, f, c);
    assert AllOps(ps)[1] == b;
    hide Advance;
    ContractExact(ps);
  }

  lemma NegativeRun(start: Result, a: Op, f: Fragment, c: Op)
    requires start == Result(INIT, [], true) && a == Begin("c", "m") && f == Fragment(-1, "id", "f", "{}")
             && c == Finish("stop")
    ensures var r := Advance(Advance(Advance(Advance(start, a), Call(f)), c), Stop); r.ok && EndsInStop(r.events)
  {
    hide FinishReason;
  }

  ghost predicate StopsAreClosed(s: State, events: seq<Event>) {
    && (forall e :: e in events && e.ToolUseStop? ==> Lookup(s.phase, e.index - 1, Unseen) == Closed)
    && (s.cur >= 0 ==> Lookup(s.phase, s.cur, Unseen) == Opened)
  }

  lemma CallStops(s: State, f: Fragment, e: Event)
    requires e in OnCall(s, f).events && e.ToolUseStop?
    ensures s.cur >= 0 && e.index == s.cur + 1 && Lookup(s.phase, f.index, Unseen) == Unseen
  {
    assert e in Opening(s, f).events;
    hide InputOf;
  }

  lemma TerminateStops(s: State, e: Event)
    requires e in Terminate(s).events && e.ToolUseStop?
    ensures s.cur >= 0 && e.index == s.cur + 1 && Terminate(s).state.phase == CloseTool(s).state.phase
  {
    hide FinishReason;
    assert e in CloseTool(s.(stopSent := true)).events;
  }

  lemma StopEvents(s: State, op: Op, e: Event)
    requires e in Step(s, op).events && e.ToolUseStop?
    ensures s.cur >= 0 && e.index == s.cur + 1
    ensures if op.Call? then Lookup(s.phase, op.f.index, Unseen) == Unseen
            else Step(s, op).state.phase == CloseTool(s).state.phase
  {
    hide OnCall, Terminate;
    if op.Call? {
      CallStops(s, op.f, e);
    } else if op.Stop? || op.StopIfFinished? {
      TerminateStops(s, e);
    }
  }

  lemma CurrentStaysOpen(s: State, op: Op)
    requires Step(s, op).ok && (s.cur >= 0 ==> Lookup(s.phase, s.cur, Unseen) == Opened)
    ensures var t := Step(s, op).state; t.cur >= 0 ==> Lookup(t.phase, t.cur, Unseen) == Opened
  {
    hide FinishReason;
    if op.Call? {
      CallPhase(s, op.f);
      CallCurrent(s, op.f);
    }
    hide OnCall;
  }

  lemma CallCurrent(s: State, f: Fragment)
    requires OnCall(s, f).ok
    ensures OnCall(s, f).state.cur == if Lookup(s.phase, f.index, Unseen) == Unseen then f.index else s.cur
  {
    hide InputOf;
  }

  lemma {:induction false} StopsStayClosed(s: State, events: seq<Event>, op: Op)
    requires StopsAreClosed(s, events) && Step(s, op).ok
    ensures StopsAreClosed(Step(s, op).state, events + Step(s, op).events)
  {
    PhaseAfter(s, op);
    CurrentStaysOpen(s, op);
    var r := Step(s, op);
    forall e | e in events + r.events && e.ToolUseStop?
      ensures Lookup(r.state.phase, e.index - 1, Unseen) == Closed
    {
      if e !in events {
        StopEvents(s, op, e);
      }
    }
  }

  lemma {:induction false} RunStopsClosed(acc: Result, ops: seq<Op>)
    requires acc.ok && StopsAreClosed(acc.state, acc.events) && RunOps(acc, ops).ok
    ensures StopsAreClosed(RunOps(acc, ops).state, RunOps(acc, ops).events)
    decreases |ops|
  {
    if ops != [] {
      if !Advance(acc, ops[0]).ok {
        RefusedStays(Advance(acc, ops[0]), ops[1..]);
      }
      StopsStayClosed(acc.state, acc.events, ops[0]);
      RunStopsClosed(Advance(acc, ops[0]), ops[1..]);
    }
  }

  lemma {:induction false} ClosedCallRefused(acc: Result, ops: seq<Op>, k: nat)
    requires k < |ops| && ops[k].Call?
    requires acc.ok ==> Lookup(acc.state.phase, ops[k].f.index, Unseen) == Closed
    requires acc.ok && acc.state.cur >= 0 ==> Lookup(acc.state.phase, acc.state.cur, Unseen) == Opened
    ensures !RunOps(acc, ops).ok
    decreases |ops|
  {
    var next := Advance(acc, ops[0]);
    if !acc.ok || k == 0 {
      RefusedStays(next, ops[1..]);
    } else {
      if next.ok {
        PhaseAfter(acc.state, ops[0]);
        CurrentStaysOpen(acc.state, ops[0]);
      }
      ClosedCallRefused(next, ops[1..], k - 1);
    }
  }

  /** Once the stop of a tool block was emitted, any further fragment for its index is a decode
      error, wherever it sits in whatever payload comes next. */
  lemma ClosedIndexRejected(ps: seq<Payload>, p: Payload, stop: Event, k: nat)
    requires Run(ps).ok && stop in Run(ps).events && stop.ToolUseStop?
    requires k < |Ops(p)| && Ops(p)[k].Call? && Ops(p)[k].f.index == stop.index - 1
    ensures !RunOps(Run(ps), Ops(p)).ok
  {
    RunStopsClosed(Result(INIT, [], true), AllOps(ps));
    ClosedCallRefused(Run(ps), Ops(p), k);
  }
}
