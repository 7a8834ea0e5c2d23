/** OpenAI Chat Completions SSE to IR events (internal/protocol/translate/stream_openai_chat.go). */
module ChatDecoder {
  import opened Folds
  import opened TokenUsage
  import opened Ir

  // ---- Wire ------------------------------------------------------------------------------

  datatype Fragment = Fragment(index: int, id: string, name: string, args: string)

  /** Null and empty strings are treated alike by the decoder, so both are "" here. */
  datatype Choice = Choice(index: int, reasoning: string, content: string, toolCalls: seq<Fragment>, finish: string)

  datatype Payload =
    | Empty
    | Done
    | Garbage
    | ErrorPayload(kind: string, message: string, extra: Field<ChatUsage>)
    | Chunk(id: string, model: string, choices: seq<Choice>, usage: Field<ChatUsage>)

  // ---- Specification ---------------------------------------------------------------------

  /** A payload is a short program of these operations. */
  datatype Op =
    | Begin(id: string, model: string)
    | SetUsage(usage: Usage)
    | Reason(text: string)
    | Content(text: string)
    | Call(f: Fragment)
    | Finish(reason: string)
    | StopIfFinished
    | Stop
    | Fail(message: string)
    | Reject

  datatype Phase = Unseen | Opened | Closed

  datatype State = State(started: bool, finish: Option<string>, hasTools: bool, phase: map<int, Phase>, cur: int,
                         ids: map<int, string>, names: map<int, string>, usage: Usage, stopSent: bool, reasonOpen: bool)

  datatype Result = Result(state: State, events: seq<Event>, ok: bool)

  const INIT := State(false, None, false, map[], -1, map[], map[], NO_USAGE, false, false)

  function Lookup<V>(m: map<int, V>, k: int, zero: V): V {
    if k in m then m[k] else zero
  }

  function CallOps(fs: seq<Fragment>): seq<Op> {
    seq(|fs|, k requires 0 <= k < |fs| => Call(fs[k]))
  }

  function DeltaOps(c: Choice): seq<Op> {
    (if c.reasoning != "" then [Reason(c.reasoning)] else []) + (if c.content != "" then [Content(c.content)] else [])
  }

  function ChoiceOps(c: Choice): seq<Op> {
    if c.index != 0 then []
    else
      DeltaOps(c) + CallOps(c.toolCalls) + (if c.finish != "" then [Finish(c.finish)] else [])
  }

  function ChoicesOps(cs: seq<Choice>): seq<Op> {
    if cs == [] then [] else ChoicesOps(cs[..|cs| - 1]) + ChoiceOps(cs[|cs| - 1])
  }

  function HeadOps(id: string, model: string, usage: Field<ChatUsage>): seq<Op> {
    [Begin(id, model)] + (if usage.Absent? then [] else [SetUsage(ParseChat(usage))])
  }

  function Ops(p: Payload): seq<Op> {
    match p
    case Empty => []
    case Done => [Stop]
    case Garbage => [Reject]
    case ErrorPayload(kind, message, _) => [Fail(kind + ": " + message)]
    case Chunk(id, model, choices, usage) =>
      HeadOps(id, model, usage) + ChoicesOps(choices) + (if usage.Absent? then [] else [StopIfFinished])
  }

  function FinishReason(finish: Option<string>, hasTools: bool): StopReason {
    if finish.None? then (if hasTools then ToolUse else OtherStop)
    else if finish.value == "stop" then (if hasTools then ToolUse else EndTurn)
    else if finish.value == "length" then MaxTokens
    else if finish.value == "tool_calls" || finish.value == "function_call" then ToolUse
    else if finish.value == "content_filter" then ContentFilter
    else OtherStop
  }

  function CloseTool(s: State): Result {
    if s.cur < 0 then Result(s, [], true)
    else Result(s.(cur := -1, phase := s.phase[s.cur := Closed]),
                [ToolUseStop(s.cur + 1, Lookup(s.ids, s.cur, ""), Lookup(s.names, s.cur, ""))], true)
  }

  function CloseReasoning(s: State): Result {
    if s.reasonOpen then Result(s.(reasonOpen := false), [ThinkingDone(-1, "", "", NoPayload)], true)
    else Result(s, [], true)
  }

  function Terminate(s: State): Result {
    if s.stopSent || !s.started then Result(s, [], true)
    else
      var c := CloseTool(s.(stopSent := true));
      var r := CloseReasoning(c.state);
      Result(r.state, c.events + r.events + [MessageStop(FinishReason(s.finish, s.hasTools), s.usage)], true)
  }

  function OpenTool(s: State, f: Fragment): Result {
    var c := CloseTool(s);
    var t := c.state.(phase := c.state.phase[f.index := Opened], cur := f.index,
                      ids := s.ids[f.index := f.id], names := s.names[f.index := f.name]);
    var r := CloseReasoning(t);
    Result(r.state, c.events + r.events + [ToolUseStart(f.index + 1, f.id, f.name)], true)
  }

  /** Later fragments fill in an id or a name the first one lacked. */
  function FillIn(s: State, f: Fragment): State {
    s.(ids := if Lookup(s.ids, f.index, "") == "" && f.id != "" then s.ids[f.index := f.id] else s.ids,
       names := if Lookup(s.names, f.index, "") == "" && f.name != "" then s.names[f.index := f.name] else s.names)
  }

  function Opening(s: State, f: Fragment): Result {
    if Lookup(s.phase, f.index, Unseen) == Unseen then OpenTool(s.(hasTools := true), f)
    else Result(FillIn(s.(hasTools := true), f), [], true)
  }

  function InputOf(s: State, f: Fragment): seq<Event> {
    if f.args == "" then []
    else [ToolInputDelta(f.index + 1, Lookup(s.ids, f.index, ""), Lookup(s.names, f.index, ""), f.args)]
  }

  function OnCall(s: State, f: Fragment): Result {
    if Lookup(s.phase, f.index, Unseen) == Closed then Result(s.(hasTools := true), [], false)
    else
      var o := Opening(s, f);
      Result(o.state, o.events + InputOf(o.state, f), true)
  }

  function Step(s: State, op: Op): Result {
    match op
    case Begin(id, model) =>
      if s.started then Result(s, [], true) else Result(s.(started := true), [MessageStart(id, model, NO_USAGE)], true)
    case SetUsage(usage) => Result(s.(usage := usage), [], true)
    case Reason(text) => Result(s.(reasonOpen := true), [ThinkingDelta(-1, text)], true)
    case Content(text) =>
      var r := CloseReasoning(s);
      Result(r.state, r.events + [TextDelta(0, text)], true)
    case Call(f) => OnCall(s, f)
    case Finish(reason) => CloseTool(s.(finish := Some(reason)))
    case StopIfFinished => if s.finish.Some? then Terminate(s) else Result(s, [], true)
    case Stop => Terminate(s)
    case Fail(message) => Result(s, [Error(message)], true)
    case Reject => Result(s, [], false)
  }

  /** A run stops changing once an operation is refused. */
  function Advance(acc: Result, op: Op): Result {
    if !acc.ok then acc
    else
      var o := Step(acc.state, op);
      Result(o.state, acc.events + o.events, o.ok)
  }

  function RunOps(acc: Result, ops: seq<Op>): Result {
    Fold(Advance, acc, ops)
  }

  function AllOps(ps: seq<Payload>): seq<Op> {
    if ps == [] then [] else Ops(ps[0]) + AllOps(ps[1..])
  }

  function Run(ps: seq<Payload>): Result {
    RunOps(Result(INIT, [], true), AllOps(ps))
  }

  lemma {:induction false} RefusedStays(acc: Result, ops: seq<Op>)
    requires !acc.ok
    ensures RunOps(acc, ops) == acc
  {
    if ops != [] {
      RefusedStays(acc, ops[1..]);
    }
  }

  // ---- Implementation --------------------------------------------------------------------

  class ChatStreamIn {
    var started: bool
    var finish: Option<string>
    var hasTools: bool
    var toolState: map<int, Phase>
    var curTool: int
    var toolIDs: map<int, string>
    var toolNames: map<int, string>
    var usage: Usage
    var stopSent: bool
    var reasonOpen: bool

    ghost function Abs(): State
      reads this
    {
      State(started, finish, hasTools, toolState, curTool, toolIDs, toolNames, usage, stopSent, reasonOpen)
    }

    constructor ()
      ensures Abs() == INIT
    {
      started, finish, hasTools, toolState, curTool := false, None, false, map[], -1;
      toolIDs, toolNames, usage, stopSent, reasonOpen := map[], map[], NO_USAGE, false, false;
    }

    method CloseCurrentTool() returns (out: seq<Event>)
      modifies this
      ensures Result(Abs(), out, true) == CloseTool(old(Abs()))
    {
      if curTool < 0 {
        return [];
      }
      var i := curTool;
      curTool := -1;
      toolState := toolState[i := Closed];
      out := [ToolUseStop(i + 1, Lookup(toolIDs, i, ""), Lookup(toolNames, i, ""))];
    }

    method FinishIfNeeded() returns (out: seq<Event>)
      modifies this
      ensures Result(Abs(), out, true) == Terminate(old(Abs()))
    {
      if stopSent || !started {
        return [];
      }
      stopSent := true;
      out := CloseCurrentTool();
      if reasonOpen {
        reasonOpen := false;
        out := out + [ThinkingDone(-1, "", "", NoPayload)];
      }
      out := out + [MessageStop(FinishReason(finish, hasTools), usage)];
    }

    method StartCall(f: Fragment) returns (out: seq<Event>)
      modifies this
      ensures Result(Abs(), out, true) == OpenTool(old(Abs()), f)
    {
      out := CloseCurrentTool();
      toolState := toolState[f.index := Opened];
      curTool := f.index;
      toolIDs := toolIDs[f.index := f.id];
      toolNames := toolNames[f.index := f.name];
      if reasonOpen {
        reasonOpen := false;
        out := out + [ThinkingDone(-1, "", "", NoPayload)];
      }
      out := out + [ToolUseStart(f.index + 1, f.id, f.name)];
    }

    method OnFragment(f: Fragment) returns (out: seq<Event>, ok: bool)
      modifies this
      ensures Result(Abs(), out, ok) == OnCall(old(Abs()), f)
    {
      out, ok := [], true;
      hasTools := true;
      var phase := Lookup(toolState, f.index, Unseen);
      if phase == Closed {
        return [], false;
      } else if phase == Unseen {
        out := StartCall(f);
      } else {
        if Lookup(toolIDs, f.index, "") == "" && f.id != "" {
          toolIDs := toolIDs[f.index := f.id];
        }
        if Lookup(toolNames, f.index, "") == "" && f.name != "" {
          toolNames := toolNames[f.index := f.name];
        }
      }
      if f.args != "" {
        var id, name := Lookup(toolIDs, f.index, ""), Lookup(toolNames, f.index, "");
        out := out + [ToolInputDelta(f.index + 1, id, name, f.args)];
      }
    }

    method OnFragments(fs: seq<Fragment>, sofar: seq<Event>) returns (out: seq<Event>, ok: bool)
      modifies this
      ensures Result(Abs(), out, ok) == RunOps(Result(old(Abs()), sofar, true), CallOps(fs))
    {
      ghost var start := Result(Abs(), sofar, true);
      out, ok := sofar, true;
      for k := 0 to |fs|
        invariant Result(Abs(), out, true) == RunOps(start, CallOps(fs[..k]))
      {
        FoldSnoc(Advance, start, CallOps(fs[..k]), Call(fs[k]));
        assert CallOps(fs[..k + 1]) == CallOps(fs[..k]) + [Call(fs[k])];
        var more;
        more, ok := OnFragment(fs[k]);
        out := out + more;
        if !ok {
          FoldConcat(Advance, start, CallOps(fs[..k + 1]), CallOps(fs[k + 1..]));
          assert CallOps(fs) == CallOps(fs[..k + 1]) + CallOps(fs[k + 1..]);
          RefusedStays(Result(Abs(), out, false), CallOps(fs[k + 1..]));
          return;
        }
      }
      assert fs[..|fs|] == fs;
    }

    method OnDelta(c: Choice, sofar: seq<Event>) returns (out: seq<Event>)
      modifies this
      ensures Result(Abs(), out, true) == RunOps(Result(old(Abs()), sofar, true), DeltaOps(c))
    {
      out := sofar;
      ghost var start := Result(Abs(), sofar, true);
      ghost var thinking := if c.reasoning != "" then [Reason(c.reasoning)] else [];
      if c.reasoning != "" {
        reasonOpen := true;
        out := out + [ThinkingDelta(-1, c.reasoning)];
        FoldOne(Advance, start, Reason(c.reasoning));
      }
      assert Result(Abs(), out, true) == RunOps(start, thinking);
      if c.content != "" {
        FoldSnoc(Advance, start, thinking, Content(c.content));
        if reasonOpen {
          reasonOpen := false;
          out := out + [ThinkingDone(-1, "", "", NoPayload)];
        }
        out := out + [TextDelta(0, c.content)];
      } else {
        assert DeltaOps(c) == thinking;
      }
    }

    method OnChoice(c: Choice, sofar: seq<Event>) returns (out: seq<Event>, ok: bool)
      modifies this
      ensures Result(Abs(), out, ok) == RunOps(Result(old(Abs()), sofar, true), ChoiceOps(c))
    {
      out, ok := sofar, true;
      if c.index != 0 {
        return;
      }
      ghost var start := Result(Abs(), sofar, true);
      ghost var delta, calls := DeltaOps(c), CallOps(c.toolCalls);
      out := OnDelta(c, out);
      out, ok := OnFragments(c.toolCalls, out);
      FoldConcat(Advance, start, delta, calls);
      if !ok {
        FoldConcat(Advance, start, delta + calls, if c.finish != "" then [Finish(c.finish)] else []);
        RefusedStays(Result(Abs(), out, ok), if c.finish != "" then [Finish(c.finish)] else []);
        return;
      }
      if c.finish != "" {
        FoldSnoc(Advance, start, delta + calls, Finish(c.finish));
        finish := Some(c.finish);
        var closing := CloseCurrentTool();
        out := out + closing;
      } else {
        assert ChoiceOps(c) == delta + calls;
      }
    }

    method OnChoices(cs: seq<Choice>, sofar: seq<Event>) returns (out: seq<Event>, ok: bool)
      modifies this
      ensures Result(Abs(), out, ok) == RunOps(Result(old(Abs()), sofar, true), ChoicesOps(cs))
    {
      ghost var start := Result(Abs(), sofar, true);
      out, ok := sofar, true;
      for k := 0 to |cs|
        invariant Result(Abs(), out, true) == RunOps(start, ChoicesOps(cs[..k]))
      {
        FoldConcat(Advance, start, ChoicesOps(cs[..k]), ChoiceOps(cs[k]));
        assert cs[..k + 1][..k] == cs[..k];
        out, ok := OnChoice(cs[k], out);
        if !ok {
          RefusedPrefix(start, cs, k + 1);
          return;
        }
      }
      assert cs[..|cs|] == cs;
    }

    method OnHead(id: string, model: string, wire: Field<ChatUsage>) returns (out: seq<Event>)
      modifies this
      ensures Result(Abs(), out, true) == RunOps(Result(old(Abs()), [], true), HeadOps(id, model, wire))
    {
      ghost var start := Result(Abs(), [], true);
      out := [];
      if !started {
        started := true;
        out := [MessageStart(id, model, NO_USAGE)];
      }
      FoldOne(Advance, start, Begin(id, model));
      if !wire.Absent? {
        FoldSnoc(Advance, start, [Begin(id, model)], SetUsage(ParseChat(wire)));
        usage := ParseChat(wire);
      } else {
        assert HeadOps(id, model, wire) == [Begin(id, model)];
      }
    }

    method OnChunk(p: Payload) returns (out: seq<Event>, ok: bool)
      requires p.Chunk?
      modifies this
      ensures var r := RunOps(Result(old(Abs()), [], true), Ops(p));
              Abs() == r.state && ok == r.ok && out == if r.ok then r.events else []
    {
      ghost var start := Result(Abs(), [], true);
      ghost var body := HeadOps(p.id, p.model, p.usage) + ChoicesOps(p.choices);
      out := OnHead(p.id, p.model, p.usage);
      out, ok := OnChoices(p.choices, out);
      FoldConcat(Advance, start, HeadOps(p.id, p.model, p.usage), ChoicesOps(p.choices));
      if !ok {
        FoldConcat(Advance, start, body, if p.usage.Absent? then [] else [StopIfFinished]);
        RefusedStays(Result(Abs(), out, ok), if p.usage.Absent? then [] else [StopIfFinished]);
        return [], false;
      }
      if p.usage.Absent? {
        assert Ops(p) == body;
      } else {
        FoldSnoc(Advance, start, body, StopIfFinished);
      }
      if finish.Some? && !p.usage.Absent? {
        var stop := FinishIfNeeded();
        out := out + stop;
      }
    }

    /** One SSE payload. A refused payload yields no events at all. */
    method ToIR(p: Payload) returns (out: seq<Event>, ok: bool)
      modifies this
      ensures var r := RunOps(Result(old(Abs()), [], true), Ops(p));
              Abs() == r.state && ok == r.ok && out == if r.ok then r.events else []
    {
      ghost var start := Result(Abs(), [], true);
      out, ok := [], true;
      match p {
        case Empty =>
        case Done =>
          FoldOne(Advance, start, Stop);
          out := FinishIfNeeded();
        case Garbage =>
          FoldOne(Advance, start, Reject);
          ok := false;
        case ErrorPayload(kind, message, _) =>
          FoldOne(Advance, start, Fail(kind + ": " + message));
          out := [Error(kind + ": " + message)];
        case Chunk(_, _, _, _) =>
          out, ok := OnChunk(p);
      }
    }
  }

  lemma {:induction false} RefusedPrefix(start: Result, cs: seq<Choice>, k: nat)
    requires k <= |cs| && !RunOps(start, ChoicesOps(cs[..k])).ok
    ensures RunOps(start, ChoicesOps(cs)) == RunOps(start, ChoicesOps(cs[..k]))
  {
    if k == |cs| {
      assert cs[..k] == cs;
    } else {
      var shorter := cs[..|cs| - 1];
      assert shorter[..k] == cs[..k];
      RefusedPrefix(start, shorter, k);
      FoldConcat(Advance, start, ChoicesOps(shorter), ChoiceOps(cs[|cs| - 1]));
      RefusedStays(RunOps(start, ChoicesOps(shorter)), ChoiceOps(cs[|cs| - 1]));
    }
  }
}
