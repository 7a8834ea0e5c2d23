/** The contract of the canonical event stream (internal/protocol/translate/ir.go). */
module StreamContract {
  import opened Folds
  import opened Ir

  /** One MessageStart, before everything but errors; tool blocks never overlap and their input lies
      between their own start and stop; one MessageStop, when no tool and no thinking is open. */
  datatype Contract = Violated | Keeping(started: bool, stopped: bool, tool: Option<int>, thinking: bool)

  const FRESH := Keeping(false, false, None, false)

  function Obey(c: Contract, e: Event): Contract {
    if c.Violated? || (!c.started && !e.MessageStart? && !e.Error?)
        then (if c.Keeping? && e.Error? then c else Violated)
    else match e
      case MessageStart(_, _, _) => if c.started then Violated else c.(started := true)
      case TextDelta(_, _) => c
      case ThinkingDelta(_, _) => c.(thinking := true)
      case ThinkingDone(_, _, _, _) => c.(thinking := false)
      case ToolUseStart(index, _, _) => if c.tool.None? then c.(tool := Some(index)) else Violated
      case ToolInputDelta(index, _, _, _) => if c.tool == Some(index) then c else Violated
      case ToolUseStop(index, _, _) => if c.tool == Some(index) then c.(tool := None) else Violated
      case MessageStop(_, _) => if !c.stopped && c.tool.None? && !c.thinking then c.(stopped := true) else Violated
      case Error(_) => c
  }

  predicate Respects(events: seq<Event>) {
    !Fold(Obey, FRESH, events).Violated?
  }

  lemma {:induction false} ViolatedStays(events: seq<Event>)
    ensures Fold(Obey, Violated, events) == Violated
  {
    if events != [] {
      ViolatedStays(events[1..]);
    }
  }

  /** Every prefix of a stream that respects the contract respects it. */
  lemma PrefixRespects(xs: seq<Event>, ys: seq<Event>)
    requires Respects(xs + ys)
    ensures Respects(xs)
  {
    FoldConcat(Obey, FRESH, xs, ys);
    if Fold(Obey, FRESH, xs).Violated? {
      ViolatedStays(ys);
    }
  }
}
