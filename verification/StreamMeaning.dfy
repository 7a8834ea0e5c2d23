/** What a stream says, and when re-encoding it says the same: the text, and the ordered tool calls. */
module StreamMeaning {
  import opened Folds
  import opened Ir
  import opened StreamContract

  datatype Call = Call(id: string, name: string, args: string)

  datatype Meaning = Meaning(text: string, calls: seq<Call>)

  const SILENCE := Meaning("", [])

  /** Appends to the arguments of the last call. */
  function Extend(calls: seq<Call>, fragment: string): seq<Call> {
    if calls == [] then []
    else calls[|calls| - 1 := calls[|calls| - 1].(args := calls[|calls| - 1].args + fragment)]
  }

  /** The meaning of a contract-respecting event stream: tool input belongs to the open tool. */
  function Mean(m: Meaning, e: Event): Meaning {
    match e
    case TextDelta(_, text) => m.(text := m.text + text)
    case ToolUseStart(_, callId, name) => m.(calls := m.calls + [Call(callId, name, "")])
    case ToolInputDelta(_, _, _, fragment) => m.(calls := Extend(m.calls, fragment))
    case _ => m
  }

  /** A missing call id is replaced by a generated one; empty arguments may be reported as "{}". */
  predicate SameCall(source: Call, got: Call) {
    got.name == source.name && got.id != "" && (source.id != "" ==> got.id == source.id)
    && OrElse(got.args, "{}") == OrElse(source.args, "{}")
  }

  predicate Agree(source: seq<Call>, got: seq<Call>) {
    |source| == |got| && forall k :: 0 <= k < |source| ==> SameCall(source[k], got[k])
  }

  /** The block-structured encoders. They differ in which finished-thinking payload opens a block. */
  datatype Target = ToAnthropic | ToResponses

  /** Events that make a block-structured encoder close an open tool block. */
  predicate Interrupts(target: Target, e: Event) {
    || e.TextDelta? || e.ThinkingDelta? || e.Terminal()
    || (e.ThinkingDone? && (if target.ToAnthropic? then e.payload.Redacted? else e.payload.ReasoningItem?))
  }

  /** A reading of the event stream alone: the contract, the meaning, whether the open tool was
      interrupted, and how often input arrived for an interrupted tool. */
  datatype Track = Track(target: Target, contract: Contract, meaning: Meaning, broken: bool, splits: nat)

  function Follow(t: Track, i: Input): Track {
    var e := i.event;
    var broken := if e.ToolUseStart? || e.ToolInputDelta? || e.ToolUseStop? then false
                  else t.broken || (Interrupts(t.target, e) && t.contract.Keeping? && t.contract.tool.Some?);
    Track(t.target, Obey(t.contract, e), Mean(t.meaning, e), broken,
          if e.ToolInputDelta? && t.broken then t.splits + 1 else t.splits)
  }

  function Overview(target: Target, ins: seq<Input>): Track {
    Fold(Follow, Track(target, FRESH, SILENCE, false, 0), ins)
  }

  function Events(ins: seq<Input>): seq<Event> {
    seq(|ins|, k requires 0 <= k < |ins| => ins[k].event)
  }

  lemma {:induction false} FollowReads(t: Track, ins: seq<Input>)
    ensures var r := Fold(Follow, t, ins);
            r.target == t.target && r.contract == Fold(Obey, t.contract, Events(ins))
                && r.meaning == Fold(Mean, t.meaning, Events(ins))
    decreases |ins|
  {
    if ins != [] {
      FollowReads(Follow(t, ins[0]), ins[1..]);
      assert Events(ins)[1..] == Events(ins[1..]);
    }
  }

  lemma {:induction false} ViolatedForGood(t: Track, ins: seq<Input>)
    requires t.contract.Violated?
    ensures Fold(Follow, t, ins).contract.Violated?
    decreases |ins|
  {
    if ins != [] {
      ViolatedForGood(Follow(t, ins[0]), ins[1..]);
    }
  }

  lemma AgreeExtend(source: seq<Call>, got: seq<Call>, fragment: string)
    requires Agree(source, got) && source != [] && source[|source| - 1].args == got[|got| - 1].args
    ensures Agree(Extend(source, fragment), Extend(got, fragment))
    ensures Extend(source, fragment)[|source| - 1].args == Extend(got, fragment)[|got| - 1].args
  {
  }

  /** What an encoder's client has heard so far, against the reading of the stream: the same text,
      one extra call per split, and the same calls while nothing was split. `open` says that the
      last call is still receiving input, so its arguments must match to the letter. */
  ghost predicate Conveys(t: Track, m: Meaning, open: bool) {
    && m.text == t.meaning.text
    && |m.calls| == |t.meaning.calls| + t.splits
    && (open ==> t.meaning.calls != [])
    && (t.splits == 0 ==> Agree(t.meaning.calls, m.calls))
    && (t.splits == 0 && open ==> m.calls[|m.calls| - 1].args == t.meaning.calls[|m.calls| - 1].args)
  }

  // ---- Readings of an upstream, against the events decoded from it ----------------------------------

  /** A call, filed under the index its upstream gives it. */
  datatype Indexed = Indexed(index: int, call: Call)

  /** The last call filed under an index. */
  function Position(cs: seq<Indexed>, index: int): (p: int)
    ensures -1 <= p < |cs|
    ensures p >= 0 ==> cs[p].index == index
    ensures p < 0 <==> forall k :: 0 <= k < |cs| ==> cs[k].index != index
  {
    if cs == [] then -1
    else if cs[|cs| - 1].index == index then |cs| - 1
    else Position(cs[..|cs| - 1], index)
  }

  function FollowEvent(t: Track, e: Event): Track {
    Follow(t, Input(e, "", ""))
  }

  lemma {:induction false} FollowEvents(t: Track, ins: seq<Input>)
    ensures Fold(Follow, t, ins) == Fold(FollowEvent, t, Events(ins))
    decreases |ins|
  {
    if ins != [] {
      FollowEvents(Follow(t, ins[0]), ins[1..]);
      assert Events(ins)[1..] == Events(ins[1..]);
    }
  }

  lemma AtMostOne(t: Track, events: seq<Event>)
    requires |events| <= 1
    ensures Fold(FollowEvent, t, events) == if events == [] then t else FollowEvent(t, events[0])
  {
    if events != [] {
      assert events == [events[0]];
      FoldOne(FollowEvent, t, events[0]);
    }
  }

  lemma {:induction false} StaysUnfit(t: Track, es: seq<Event>)
    requires t.contract.Violated?
    ensures Fold(FollowEvent, t, es).contract.Violated? && Fold(FollowEvent, t, es).target == t.target
    decreases |es|
  {
    if es != [] { StaysUnfit(FollowEvent(t, es[0]), es[1..]); }
  }
}
