/** OpenAI Responses SSE to IR events (internal/protocol/translate/stream_openai_responses.go). */
module ResponsesDecoder {
  import opened Folds
  import opened TokenUsage
  import opened Ir

  // ---- Wire ------------------------------------------------------------------------------

  datatype ItemType = MessageItem | CallItem | ThoughtItem | OtherItem

  datatype WireItem = WireItem(kind: ItemType, id: string, callId: string, name: string, raw: string, summary: string)

  datatype EndType = CompletedEnd | IncompleteEnd | FailedEnd

  datatype WireResponse = WireResponse(status: string, incomplete: Option<string>, error: Option<string>,
                                       usage: Field<ResponsesUsage>)

  datatype Payload =
    | Empty
    | Garbage
    | CreatedPayload(response: Option<(string, string)>)
    | ItemAdded(index: int, item: Option<WireItem>)
    | TextPayload(index: int, itemId: string, delta: string)
    | ThoughtPayload(index: int, itemId: string, delta: string)
    | ArgsPayload(index: int, itemId: string, delta: string)
    | ItemDone(index: int, itemId: string, item: Option<WireItem>)
    | EndPayload(kind: EndType, final: Option<WireResponse>)
    | ErrorPayload(message: Option<string>)
    | OtherPayload

  // ---- Specification ---------------------------------------------------------------------

  datatype ItemState = ItemState(kind: ContentKind, callId: string, name: string)

  datatype State = State(started: bool, items: map<int, ItemState>, byId: map<string, int>, hasTool: bool,
                         stopped: bool)

  datatype Result = Result(state: State, events: seq<Event>, ok: bool)

  const INIT := State(false, map[], map[], false, false)

  function KindOf(t: ItemType): ContentKind {
    match t
    case MessageItem => KindText
    case CallItem => KindToolUse
    case ThoughtItem => KindThinking
    case OtherItem => NoKind
  }

  /** A known item id wins over the output index. */
  function IndexFor(s: State, index: int, itemId: string): int {
    if itemId != "" && itemId in s.byId then s.byId[itemId] else index
  }

  function StatusStop(status: string, incomplete: Option<string>, hasTool: bool): StopReason {
    if status == "completed" || status == "" then (if hasTool then ToolUse else EndTurn)
    else if status == "incomplete" && incomplete == Some("max_output_tokens") then MaxTokens
    else if status == "incomplete" && incomplete == Some("content_filter") then ContentFilter
    else OtherStop
  }

  function OnAdded(s: State, index: int, it: WireItem): Result {
    var t := s.(items := s.items[index := ItemState(KindOf(it.kind), it.callId, it.name)],
                byId := if it.id != "" then s.byId[it.id := index] else s.byId,
                hasTool := s.hasTool || it.kind.CallItem?);
    Result(t, if it.kind.CallItem? then [ToolUseStart(index, it.callId, it.name)] else [], true)
  }

  function OnDone(s: State, at: int, it: WireItem): Result {
    if at !in s.items then Result(s, [], true)
    else match s.items[at].kind
      case KindToolUse =>
        var was := s.items[at];
        var st := was.(callId := OrElse(was.callId, it.callId), name := OrElse(was.name, it.name));
        Result(s.(items := s.items[at := st]), [ToolUseStop(at, st.callId, st.name)], true)
      case KindThinking => Result(s, [ThinkingDone(at, it.summary, "", ReasoningPayload(it))], true)
      case _ => Result(s, [], true)
  }

  /** The completed item is the payload; it is a reasoning item when its own type says so. */
  function ReasoningPayload(it: WireItem): Opaque {
    if it.kind.ThoughtItem? then ReasoningItem(it.raw) else ForeignPayload
  }

  function OnEnd(s: State, kind: EndType, final: Option<WireResponse>): Result {
    if s.stopped then Result(s, [], true)
    else
      var t := s.(stopped := true);
      if final.Some? && kind.FailedEnd? && final.value.error.Some?
      then Result(t, [Error(final.value.error.value)], true)
      else
        var stop := if final.Some? then StatusStop(final.value.status, final.value.incomplete, s.hasTool)
                    else if s.hasTool then ToolUse else EndTurn;
        Result(t, [MessageStop(stop, if final.Some? then ParseResponses(final.value.usage) else NO_USAGE)], true)
  }

  function Step(s: State, p: Payload): Result {
    match p
    case Garbage => Result(s, [], false)
    case CreatedPayload(response) =>
      if s.started then Result(s, [], true)
      else
        var (id, model) := if response.Some? then response.value else ("", "");
        Result(s.(started := true), [MessageStart(id, model, NO_USAGE)], true)
    case ItemAdded(index, item) => if item.None? then Result(s, [], true) else OnAdded(s, index, item.value)
    case TextPayload(index, itemId, delta) => Result(s, [TextDelta(IndexFor(s, index, itemId), delta)], true)
    case ThoughtPayload(index, itemId, delta) => Result(s, [ThinkingDelta(IndexFor(s, index, itemId), delta)], true)
    case ArgsPayload(index, itemId, delta) =>
      var at := IndexFor(s, index, itemId);
      var known := at in s.items;
      var id, name := if known then s.items[at].callId else "", if known then s.items[at].name else "";
      Result(s, [ToolInputDelta(at, id, name, delta)], true)
    case ItemDone(index, itemId, item) =>
      if item.None? then Result(s, [], true) else OnDone(s, IndexFor(s, index, itemId), item.value)
    case EndPayload(kind, final) => OnEnd(s, kind, final)
    case ErrorPayload(message) => Result(s, [Error(if message.Some? then message.value else "upstream error")], true)
    case _ => Result(s, [], true)
  }

  // ---- Implementation --------------------------------------------------------------------

  class ResponsesStreamIn {
    var started: bool
    var id: string
    var model: string
    var items: map<int, ItemState>
    var byID: map<string, int>
    var hasTool: bool
    var stopped: bool

    ghost predicate Valid()
      reads this
    {
      !started ==> id == "" && model == ""
    }

    ghost function Abs(): State
      reads this
    {
      State(started, items, byID, hasTool, stopped)
    }

    constructor ()
      ensures Valid() && Abs() == INIT
    {
      started, id, model, items, byID, hasTool, stopped := false, "", "", map[], map[], false, false;
    }

    function Locate(index: int, itemId: string): (at: int)
      reads this
      ensures at == IndexFor(Abs(), index, itemId)
    {
      if itemId != "" && itemId in byID then byID[itemId] else index
    }

    method Added(index: int, it: WireItem) returns (out: seq<Event>)
      requires Valid()
      modifies this
      ensures Valid() && Result(Abs(), out, true) == OnAdded(old(Abs()), index, it)
    {
      out := [];
      var st := ItemState(NoKind, it.callId, it.name);
      if it.id != "" {
        byID := byID[it.id := index];
      }
      match it.kind {
        case MessageItem => st := st.(kind := KindText);
        case CallItem =>
          st := st.(kind := KindToolUse);
          hasTool := true;
          out := [ToolUseStart(index, st.callId, st.name)];
        case ThoughtItem => st := st.(kind := KindThinking);
        case OtherItem =>
      }
      items := items[index := st];
    }

    method Done(at: int, it: WireItem) returns (out: seq<Event>)
      requires Valid()
      modifies this
      ensures Valid() && Result(Abs(), out, true) == OnDone(old(Abs()), at, it)
    {
      out := [];
      if at !in items {
        return;
      }
      var st := items[at];
      if st.kind == KindToolUse {
        if st.callId == "" {
          st := st.(callId := it.callId);
        }
        if st.name == "" {
          st := st.(name := it.name);
        }
        items := items[at := st];
        out := [ToolUseStop(at, st.callId, st.name)];
      } else if st.kind == KindThinking {
        out := [ThinkingDone(at, it.summary, "", ReasoningPayload(it))];
      }
    }

    method End(kind: EndType, final: Option<WireResponse>) returns (out: seq<Event>)
      requires Valid()
      modifies this
      ensures Valid() && Result(Abs(), out, true) == OnEnd(old(Abs()), kind, final)
    {
      if stopped {
        return [];
      }
      stopped := true;
      var stop, usage := EndTurn, NO_USAGE;
      if final.Some? {
        stop := StatusStop(final.value.status, final.value.incomplete, hasTool);
        if kind.FailedEnd? && final.value.error.Some? {
          return [Error(final.value.error.value)];
        }
        usage := ParseResponses(final.value.usage);
      } else if hasTool {
        stop := ToolUse;
      }
      out := [MessageStop(stop, usage)];
    }

    method ToIR(p: Payload) returns (out: seq<Event>, ok: bool)
      requires Valid()
      modifies this
      ensures Valid() && Result(Abs(), out, ok) == Step(old(Abs()), p)
    {
      out, ok := [], true;
      match p {
        case Garbage => ok := false;
        case CreatedPayload(response) =>
          if !started {
            started := true;
            if response.Some? {
              id, model := response.value.0, response.value.1;
            }
            out := [MessageStart(id, model, NO_USAGE)];
          }
        case ItemAdded(index, item) =>
          if item.Some? {
            out := Added(index, item.value);
          }
        case TextPayload(index, itemId, delta) => out := [TextDelta(Locate(index, itemId), delta)];
        case ThoughtPayload(index, itemId, delta) => out := [ThinkingDelta(Locate(index, itemId), delta)];
        case ArgsPayload(index, itemId, delta) =>
          var at := Locate(index, itemId);
          var callId, name := "", "";
          if at in items {
            callId, name := items[at].callId, items[at].name;
          }
          out := [ToolInputDelta(at, callId, name, delta)];
        case ItemDone(index, itemId, item) =>
          var at := Locate(index, itemId);
          if item.Some? {
            out := Done(at, item.value);
          }
        case EndPayload(kind, final) => out := End(kind, final);
        case ErrorPayload(message) => out := [Error(if message.Some? then message.value else "upstream error")];
        case _ =>
      }
    }
  }
}
