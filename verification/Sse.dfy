/** The relay's SSE line parser and the frames it reads
    (internal/proxy/handler.go, internal/provider/bedrock_invoke.go). */
module Sse {
  import opened Folds

  datatype SseEvent = SseEvent(event: string, data: string)

  // ---- Lines ----------------------------------------------------------------------------------

  function DropCR(line: string): string {
    if line != "" && line[|line| - 1] == '\r' then line[..|line| - 1] else line
  }

  /** The position of the first line feed, or the length. */
  function LineEnd(s: string): (i: nat)
    ensures i <= |s| && (i < |s| ==> s[i] == '\n')
    ensures forall k :: 0 <= k < i ==> s[k] != '\n'
  {
    if s == "" || s[0] == '\n' then 0 else 1 + LineEnd(s[1..])
  }

  /** Lines as a scanner yields them: without their ending, and a last one that may lack it. */
  function Lines(s: string): seq<string>
    decreases |s|
  {
    if s == "" then []
    else
      var i := LineEnd(s);
      [DropCR(s[..i])] + if i == |s| then [] else Lines(s[i + 1..])
  }

  // ---- The parser -----------------------------------------------------------------------------

  predicate IsSpace(c: char) {
    c == ' ' || c == '\t' || c == '\n' || c == '\r' || c == '\U{0B}' || c == '\U{0C}' || c == '\U{85}' || c == '\U{A0}'
    || c == '\U{1680}' || '\U{2000}' <= c <= '\U{200A}' || c == '\U{2028}' || c == '\U{2029}' || c == '\U{202F}'
    || c == '\U{205F}' || c == '\U{3000}'
  }

  function TrimLeft(s: string): string {
    if s != "" && IsSpace(s[0]) then TrimLeft(s[1..]) else s
  }

  function TrimRight(s: string): string {
    if s != "" && IsSpace(s[|s| - 1]) then TrimRight(s[..|s| - 1]) else s
  }

  function TrimSpace(s: string): string {
    TrimRight(TrimLeft(s))
  }

  /** Trimmed names begin and end with something visible. */
  predicate Trimmed(s: string) {
    s != "" ==> !IsSpace(s[0]) && !IsSpace(s[|s| - 1])
  }

  const EVENT := "event:"
  const DATA := "data:"

  /** Pending event name and data lines, and what was dispatched so far. */
  datatype Parser = Parser(event: string, data: string, out: seq<SseEvent>)

  const FRESH := Parser("", "", [])

  /** A dispatched payload loses its last line feed. */
  function Dispatch(p: Parser): Parser {
    if p.data == "" && p.event == "" then p
    else Parser("", "", p.out + [SseEvent(p.event, if p.data == "" then "" else p.data[..|p.data| - 1])])
  }

  function OnLine(p: Parser, raw: string): Parser {
    var line := DropCR(raw);
    if line == "" then Dispatch(p)
    else if EVENT <= line then p.(event := TrimSpace(line[|EVENT|..]))
    else if DATA <= line then
      var rest := line[|DATA|..];
      p.(data := p.data + (if " " <= rest then rest[1..] else rest) + "\n")
    else p
  }

  /** Every line, and a final dispatch for an unterminated event. */
  function ParseLines(lines: seq<string>): seq<SseEvent> {
    Dispatch(Fold(OnLine, FRESH, lines)).out
  }

  /** A whole body. */
  function Parse(s: string): seq<SseEvent> {
    ParseLines(Lines(s))
  }

  // ---- The printer ----------------------------------------------------------------------------

  /** A frame names its event when it has one. */
  function Frame(f: SseEvent): string {
    (if f.event != "" then "event: " + f.event + "\n" else "") + ("data: " + f.data + "\n" + "\n")
  }

  function Print(fs: seq<SseEvent>): string {
    if fs == [] then "" else Frame(fs[0]) + Print(fs[1..])
  }

  /** What a frame must look like to survive: a trimmed event name and a payload on one line that
      does not end in a carriage return. */
  predicate Printable(f: SseEvent) {
    && Trimmed(f.event) && '\n' !in f.event && '\n' !in f.data
    && (f.data != "" ==> f.data[|f.data| - 1] != '\r')
  }

  // ---- Round trip -----------------------------------------------------------------------------

  lemma {:induction false} LineEndAt(a: string, rest: string)
    requires '\n' !in a
    ensures LineEnd(a + "\n" + rest) == |a|
  {
    var s := a + "\n" + rest;
    if a != "" {
      assert s[1..] == a[1..] + "\n" + rest;
      LineEndAt(a[1..], rest);
    }
  }

  lemma FirstLine(a: string, rest: string)
    requires '\n' !in a
    ensures Lines(a + "\n" + rest) == [DropCR(a)] + Lines(rest)
  {
    var s := a + "\n" + rest;
    LineEndAt(a, rest);
    assert s[..|a|] == a && s[|a| + 1..] == rest;
  }

  lemma {:induction false} TrimRightNothing(s: string)
    requires s != "" ==> !IsSpace(s[|s| - 1])
    ensures TrimRight(s) == s
  {
  }

  lemma EventLine(p: Parser, event: string)
    requires Trimmed(event) && event != "" && '\n' !in event
    ensures DropCR("event: " + event) == "event: " + event
    ensures OnLine(p, "event: " + event) == p.(event := event)
  {
    var line := "event: " + event;
    assert line[|line| - 1] == event[|event| - 1];
    assert EVENT <= line && line[|EVENT|..] == " " + event;
    assert (" " + event)[1..] == event;
    assert TrimLeft(" " + event) == TrimLeft(event) == event;
    TrimRightNothing(event);
  }

  lemma DataLine(p: Parser, data: string)
    requires '\n' !in data && (data != "" ==> data[|data| - 1] != '\r')
    ensures DropCR("data: " + data) == "data: " + data
    ensures OnLine(p, "data: " + data) == p.(data := p.data + data + "\n")
  {
    var line := "data: " + data;
    assert data != "" ==> line[|line| - 1] == data[|data| - 1];
    assert DATA <= line && line[|DATA|..] == " " + data;
    assert (" " + data)[1..] == data;
    assert line[0] != EVENT[0];
  }

  lemma FoldLine(p: Parser, line: string, rest: seq<string>)
    ensures Fold(OnLine, p, [line] + rest) == Fold(OnLine, OnLine(p, line), rest)
  {
    assert ([line] + rest)[1..] == rest;
  }

  lemma BlankLine(event: string, data: string, out: seq<SseEvent>)
    ensures OnLine(Parser(event, data + "\n", out), "") == Parser("", "", out + [SseEvent(event, data)])
  {
    assert (data + "\n")[..|data|] == data;
  }

  /** The data line and the blank line of a frame. */
  lemma {:induction false} DataReads(f: SseEvent, out: seq<SseEvent>, rest: string)
    requires Printable(f)
    ensures var tail := "data: " + f.data + "\n" + ("\n" + rest);
            Fold(OnLine, Parser(f.event, "", out), Lines(tail)) == Fold(OnLine, Parser("", "", out + [f]), Lines(rest))
  {
    hide OnLine, Lines, LineEnd;
    var d, named := "data: " + f.data, Parser(f.event, "", out);
    FirstLine(d, "\n" + rest);
    assert "\n" + rest == "" + "\n" + rest;
    FirstLine("", rest);
    DataLine(named, f.data);
    assert "" + f.data + "\n" == f.data + "\n";
    FoldLine(named, d, [""] + Lines(rest));
    FoldLine(Parser(f.event, f.data + "\n", out), "", Lines(rest));
    BlankLine(f.event, f.data, out);
  }

  /** The parser, fresh, reads one printed frame and is fresh again. */
  lemma {:induction false} FrameReads(f: SseEvent, out: seq<SseEvent>, rest: string)
    requires Printable(f)
    ensures Fold(OnLine, Parser("", "", out), Lines(Frame(f) + rest))
            == Fold(OnLine, Parser("", "", out + [f]), Lines(rest))
  {
    hide OnLine, Lines, LineEnd;
    var tail := "data: " + f.data + "\n" + ("\n" + rest);
    DataReads(f, out, rest);
    if f.event != "" {
      var e := "event: " + f.event;
      EventLine(Parser("", "", out), f.event);
      FirstLine(e, tail);
      FoldLine(Parser("", "", out), e, Lines(tail));
      assert Frame(f) + rest == e + "\n" + tail;
    } else {
      assert Frame(f) + rest == tail;
    }
  }

  lemma NothingReads(out: seq<SseEvent>)
    ensures Fold(OnLine, Parser("", "", out), Lines("")) == Parser("", "", out + [])
  {
    assert out + [] == out;
  }

  predicate AllPrintable(fs: seq<SseEvent>) {
    fs == [] || (Printable(fs[0]) && AllPrintable(fs[1..]))
  }

  lemma Regroup(out: seq<SseEvent>, fs: seq<SseEvent>)
    requires fs != []
    ensures (out + [fs[0]]) + fs[1..] == out + fs
  {
  }

  lemma {:induction false} PrintReads(fs: seq<SseEvent>, out: seq<SseEvent>)
    requires AllPrintable(fs)
    ensures Fold(OnLine, Parser("", "", out), Lines(Print(fs))) == Parser("", "", out + fs)
    decreases |fs|
  {
    if fs == [] {
      NothingReads(out);
    } else {
      hide OnLine, Lines, Frame, Printable, Fold;
      FrameReads(fs[0], out, Print(fs[1..]));
      PrintReads(fs[1..], out + [fs[0]]);
      Regroup(out, fs);
    }
  }

  /** For every list of printable frames the parser dispatches exactly that list, in order. */
  lemma RoundTrip(fs: seq<SseEvent>)
    requires AllPrintable(fs)
    ensures Parse(Print(fs)) == fs
  {
    PrintReads(fs, []);
    assert [] + fs == fs;
  }

  // ---- Streams written by others ------------------------------------------------------------------

  /** One line of somebody else's event stream. White space around an event name, and one space before a
      payload, are a matter of taste; so are comments and fields that mean nothing here. */
  datatype Line =
    | NameLine(before: string, name: string, behind: string)
    | PayloadLine(spaced: bool, text: string)
    | OtherLine(text: string)

  /** A line and how it ends, with CR LF or with LF. */
  datatype Styled = Styled(line: Line, crlf: bool)

  /** The lines of one event, and how the blank line after them ends. */
  datatype Block = Block(lines: seq<Styled>, crlf: bool)

  predicate Blank(pad: string) {
    forall k :: 0 <= k < |pad| ==> pad[k] == ' ' || pad[k] == '\t'
  }

  predicate OneLine(s: string) {
    '\n' !in s && (s != "" ==> s[|s| - 1] != '\r')
  }

  predicate Proper(l: Line) {
    match l
    case NameLine(before, name, behind) => Blank(before) && Trimmed(name) && '\n' !in name && Blank(behind)
    case PayloadLine(spaced, text) => OneLine(text) && (!spaced && text != "" ==> text[0] != ' ')
    case OtherLine(text) => OneLine(text) && text != "" && !("event:" <= text) && !("data:" <= text)
  }

  function Spell(l: Line): string {
    match l
    case NameLine(before, name, behind) => "event:" + (before + name + behind)
    case PayloadLine(spaced, text) => "data:" + (if spaced then " " + text else text)
    case OtherLine(text) => text
  }

  function LineBreak(crlf: bool): string {
    if crlf then "\r\n" else "\n"
  }

  function SpellLines(ls: seq<Styled>): string {
    if ls == [] then ""
    else SpellLines(ls[..|ls| - 1]) + (Spell(ls[|ls| - 1].line) + LineBreak(ls[|ls| - 1].crlf))
  }

  function SpellAll(bs: seq<Block>): string {
    if bs == [] then "" else SpellLines(bs[0].lines) + (LineBreak(bs[0].crlf) + SpellAll(bs[1..]))
  }

  /** The name given last. */
  function NameOf(ls: seq<Styled>): string {
    if ls == [] then ""
    else if ls[|ls| - 1].line.NameLine? then ls[|ls| - 1].line.name
    else NameOf(ls[..|ls| - 1])
  }

  function PayloadsOf(ls: seq<Styled>): seq<string> {
    if ls == [] then []
    else PayloadsOf(ls[..|ls| - 1]) + if ls[|ls| - 1].line.PayloadLine? then [ls[|ls| - 1].line.text] else []
  }

  /** Several payload lines are one payload with line feeds in it. */
  function JoinLines(ts: seq<string>): string {
    if ts == [] then ""
    else if |ts| == 1 then ts[0]
    else JoinLines(ts[..|ts| - 1]) + "\n" + ts[|ts| - 1]
  }

  /** What the lines of one event say: nothing if they neither name it nor carry a payload. */
  function EventOf(ls: seq<Styled>): seq<SseEvent> {
    if NameOf(ls) == "" && PayloadsOf(ls) == [] then [] else [SseEvent(NameOf(ls), JoinLines(PayloadsOf(ls)))]
  }

  function EventsOf(bs: seq<Block>): seq<SseEvent> {
    if bs == [] then [] else EventOf(bs[0].lines) + EventsOf(bs[1..])
  }

  predicate AllProper(ls: seq<Styled>) {
    forall k :: 0 <= k < |ls| ==> Proper(ls[k].line)
  }

  /** The payload lines as the parser keeps them, each with its line feed. */
  function Kept(ts: seq<string>): string {
    if ts == [] then "" else JoinLines(ts) + "\n"
  }

  lemma {:induction false} TrimPads(before: string, name: string, behind: string)
    requires Blank(before) && Trimmed(name) && Blank(behind)
    ensures TrimSpace(before + name + behind) == name
    decreases |before| + |behind|
  {
    var s := before + name + behind;
    if before != "" {
      assert s[0] == before[0] && s[1..] == before[1..] + name + behind;
      TrimPads(before[1..], name, behind);
    } else if name == "" {
      assert s == behind;
      TrimBlank(behind);
    } else {
      assert s == name + behind && s[0] == name[0];
      TrimRightPad(name, behind);
    }
  }

  lemma {:induction false} TrimBlank(pad: string)
    requires Blank(pad)
    ensures TrimLeft(pad) == ""
  {
    if pad != "" {
      TrimBlank(pad[1..]);
    }
  }

  lemma {:induction false} TrimRightPad(name: string, behind: string)
    requires name != "" && !IsSpace(name[|name| - 1]) && Blank(behind)
    ensures TrimRight(name + behind) == name
    decreases |behind|
  {
    var s := name + behind;
    if behind == "" {
      assert s == name;
    } else {
      var n := |behind| - 1;
      assert s[|s| - 1] == behind[n] && s[..|s| - 1] == name + behind[..n];
      TrimRightPad(name, behind[..n]);
    }
  }

  lemma {:induction false} NoLineFeed(pad: string)
    requires Blank(pad)
    ensures '\n' !in pad && '\r' !in pad
  {
  }

  lemma SpelledOnOneLine(l: Line)
    requires Proper(l)
    ensures OneLine(Spell(l)) && Spell(l) != ""
  {
    match l
    case NameLine(before, name, behind) =>
      var s := Spell(l);
      NoLineFeed(before);
      NoLineFeed(behind);
      if behind != "" {
        assert s[|s| - 1] == behind[|behind| - 1];
      } else if name != "" {
        assert s[|s| - 1] == name[|name| - 1];
        assert IsSpace('\r');
      } else if before != "" {
        assert s[|s| - 1] == before[|before| - 1];
      }
    case PayloadLine(spaced, text) =>
      var s := Spell(l);
      assert text != "" ==> s[|s| - 1] == text[|text| - 1];
    case OtherLine(_) =>
  }

  /** The scanner sees the line without its ending, whichever it is. */
  lemma LineSeen(l: Line, crlf: bool, rest: string)
    requires Proper(l)
    ensures Lines(Spell(l) + LineBreak(crlf) + rest) == [Spell(l)] + Lines(rest)
  {
    SpelledOnOneLine(l);
    hide Lines, LineEnd, Spell, Proper;
    var line := Spell(l);
    if crlf {
      var a := line + "\r";
      assert line + "\r\n" + rest == a + "\n" + rest;
      assert a[|a| - 1] == '\r' && a[..|a| - 1] == line && '\n' !in a;
      FirstLine(a, rest);
    } else {
      FirstLine(line, rest);
    }
  }

  lemma BlankSeen(crlf: bool, rest: string)
    ensures Lines(LineBreak(crlf) + rest) == [""] + Lines(rest)
  {
    if crlf {
      assert "\r\n" + rest == "\r" + "\n" + rest && "\r"[..0] == "";
      FirstLine("\r", rest);
    } else {
      assert "\n" + rest == "" + "\n" + rest;
      FirstLine("", rest);
    }
  }

  lemma LineRead(p: Parser, l: Line)
    requires Proper(l)
    ensures OnLine(p, Spell(l)) == match l
                                   case NameLine(_, name, _) => p.(event := name)
                                   case PayloadLine(_, text) => p.(data := p.data + text + "\n")
                                   case OtherLine(_) => p
  {
    SpelledOnOneLine(l);
    match l
    case NameLine(before, name, behind) =>
      TrimPads(before, name, behind);
      assert Spell(l)[|EVENT|..] == before + name + behind;
    case PayloadLine(spaced, text) =>
      var body := Spell(l)[|DATA|..];
      assert body == if spaced then " " + text else text;
      assert spaced ==> body[1..] == text;
      assert Spell(l)[0] != EVENT[0];
    case OtherLine(text) =>
  }

  /** The lines of an event, read one after the other. */
  lemma {:induction false} LinesRead(ls: seq<Styled>, out: seq<SseEvent>, rest: string)
    requires AllProper(ls)
    ensures Fold(OnLine, Parser("", "", out), Lines(SpellLines(ls) + rest))
            == Fold(OnLine, Parser(NameOf(ls), Kept(PayloadsOf(ls)), out), Lines(rest))
    decreases |ls|
  {
    hide OnLine, Lines, Proper, Spell, Fold, LineBreak, JoinLines, Kept;
    if ls == [] {
      assert "" + rest == rest && Kept([]) == "" by {
        KeptNothing();
      }
    } else {
      var n := |ls| - 1;
      var front, last := ls[..n], ls[n];
      var more := Spell(last.line) + LineBreak(last.crlf);
      assert SpellLines(ls) + rest == SpellLines(front) + (more + rest);
      LinesRead(front, out, more + rest);
      LineSeen(last.line, last.crlf, rest);
      var p := Parser(NameOf(front), Kept(PayloadsOf(front)), out);
      FoldLine(p, Spell(last.line), Lines(rest));
      LineRead(p, last.line);
      if last.line.PayloadLine? {
        KeptMore(PayloadsOf(front), last.line.text);
      } else {
        assert PayloadsOf(front) + [] == PayloadsOf(front);
      }
    }
  }

  lemma KeptNothing()
    ensures Kept([]) == ""
  {
  }

  lemma KeptMore(ts: seq<string>, t: string)
    ensures Kept(ts + [t]) == Kept(ts) + t + "\n"
  {
    assert (ts + [t])[..|ts|] == ts;
  }

  /** The blank line dispatches what the lines say, if anything. */
  lemma Dispatched(ls: seq<Styled>, out: seq<SseEvent>)
    ensures Dispatch(Parser(NameOf(ls), Kept(PayloadsOf(ls)), out)) == Parser("", "", out + EventOf(ls))
  {
    var ts := PayloadsOf(ls);
    if ts == [] && NameOf(ls) == "" {
      assert out + [] == out;
    } else if ts != [] {
      assert Kept(ts)[..|Kept(ts)| - 1] == JoinLines(ts);
    }
  }

  lemma BlockRead(b: Block, out: seq<SseEvent>, rest: string)
    requires AllProper(b.lines)
    ensures Fold(OnLine, Parser("", "", out), Lines(SpellLines(b.lines) + (LineBreak(b.crlf) + rest)))
            == Fold(OnLine, Parser("", "", out + EventOf(b.lines)), Lines(rest))
  {
    var p := Parser(NameOf(b.lines), Kept(PayloadsOf(b.lines)), out);
    LinesRead(b.lines, out, LineBreak(b.crlf) + rest);
    BlankSeen(b.crlf, rest);
    FoldLine(p, "", Lines(rest));
    Dispatched(b.lines, out);
  }

  lemma {:induction false} BlocksRead(bs: seq<Block>, out: seq<SseEvent>, rest: string)
    requires forall k :: 0 <= k < |bs| ==> AllProper(bs[k].lines)
    ensures Fold(OnLine, Parser("", "", out), Lines(SpellAll(bs) + rest))
            == Fold(OnLine, Parser("", "", out + EventsOf(bs)), Lines(rest))
    decreases |bs|
  {
    hide OnLine, Lines, SpellLines, EventOf;
    if bs == [] {
      assert out + [] == out && "" + rest == rest;
    } else {
      var tail := SpellAll(bs[1..]);
      assert SpellAll(bs) + rest == SpellLines(bs[0].lines) + (LineBreak(bs[0].crlf) + (tail + rest));
      BlockRead(bs[0], out, tail + rest);
      BlocksRead(bs[1..], out + EventOf(bs[0].lines), rest);
      assert (out + EventOf(bs[0].lines)) + EventsOf(bs[1..]) == out + (EventOf(bs[0].lines) + EventsOf(bs[1..]));
    }
  }

  /** However a stream is written - each line ended by CR LF or LF, spaces or none, payloads split over
      several lines, comments in between, the last event without its blank line - the parser dispatches
      exactly the events it says, in order, the last one at the end. */
  lemma AnyStyleReads(bs: seq<Block>, tail: seq<Styled>)
    requires (forall k :: 0 <= k < |bs| ==> AllProper(bs[k].lines)) && AllProper(tail)
    ensures Parse(SpellAll(bs) + SpellLines(tail)) == EventsOf(bs) + EventOf(tail)
  {
    hide OnLine, SpellAll, SpellLines, EventOf, EventsOf, Proper;
    BlocksRead(bs, [], SpellLines(tail));
    assert [] + EventsOf(bs) == EventsOf(bs);
    LinesRead(tail, EventsOf(bs), "");
    assert SpellLines(tail) + "" == SpellLines(tail) && Lines("") == [];
    Dispatched(tail, EventsOf(bs));
  }

  // ---- Pass-through ---------------------------------------------------------------------------

  /** How the client takes one write: whole, or breaking off after n bytes. */
  datatype Fate = Takes | Breaks(n: nat)

  /** The writer latches the first error and from then on swallows everything. */
  datatype Writer = Writer(delivered: string, failed: bool)

  function Write(w: Writer, p: string, fate: Fate): Writer {
    if w.failed then w
    else match fate
      case Takes => Writer(w.delivered + p, false)
      case Breaks(n) => Writer(w.delivered + (if n <= |p| then p[..n] else p), true)
  }

  class FlushWriter {
    var failed: bool
    ghost var delivered: string

    ghost function Abs(): Writer
      reads this
    {
      Writer(delivered, failed)
    }

    constructor ()
      ensures Abs() == Writer("", false)
    {
      failed, delivered := false, "";
    }

    /** Always reports the whole of p as written, so that the upstream keeps being read. */
    method WriteOut(p: string, fate: Fate) returns (n: nat)
      modifies this
      ensures Abs() == Write(old(Abs()), p, fate) && n == |p|
    {
      n := |p|;
      if failed {
        return;
      }
      match fate {
        case Takes => delivered := delivered + p;
        case Breaks(k) =>
          delivered := delivered + (if k <= |p| then p[..k] else p);
          failed := true;
      }
    }
  }

  datatype Chunk = Chunk(bytes: string, fate: Fate)

  function Tee(w: Writer, c: Chunk): Writer {
    Write(w, c.bytes, c.fate)
  }

  function Upstream(cs: seq<Chunk>): string {
    if cs == [] then "" else cs[0].bytes + Upstream(cs[1..])
  }

  lemma {:induction false} TeeIsPrefix(w: Writer, cs: seq<Chunk>)
    ensures var r := Fold(Tee, w, cs);
            && (w.failed ==> r == w)
            && (!w.failed ==> r.delivered <= w.delivered + Upstream(cs))
            && (!w.failed && !r.failed ==> r.delivered == w.delivered + Upstream(cs))
            && ((forall k :: 0 <= k < |cs| ==> cs[k].fate == Takes) ==> r.failed == w.failed)
    decreases |cs|
  {
    if cs == [] {
      assert w.delivered + "" == w.delivered;
    } else {
      TeeIsPrefix(Tee(w, cs[0]), cs[1..]);
      var b := cs[0].bytes;
      assert w.delivered + b + Upstream(cs[1..]) == w.delivered + (b + Upstream(cs[1..]));
    }
  }

  /** However the upstream is chunked and wherever the client breaks off: it has received a prefix of
      the upstream bytes, and all of them if no write failed. */
  lemma {:induction false} PassThroughIsPrefix(cs: seq<Chunk>)
    ensures Fold(Tee, Writer("", false), cs).delivered <= Upstream(cs)
    ensures (forall k :: 0 <= k < |cs| ==> cs[k].fate == Takes) ==>
            Fold(Tee, Writer("", false), cs).delivered == Upstream(cs)
  {
    TeeIsPrefix(Writer("", false), cs);
    assert "" + Upstream(cs) == Upstream(cs);
  }
}
