/** Relaying one streamed response, and what of it is billed (internal/proxy/handler.go). */
module Relay {
  import opened Folds
  import opened TokenUsage
  import opened Ir
  import opened Facade
  import Sse
  import Meters = UsageAgreement

  /** The usage parser of the upstream's protocol; it reads the raw events on its own. */
  datatype Meter = Meter(protocol: Protocol, usage: Usage)

  function Metered(m: Meter, raw: Raw): Meter {
    match m.protocol
    case OpenAIChat => m.(usage := Meters.MeterChat(m.usage, raw.chat))
    case OpenAIResponses => m.(usage := Meters.MeterResponses(m.usage, raw.responses))
    case Anthropic => m.(usage := Meters.MeterAnthropic(m.usage, raw.anthropic))
  }

  /** The surroundings of a run: how bytes decode, the random tokens of the n-th event, and whether
      the k-th write to the client succeeds. */
  datatype Env = Env(decode: Sse.SseEvent -> Raw, tokens: nat -> (nat -> Token), takes: nat -> bool)

  /** `session` is absent in pass-through, where `teeFailed` says whether some raw write failed. */
  datatype Run = Run(parser: Sse.Parser, session: Option<Session>, meter: Meter,
                     clientErr: bool, writes: nat, translateErr: bool, done: bool)

  function Start(session: Option<Session>, upstream: Protocol, teeFailed: bool): Run {
    Run(Sse.FRESH, session, Meter(upstream, NO_USAGE), session.None? && teeFailed, 0, false, false)
  }

  /** Frames go out in one write, unless there are none; the first failure sticks. */
  function Written(r: Run, env: Env, next: Session): Run
    requires r.session.Some?
  {
    if |next.sent| <= |r.session.value.sent| then r.(session := Some(next))
    else r.(session := Some(next), clientErr := r.clientErr || !env.takes(r.writes), writes := r.writes + 1)
  }

  /** One dispatched event: metered always, translated while translation works. */
  function Handle(r: Run, env: Env, e: Sse.SseEvent, n: nat): Run {
    var raw := env.decode(e);
    var m := r.(meter := Metered(r.meter, raw));
    if r.session.None? || r.translateErr then m
    else
      var s := r.session.value;
      var fed := Written(m, env, Act(s, FeedIt(raw, env.tokens(n))));
      if s.ended || Decode(s.dec, raw).ok then fed
      else
        var failed := Act(fed.session.value, FailIt("protocol translation failed", env.tokens(n)(0)));
        Written(fed, env, failed).(translateErr := true)
  }

  /** Hands on what the line parser dispatched, if anything. */
  function Progress(r: Run, env: Env, p: Sse.Parser): Run {
    if |p.out| <= |r.parser.out| then r.(parser := p)
    else Handle(r.(parser := p), env, p.out[|p.out| - 1], |r.parser.out|)
  }

  function OnText(r: Run, env: Env, line: string): Run {
    var q := Progress(r, env, Sse.OnLine(r.parser, line));
    q.(done := Sse.DropCR(line) == "" && q.session.Some? && q.session.value.ended)
  }

  /** Reading stops at the terminal event, at a translation failure, or when the lines run out. */
  function Scan(r: Run, env: Env, lines: seq<string>): Run
    decreases |lines|
  {
    if lines == [] || r.done || r.translateErr then r else Scan(OnText(r, env, lines[0]), env, lines[1..])
  }

  /** The outcome handed to the handler. */
  datatype Outcome = Outcome(status: int, usage: Usage, clientErr: bool, upstreamErr: bool, translateErr: bool)

  /** After the last line, an event without its blank line is still dispatched. */
  function Flushed(r: Run, env: Env): Run {
    if r.translateErr then r else Progress(r, env, Sse.Dispatch(r.parser))
  }

  predicate HalfOpen(f: Run) {
    f.session.Some? && !f.session.value.ended
  }

  function Conclude(f: Run, readError: bool, status: int): Outcome {
    Outcome(status, f.meter.usage.Clamp(), f.clientErr,
            f.translateErr || (readError && !f.done) || HalfOpen(f), f.translateErr)
  }

  /** A message left open by a clean end of the upstream is closed with an error. */
  function ClosedOff(f: Run, env: Env, readError: bool): Option<Session> {
    if !f.translateErr && HalfOpen(f) && !(readError && !f.done)
    then Some(Act(f.session.value, FailIt("upstream stream ended before completion", env.tokens(|f.parser.out|)(0))))
    else f.session
  }

  function Finished(session: Option<Session>, upstream: Protocol, teeFailed: bool, env: Env, lines: seq<string>): Run {
    Flushed(Scan(Start(session, upstream, teeFailed), env, lines), env)
  }

  /** A stream that did not run to completion is reported as 504, 499 or 502 and costs nothing. */
  function Classify(o: Outcome, deadline: bool, clientGone: bool): Outcome {
    if !o.upstreamErr && !o.clientErr then o
    else o.(status := if deadline then 504 else if o.clientErr || clientGone then 499 else 502, usage := NO_USAGE)
  }

  /** Metering over a list of events. */
  function MeterAll(m: Meter, env: Env, events: seq<Sse.SseEvent>): Meter {
    if events == [] then m else Metered(MeterAll(m, env, events[..|events| - 1]), env.decode(events[|events| - 1]))
  }

  // ---- Results --------------------------------------------------------------------------------

  /** Handing on an event keeps the session safe, and a translation failure ends it. */
  lemma ProgressKeeps(r: Run, env: Env, p: Sse.Parser)
    ensures Progress(r, env, p).session.Some? <==> r.session.Some?
    ensures r.session.Some? && Safe(r.session.value) ==> Safe(Progress(r, env, p).session.value)
    ensures r.session.Some? && Safe(r.session.value) && !r.translateErr && Progress(r, env, p).translateErr ==>
            Progress(r, env, p).session.value.ended
  {
    hide Act, Decode;
    if r.session.Some? && |p.out| > |r.parser.out| && !r.translateErr {
      var n, e := |r.parser.out|, p.out[|p.out| - 1];
      var raw := env.decode(e);
      var fed := Act(r.session.value, FeedIt(raw, env.tokens(n)));
      if Safe(r.session.value) {
        ActSafe(r.session.value, FeedIt(raw, env.tokens(n)));
        ActSafe(fed, FailIt("protocol translation failed", env.tokens(n)(0)));
      }
      FailEnds(fed, "protocol translation failed", env.tokens(n)(0));
    }
  }

  ghost predicate InStep(r: Run, env: Env) {
    r.meter == MeterAll(Meter(r.meter.protocol, NO_USAGE), env, r.parser.out)
  }

  lemma LineGrows(p: Sse.Parser, line: string)
    ensures var q := Sse.OnLine(p, line); q.out == p.out || (|q.out| == |p.out| + 1 && q.out[..|p.out|] == p.out)
    ensures var q := Sse.Dispatch(p); q.out == p.out || (|q.out| == |p.out| + 1 && q.out[..|p.out|] == p.out)
  {
  }

  lemma {:induction false} HandleMeters(r: Run, env: Env, e: Sse.SseEvent, n: nat)
    ensures Handle(r, env, e, n).meter == Metered(r.meter, env.decode(e)) && Handle(r, env, e, n).parser == r.parser
  {
    hide Act, Decode, Metered;
  }

  lemma {:induction false} ProgressMeters(r: Run, env: Env, p: Sse.Parser)
    requires InStep(r, env) && (p.out == r.parser.out
             || (|p.out| == |r.parser.out| + 1 && p.out[..|r.parser.out|] == r.parser.out))
    ensures InStep(Progress(r, env, p), env) && Progress(r, env, p).parser == p
            && Progress(r, env, p).meter.protocol == r.meter.protocol
  {
    hide Handle;
    if p.out != r.parser.out {
      HandleMeters(r.(parser := p), env, p.out[|p.out| - 1], |r.parser.out|);
    }
  }

  lemma {:induction false} ScanMeters(r: Run, env: Env, lines: seq<string>)
    requires InStep(r, env)
    ensures InStep(Scan(r, env, lines), env) && Scan(r, env, lines).meter.protocol == r.meter.protocol
    decreases |lines|
  {
    hide Progress, InStep;
    if lines != [] && !r.done && !r.translateErr {
      LineGrows(r.parser, lines[0]);
      ProgressMeters(r, env, Sse.OnLine(r.parser, lines[0]));
      DoneIsNotMetered(Progress(r, env, Sse.OnLine(r.parser, lines[0])), env, OnText(r, env, lines[0]).done);
      ScanMeters(OnText(r, env, lines[0]), env, lines[1..]);
    }
  }

  lemma DoneIsNotMetered(r: Run, env: Env, done: bool)
    requires InStep(r, env)
    ensures InStep(r.(done := done), env)
  {
  }

  lemma FailEnds(s: Session, message: string, token: Token)
    ensures Act(s, FailIt(message, token)).ended
  {
    hide Encode;
  }

  lemma {:induction false} ScanKeeps(r: Run, env: Env, lines: seq<string>)
    requires r.session.Some? ==> Safe(r.session.value)
    ensures Scan(r, env, lines).session.Some? <==> r.session.Some?
    ensures r.session.Some? ==> Safe(Scan(r, env, lines).session.value)
    decreases |lines|
  {
    if lines != [] && !r.done && !r.translateErr {
      ProgressKeeps(r, env, Sse.OnLine(r.parser, lines[0]));
      ScanKeeps(OnText(r, env, lines[0]), env, lines[1..]);
    }
  }

  // ---- What a translated run did, read off the events it dispatched --------------------------------

  /** One Feed per dispatched event. */
  function Feeds(env: Env, es: seq<Sse.SseEvent>): seq<Action> {
    seq(|es|, k requires 0 <= k < |es| => FeedIt(env.decode(es[k]), env.tokens(k)))
  }

  /** All calls on the stream: when an event was refused, it was the last, and one Fail followed it. */
  function Calls(env: Env, es: seq<Sse.SseEvent>, refused: bool): seq<Action> {
    Feeds(env, es) + if refused && es != [] then [FailIt("protocol translation failed", env.tokens(|es| - 1)(0))]
        else []
  }

  /** Event k reaches a stream that has not ended and cannot be decoded by it. */
  predicate Refused(s0: Session, env: Env, es: seq<Sse.SseEvent>, k: nat)
    requires k < |es|
  {
    var s := Fold(Act, s0, Feeds(env, es[..k]));
    !s.ended && !Decode(s.dec, env.decode(es[k])).ok
  }

  predicate AnyRefused(s0: Session, env: Env, es: seq<Sse.SseEvent>) {
    exists k: nat :: k < |es| && Refused(s0, env, es, k)
  }

  /** How many calls gave the client something to read; each of them is one write. */
  function Productive(s0: Session, acts: seq<Action>): nat
    decreases |acts|
  {
    if acts == [] then 0
    else
      var before := acts[..|acts| - 1];
      Productive(s0, before) + if |Fold(Act, s0, acts).sent| > |Fold(Act, s0, before).sent| then 1 else 0
  }

  /** One of the first n writes fails. */
  predicate Lost(env: Env, n: nat) {
    exists k: nat :: k < n && !env.takes(k)
  }

  ghost predicate Traced(r: Run, env: Env, s0: Session) {
    var es := r.parser.out;
    && r.session == Some(Fold(Act, s0, Calls(env, es, r.translateErr)))
    && r.writes == Productive(s0, Calls(env, es, r.translateErr))
    && r.clientErr == Lost(env, r.writes)
    && r.translateErr == AnyRefused(s0, env, es)
  }

  lemma {:induction false} ProductiveSnoc(s0: Session, acts: seq<Action>, a: Action)
    ensures var s := Fold(Act, s0, acts);
            && Fold(Act, s0, acts + [a]) == Act(s, a)
            && Productive(s0, acts + [a]) == Productive(s0, acts) + if |Act(s, a).sent| > |s.sent| then 1 else 0
  {
    hide Act;
    FoldSnoc(Act, s0, acts, a);
    assert (acts + [a])[..|acts|] == acts;
  }

  /** A write that goes out is counted, and the first failure sticks. */
  lemma WrittenTraces(r: Run, env: Env, next: Session)
    requires r.session.Some? && r.clientErr == Lost(env, r.writes)
    ensures var w := Written(r, env, next);
            && w.session == Some(next) && w.parser == r.parser && w.translateErr == r.translateErr
            && w.writes == r.writes + (if |next.sent| > |r.session.value.sent| then 1 else 0)
            && w.clientErr == Lost(env, w.writes)
  {
    if Lost(env, r.writes) {
      var k: nat :| k < r.writes && !env.takes(k);
      assert Lost(env, r.writes + 1);
    } else if !env.takes(r.writes) {
      assert Lost(env, r.writes + 1);
    }
  }

  lemma RefusedSnoc(s0: Session, env: Env, es: seq<Sse.SseEvent>, e: Sse.SseEvent)
    requires !AnyRefused(s0, env, es)
    ensures AnyRefused(s0, env, es + [e]) <==> Refused(s0, env, es + [e], |es|)
  {
    var all := es + [e];
    forall k: nat | k < |es| ensures Refused(s0, env, all, k) == Refused(s0, env, es, k) {
      assert all[..k] == es[..k] && all[k] == es[k];
    }
  }

  lemma HandleTraces(r: Run, env: Env, s0: Session, p: Sse.Parser, e: Sse.SseEvent)
    requires Traced(r, env, s0) && !r.translateErr && p.out == r.parser.out + [e]
    ensures Traced(Progress(r, env, p), env, s0)
  {
    hide Act, Decode, Metered, Productive, Fold, Lost;
    var es, n := r.parser.out, |r.parser.out|;
    var s, raw := r.session.value, env.decode(e);
    var feed, fail := FeedIt(raw, env.tokens(n)), FailIt("protocol translation failed", env.tokens(n)(0));
    assert Calls(env, es, false) == Feeds(env, es) && Feeds(env, p.out) == Feeds(env, es) + [feed];
    assert p.out[..n] == es && p.out[n] == e;
    RefusedSnoc(s0, env, es, e);
    ProductiveSnoc(s0, Feeds(env, es), feed);
    ProductiveSnoc(s0, Feeds(env, p.out), fail);
    var m := r.(parser := p, meter := Metered(r.meter, raw));
    WrittenTraces(m, env, Act(s, feed));
    var fed := Written(m, env, Act(s, feed));
    WrittenTraces(fed, env, Act(fed.session.value, fail));
    assert Calls(env, p.out, false) == Feeds(env, p.out) && Calls(env, p.out, true) == Feeds(env, p.out) + [fail];
    hide Written, Feeds, Calls, AnyRefused;
  }

  lemma ProgressTraces(r: Run, env: Env, s0: Session, p: Sse.Parser)
    requires Traced(r, env, s0) && !r.translateErr
    requires p.out == r.parser.out || (|p.out| == |r.parser.out| + 1 && p.out[..|r.parser.out|] == r.parser.out)
    ensures Traced(Progress(r, env, p), env, s0)
  {
    if p.out != r.parser.out {
      var e := p.out[|p.out| - 1];
      assert p.out == r.parser.out + [e];
      HandleTraces(r, env, s0, p, e);
    }
  }

  lemma ProgressParser(r: Run, env: Env, p: Sse.Parser)
    ensures Progress(r, env, p).parser == p && Progress(r, env, p).done == r.done
  {
    hide Act, Decode, Metered;
  }

  lemma {:induction false} ScanTraces(r: Run, env: Env, lines: seq<string>, s0: Session)
    requires Traced(r, env, s0)
    ensures Traced(Scan(r, env, lines), env, s0)
    decreases |lines|
  {
    if lines != [] && !r.done && !r.translateErr {
      var q := Progress(r, env, Sse.OnLine(r.parser, lines[0]));
      LineGrows(r.parser, lines[0]);
      ProgressTraces(r, env, s0, Sse.OnLine(r.parser, lines[0]));
      hide Progress, Calls, Productive, AnyRefused, Lost;
      assert Traced(OnText(r, env, lines[0]), env, s0);
      hide Traced, OnText;
      ScanTraces(OnText(r, env, lines[0]), env, lines[1..], s0);
    }
  }

  /** Scanning reads the lines from the first, and leaves some unread only when it is done or has failed. */
  lemma {:induction false} ScanReads(r: Run, env: Env, lines: seq<string>) returns (m: nat)
    ensures m <= |lines| && Scan(r, env, lines).parser == Fold(Sse.OnLine, r.parser, lines[..m])
    ensures m < |lines| ==> Scan(r, env, lines).done || Scan(r, env, lines).translateErr
    decreases |lines|
  {
    if lines == [] || r.done || r.translateErr {
      m := 0;
    } else {
      hide Progress, Sse.OnLine;
      var rest := ScanReads(OnText(r, env, lines[0]), env, lines[1..]);
      ProgressParser(r, env, Sse.OnLine(r.parser, lines[0]));
      m := rest + 1;
      assert lines[..m][1..] == lines[1..][..rest];
    }
  }

  /** The stream ends only at a blank line, and reading stops there. */
  ghost predicate StopsInTime(r: Run) {
    && r.session.Some? && r.done == r.session.value.ended
    && (r.translateErr ==> r.done && r.parser.event == "" && r.parser.data == "")
  }

  lemma LineStops(r: Run, env: Env, line: string)
    requires StopsInTime(r) && !r.done && Safe(r.session.value)
    ensures StopsInTime(OnText(r, env, line))
  {
    hide Sse.TrimSpace, Handle, Safe;
    var p := Sse.OnLine(r.parser, line);
    LineGrows(r.parser, line);
    ProgressKeeps(r, env, p);
    ProgressParser(r, env, p);
    if Sse.DropCR(line) == "" {
      hide Progress;
    }
  }

  lemma {:induction false} ScanStops(r: Run, env: Env, lines: seq<string>)
    requires StopsInTime(r) && Safe(r.session.value)
    ensures StopsInTime(Scan(r, env, lines))
    decreases |lines|
  {
    if lines != [] && !r.done && !r.translateErr {
      LineStops(r, env, lines[0]);
      ProgressKeeps(r, env, Sse.OnLine(r.parser, lines[0]));
      hide StopsInTime, Safe, Progress;
      ScanStops(OnText(r, env, lines[0]), env, lines[1..]);
    }
  }

  /** The events are those of the lines read, from the first on; some are left only if `ended`. */
  ghost predicate ReadInOrder(es: seq<Sse.SseEvent>, lines: seq<string>, ended: bool) {
    exists m: nat :: m <= |lines| && es == Sse.ParseLines(lines[..m]) && (m < |lines| ==> ended)
  }

  /** Everything that decides what a translated run is billed, read off its input. */
  ghost predicate Explained(f: Run, env: Env, s0: Session, lines: seq<string>) {
    && Traced(f, env, s0)
    && f.session.Some? && Safe(f.session.value) && (f.translateErr ==> f.session.value.ended)
    && ReadInOrder(f.parser.out, lines, f.session.value.ended)
  }

  lemma FreshIsTraced(s0: Session, upstream: Protocol, env: Env)
    requires !s0.ended
    ensures Traced(Start(Some(s0), upstream, false), env, s0) && StopsInTime(Start(Some(s0), upstream, false))
  {
    assert Feeds(env, []) == [] && Calls(env, [], false) == [];
  }

  lemma FlushExplains(q: Run, env: Env, s0: Session, lines: seq<string>, m: nat)
    requires Traced(q, env, s0) && StopsInTime(q) && Safe(q.session.value) && m <= |lines|
    requires q.parser == Fold(Sse.OnLine, Sse.FRESH, lines[..m]) && (m < |lines| ==> q.done || q.translateErr)
    ensures Explained(Flushed(q, env), env, s0, lines) && Flushed(q, env).done == q.session.value.ended
    ensures Flushed(q, env).done ==> Flushed(q, env).session.value.ended
  {
    var p := Sse.Dispatch(q.parser);
    hide Progress, Traced, Safe;
    LineGrows(q.parser, "");
    if !q.translateErr {
      ProgressTraces(q, env, s0, p);
      ProgressKeeps(q, env, p);
      ProgressParser(q, env, p);
      if q.done { EndedStays(q, env, p); }
    }
    assert Flushed(q, env).parser.out == Sse.ParseLines(lines[..m]);
  }

  lemma EndedStays(r: Run, env: Env, p: Sse.Parser)
    requires r.session.Some? && r.session.value.ended
    ensures Progress(r, env, p).session.value.ended
  {
    hide Encode, Decode;
  }

  lemma TranslatedRun(s0: Session, upstream: Protocol, env: Env, lines: seq<string>)
    requires Safe(s0) && !s0.ended
    ensures var q := Scan(Start(Some(s0), upstream, false), env, lines);
            var f := Flushed(q, env);
            && Explained(f, env, s0, lines)
            && q.session.Some? && f.done == q.session.value.ended && (f.done ==> f.session.value.ended)
  {
    var start := Start(Some(s0), upstream, false);
    FreshIsTraced(s0, upstream, env);
    hide Traced, StopsInTime, Safe, Explained, Scan, Flushed;
    ScanTraces(start, env, lines, s0);
    ScanStops(start, env, lines);
    ScanKeeps(start, env, lines);
    var m := ScanReads(start, env, lines);
    FlushExplains(Scan(start, env, lines), env, s0, lines, m);
  }

  /** What a translated stream is billed, for all bytes the upstream sends, however they decode, and
      whichever writes and reads fail:
      - the events handled are those of the lines read, and lines are left unread only once the
        client's message has ended;
      - `clientErr` is set exactly when one of the writes failed, and there is one write for every
        call on the stream that gave the client something;
      - `translateErr` is set exactly when some event reached the stream before its end and could
        not be decoded;
      - the run is billed what its events metered exactly when neither happened, the client's message
        ended, and no read failed before that; otherwise it costs nothing and is reported as 504 when
        the deadline was hit, else as 499 when a write failed or the client is gone, else as 502;
      - unless a read failed first, the client's message is closed when the relay returns. */
  lemma BillingIsExact(client: Protocol, provider: Protocol, env: Env, bytes: string, readError: bool, status: int,
                       deadline: bool, clientGone: bool)
    ensures var s0, lines := Fresh(client, provider), Sse.Lines(bytes);
            var q := Scan(Start(Some(s0), provider, false), env, lines);
            var f := Flushed(q, env);
            var es, o := f.parser.out, Conclude(f, readError, status);
            var c := Classify(o, deadline, clientGone);
            var acts := Calls(env, es, AnyRefused(s0, env, es));
            var end := Fold(Act, s0, acts);
            && ReadInOrder(es, lines, end.ended)
            && o.clientErr == Lost(env, Productive(s0, acts))
            && o.translateErr == AnyRefused(s0, env, es)
            && f.session == Some(end) && q.session.Some?
            && (if o.clientErr || o.translateErr || !end.ended || (readError && !q.session.value.ended)
                then && c.usage == NO_USAGE
                     && c.status == (if deadline then 504 else if o.clientErr || clientGone then 499 else 502)
                else c.usage == MeterAll(Meter(provider, NO_USAGE), env, es).usage.Clamp() && c.status == status)
            && (!readError || q.session.value.ended ==>
                  var s := ClosedOff(f, env, readError); s.Some? && s.value.ended && Safe(s.value))
  {
    hide Scan, Flushed, MeterAll, Fold, Feeds, Productive, Lost, AnyRefused, ReadInOrder, Act, Safe, Classify,
        ClosedOff;
    var s0, lines := Fresh(client, provider), Sse.Lines(bytes);
    var q := Scan(Start(Some(s0), provider, false), env, lines);
    var f := Flushed(q, env);
    FreshIsSafe(client, provider);
    TranslatedRun(s0, provider, env, lines);
    RunMeters(Some(s0), provider, false, env, lines);
    Judged(f, readError, status, deadline, clientGone);
    ClosedInTheEnd(f, env, readError);
  }

  lemma FreshIsSafe(client: Protocol, provider: Protocol)
    ensures Safe(Fresh(client, provider)) && !Fresh(client, provider).ended
  {
  }

  /** The verdict on a translated run, from its flags. */
  lemma Judged(f: Run, readError: bool, status: int, deadline: bool, clientGone: bool)
    requires f.session.Some?
    ensures var c := Classify(Conclude(f, readError, status), deadline, clientGone);
            if f.clientErr || f.translateErr || !f.session.value.ended || (readError && !f.done)
            then
              && c.usage == NO_USAGE
              && c.status == (if deadline then 504 else if f.clientErr || clientGone then 499 else 502)
            else c.usage == f.meter.usage.Clamp() && c.status == status
  {
  }

  lemma ClosedInTheEnd(f: Run, env: Env, readError: bool)
    requires f.session.Some? && Safe(f.session.value) && (f.translateErr ==> f.session.value.ended)
    ensures !readError || f.done ==>
              var s := ClosedOff(f, env, readError); s.Some? && s.value.ended && Safe(s.value)
  {
    hide Act, Safe;
    var fail := FailIt("upstream stream ended before completion", env.tokens(|f.parser.out|)(0));
    ActSafe(f.session.value, fail);
    FailEnds(f.session.value, fail.message, fail.token);
  }

  lemma RunMeters(session: Option<Session>, upstream: Protocol, teeFailed: bool, env: Env, lines: seq<string>)
    ensures var f := Finished(session, upstream, teeFailed, env, lines);
            f.meter == MeterAll(Meter(upstream, NO_USAGE), env, f.parser.out)
  {
    var r := Scan(Start(session, upstream, teeFailed), env, lines);
    ScanMeters(Start(session, upstream, teeFailed), env, lines);
    hide Scan, Progress;
    LineGrows(r.parser, "");
    ProgressMeters(r, env, Sse.Dispatch(r.parser));
  }

  /** What a passed-through stream is billed, for every chunking of the upstream bytes and every fate of
      the writes: what the events of the bytes metered, exactly when no read failed and no write to the
      client did. */
  lemma PassThroughBillingIsExact(proto: Protocol, env: Env, cs: seq<Sse.Chunk>, readError: bool, status: int,
                                  deadline: bool, clientGone: bool)
    ensures var tee := Fold(Sse.Tee, Sse.Writer("", false), cs);
            var f := Finished(None, proto, tee.failed, env, Sse.Lines(Sse.Upstream(cs)));
            var c := Classify(Conclude(f, readError, status), deadline, clientGone);
            && f.parser.out == Sse.Parse(Sse.Upstream(cs))
            && (if readError || tee.failed
                then && c.usage == NO_USAGE
                     && c.status == (if deadline then 504 else if tee.failed || clientGone then 499 else 502)
                else && c.usage == MeterAll(Meter(proto, NO_USAGE), env, Sse.Parse(Sse.Upstream(cs))).usage.Clamp()
                     && c.status == status && tee.delivered == Sse.Upstream(cs))
  {
    var tee, lines := Fold(Sse.Tee, Sse.Writer("", false), cs), Sse.Lines(Sse.Upstream(cs));
    var start := Start(None, proto, tee.failed);
    var q := Scan(start, env, lines);
    Sse.TeeIsPrefix(Sse.Writer("", false), cs);
    assert "" + Sse.Upstream(cs) == Sse.Upstream(cs);
    PassThroughRun(start, env, lines);
    var m := ScanReads(start, env, lines);
    assert lines[..m] == lines;
    RunMeters(None, proto, tee.failed, env, lines);
    ProgressParser(q, env, Sse.Dispatch(q.parser));
    PassThroughProgress(q, env, Sse.Dispatch(q.parser));
    hide Scan, Progress, MeterAll, Fold;
  }

  lemma PassThroughProgress(r: Run, env: Env, p: Sse.Parser)
    requires r.session.None? && !r.translateErr
    ensures var q := Progress(r, env, p); q.session.None? && !q.translateErr && q.clientErr == r.clientErr
  {
    hide Metered;
  }

  /** In pass-through nothing is translated and every line is read. */
  lemma {:induction false} PassThroughRun(r: Run, env: Env, lines: seq<string>)
    requires r.session.None? && !r.translateErr && !r.done
    ensures var q := Scan(r, env, lines); q.session.None? && !q.translateErr && !q.done && q.clientErr == r.clientErr
    decreases |lines|
  {
    if lines != [] {
      PassThroughRun(OnText(r, env, lines[0]), env, lines[1..]);
    }
  }

  // ---- Buffered responses -----------------------------------------------------------------------

  /** What comes of reading a response that is not a stream: `usage` is what the upstream's parser
      finds in the body, `translates` says whether the body can be re-rendered, if it has to be. */
  datatype Buffered = ReadFailed | TooLarge | Complete(usage: Usage, translates: Option<bool>)

  predicate Successful(status: int) {
    200 <= status < 300
  }

  predicate Delivered(b: Buffered, status: int, taken: bool) {
    b.Complete? && Successful(status) && b.translates != Some(false) && taken
  }

  /** A buffered response is billed exactly when all of it was read, it was a success, it could be
      rendered for the client and the client took it; a response that was spoilt on the way is never
      reported with the status of a success. `taken` is whether the write to the client succeeds. */
  method RelayBuffered(b: Buffered, status: int, taken: bool, deadline: bool, clientGone: bool) returns (res: Outcome)
    ensures res.usage == if Delivered(b, status, taken) then b.usage else NO_USAGE
    ensures Delivered(b, status, taken) ==> res.status == status
    ensures Successful(res.status) ==> Delivered(b, status, taken)
    ensures !Delivered(b, status, taken) ==>
              res.status == if b.Complete? && b.translates != Some(false) && taken then status
                            else if b.Complete? && b.translates.Some? && !Successful(status) then status
                            else if b.Complete? && b.translates != Some(false) then (if deadline then 504 else 499)
                            else 502
  {
    res := Outcome(status, NO_USAGE, false, false, false);
    if b.ReadFailed? || b.TooLarge? {
      res := res.(status := 502);
    } else {
      var ok := Successful(status);
      if ok {
        res := res.(usage := b.usage);
      }
      if b.translates == Some(false) && ok {
        res := res.(translateErr := true, usage := NO_USAGE, status := 502);
      } else if b.translates.None? || ok {
        res := res.(clientErr := !taken);
      }
    }
    res := Classify(res, deadline, clientGone);
  }

  // ---- Implementation -------------------------------------------------------------------------

  /** The variables of the reading loop; `st` is null in pass-through. */
  class ReadLoop {
    const env: Env
    const st: Stream?
    var event: string
    var data: string
    var count: nat
    var meter: Meter
    var clientErr: bool
    var writes: nat
    var translateErr: bool
    var done: bool
    ghost var out: seq<Sse.SseEvent>

    ghost function Footprint(): set<object> {
      if st == null then {this} else {this, st}
    }

    ghost predicate Valid()
      reads this
    {
      count == |out|
    }

    ghost function Translating(): Option<Session>
      reads st
    {
      if st == null then None else Some(st.Abs())
    }

    ghost function Abs(): Run
      reads this, st
    {
      Run(Sse.Parser(event, data, out), Translating(), meter, clientErr, writes, translateErr, done)
    }

    constructor (env: Env, st: Stream?, upstream: Protocol, teeFailed: bool)
      ensures Valid() && this.st == st && this.env == env
      ensures Abs() == Start(if st == null then None else Some(st.Abs()), upstream, teeFailed)
    {
      this.env, this.st, event, data, count := env, st, "", "", 0;
      meter, clientErr, writes := Meter(upstream, NO_USAGE), st == null && teeFailed, 0;
      translateErr, done, out := false, false, [];
    }

    method WriteOut(frames: seq<Frame>)
      modifies this`clientErr, this`writes
      ensures clientErr == (old(clientErr) || (frames != [] && !env.takes(old(writes))))
      ensures writes == old(writes) + if frames == [] then 0 else 1
    {
      if |frames| > 0 {
        if !clientErr && !env.takes(writes) {
          clientErr := true;
        }
        writes := writes + 1;
      }
    }

    method Translate(raw: Raw, n: nat)
      requires st != null && !translateErr
      modifies this`clientErr, this`writes, this`translateErr, st
      ensures Abs() == var s := old(st.Abs());
                       var fed := Written(old(Abs()), env, Act(s, FeedIt(raw, env.tokens(n))));
                       if s.ended || Decode(s.dec, raw).ok then fed
                       else Written(fed, env, Act(fed.session.value,
                           FailIt("protocol translation failed", env.tokens(n)(0)))).(translateErr := true)
    {
      hide Act, Decode;
      var frames, ok := st.Feed(raw, env.tokens(n));
      WriteOut(frames);
      if !ok {
        translateErr := true;
        var closing := st.Fail("protocol translation failed", env.tokens(n)(0));
        WriteOut(closing);
      }
    }

    method Dispatch()
      requires Valid()
      modifies Footprint()
      ensures Valid() && Abs() == Progress(old(Abs()), env, Sse.Dispatch(old(Abs()).parser))
    {
      hide Act, Decode, Written, Metered;
      if data == "" && event == "" {
        return;
      }
      var e := Sse.SseEvent(event, if data == "" then "" else data[..|data| - 1]);
      var raw := env.decode(e);
      event, data, out := "", "", out + [e];
      meter := Metered(meter, raw);
      if st != null && !translateErr {
        Translate(raw, count);
      }
      count := count + 1;
    }

    method OnLine(raw: string)
      requires Valid() && !done
      modifies Footprint()
      ensures Valid() && Abs() == OnText(old(Abs()), env, raw)
    {
      hide Handle, Sse.TrimSpace;
      var line := Sse.DropCR(raw);
      if line == "" {
        Dispatch();
        done := st != null && st.ended;
      } else if Sse.EVENT <= line {
        event := Sse.TrimSpace(line[|Sse.EVENT|..]);
      } else if Sse.DATA <= line {
        var rest := line[|Sse.DATA|..];
        data := data + (if " " <= rest then rest[1..] else rest) + "\n";
      }
    }

    /** Reads until the terminal event, a translation failure or the end of the lines. */
    method ReadAll(lines: seq<string>, readError: bool, status: int) returns (res: Outcome)
      requires Valid() && !done && !translateErr
      modifies Footprint()
      ensures var f := Flushed(Scan(old(Abs()), env, lines), env);
              res == Conclude(f, readError, status) && Translating() == ClosedOff(f, env, readError)
    {
      hide Progress, Act, OnText;
      var i := 0;
      while i < |lines| && !done && !translateErr
        invariant i <= |lines| && Valid()
        invariant Scan(Abs(), env, lines[i..]) == Scan(old(Abs()), env, lines)
      {
        assert lines[i..][1..] == lines[i + 1..] && lines[i..][0] == lines[i];
        OnLine(lines[i]);
        i := i + 1;
      }
      assert Scan(Abs(), env, lines[i..]) == Abs();
      if !translateErr {
        Dispatch();
      }
      var upstreamErr := readError && !done;
      res := Outcome(status, meter.usage.Clamp(), clientErr, upstreamErr, translateErr);
      if translateErr {
        res := res.(upstreamErr := true);
      } else if st != null && !st.ended {
        if !upstreamErr {
          var _ := st.Fail("upstream stream ended before completion", env.tokens(count)(0));
        }
        res := res.(upstreamErr := true);
      }
    }
  }

  /** One streamed response from its first line to its verdict: translated when the provider speaks
      another protocol, passed through otherwise. */
  method RelayStream(proto: Protocol, target: Option<Protocol>, env: Env, lines: seq<string>, teeFailed: bool,
                     readError: bool, status: int, deadline: bool, clientGone: bool) returns (res: Outcome)
    ensures var session := if target.Some? then Some(Fresh(proto, target.value)) else None;
            var upstream := if target.Some? then target.value else proto;
            var f := Finished(session, upstream, teeFailed, env, lines);
            res == Classify(Conclude(f, readError, status), deadline, clientGone)
  {
    hide Scan, Flushed, Progress;
    var st: Stream? := null;
    var upstream := proto;
    if target.Some? {
      st := new Stream(proto, target.value);
      upstream := target.value;
    }
    var reading := new ReadLoop(env, st, upstream, teeFailed);
    res := reading.ReadAll(lines, readError, status);
    res := Classify(res, deadline, clientGone);
  }
}
