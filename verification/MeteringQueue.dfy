/** The usage-report queue as a system of interleaved steps: any number of Enqueue calls, the
    workers, and Shutdown (internal/metering/queue.go). */
module MeteringQueue {
  import opened Folds

  datatype Report = Report(id: string, key: string)

  /** An Enqueue call: before its first select, past it, returned true, returned false. */
  datatype SenderPc = Entering | PastFastPath | Accepted | Refused

  datatype Sender = Sender(report: Report, late: bool, pc: SenderPc)

  /** A worker in its main select, delivering from it, in the drain loop, delivering from there, gone. */
  datatype Worker = Waiting | Delivering(report: Report) | Draining | DeliveringLast(report: Report) | Exited

  /** `early` collects the reports sent before `done` was closed and `front` how many of them are
      still in the channel, at its head; both only record history. */
  datatype State = State(cap: nat, ch: seq<Report>, done: bool, workers: seq<Worker>, senders: seq<Sender>,
                         finished: seq<Report>, early: seq<Report>, front: nat)

  datatype Step =
    | Begin(report: Report)
    | FastPath(i: nat)
    | Send(i: nat)
    | SeeDone(i: nat)
    | Full(i: nat)
    | Take(w: nat)
    | NoticeDone(w: nat)
    | Finish(w: nat)
    | DrainTake(w: nat)
    | Exit(w: nat)
    | Close

  predicate Initial(s: State) {
    && s.cap > 0 && s.ch == [] && !s.done && s.senders == [] && |s.workers| > 0
    && s.finished == [] && s.early == [] && s.front == 0
    && forall w :: 0 <= w < |s.workers| ==> s.workers[w] == Waiting
  }

  predicate SenderAt(s: State, i: nat, pc: SenderPc) {
    i < |s.senders| && s.senders[i].pc == pc
  }

  /** A select takes any ready case, and its default only when none is. */
  predicate Enabled(s: State, step: Step) {
    match step
    case Begin(_) => true
    case FastPath(i) => SenderAt(s, i, Entering)
    case Send(i) => SenderAt(s, i, PastFastPath) && |s.ch| < s.cap
    case SeeDone(i) => SenderAt(s, i, PastFastPath) && s.done
    case Full(i) => SenderAt(s, i, PastFastPath) && |s.ch| == s.cap && !s.done
    case Take(w) => w < |s.workers| && s.workers[w] == Waiting && s.ch != []
    case NoticeDone(w) => w < |s.workers| && s.workers[w] == Waiting && s.done
    case Finish(w) => w < |s.workers| && (s.workers[w].Delivering? || s.workers[w].DeliveringLast?)
    case DrainTake(w) => w < |s.workers| && s.workers[w] == Draining && s.ch != []
    case Exit(w) => w < |s.workers| && s.workers[w] == Draining && s.ch == []
    case Close => true
  }

  function Move(s: State, i: nat, pc: SenderPc): State
    requires i < |s.senders|
  {
    s.(senders := s.senders[i := s.senders[i].(pc := pc)])
  }

  function TakeHead(s: State, w: nat, next: Worker): State
    requires w < |s.workers| && s.ch != []
  {
    s.(workers := s.workers[w := next], ch := s.ch[1..], front := if s.front > 0 then s.front - 1 else 0)
  }

  function Apply(s: State, step: Step): State
    requires Enabled(s, step)
  {
    match step
    case Begin(report) => s.(senders := s.senders + [Sender(report, s.done, Entering)])
    case FastPath(i) => Move(s, i, if s.done then Refused else PastFastPath)
    case Send(i) =>
      var r := s.senders[i].report;
      var t := Move(s, i, Accepted);
      if s.done then t.(ch := s.ch + [r]) else t.(ch := s.ch + [r], early := s.early + [r], front := s.front + 1)
    case SeeDone(i) => Move(s, i, Refused)
    case Full(i) => Move(s, i, Refused)
    case Take(w) => TakeHead(s, w, Delivering(s.ch[0]))
    case NoticeDone(w) => s.(workers := s.workers[w := Draining])
    case Finish(w) =>
      s.(workers := s.workers[w := if s.workers[w].Delivering? then Waiting else Draining],
         finished := s.finished + [s.workers[w].report])
    case DrainTake(w) => TakeHead(s, w, DeliveringLast(s.ch[0]))
    case Exit(w) => s.(workers := s.workers[w := Exited])
    case Close => s.(done := true)
  }

  // ---- What is where -----------------------------------------------------------------------
  //
  // Reports are counted, so that equal reports of different calls are told apart in number.

  function InHand(w: Worker, r: Report): nat {
    if (w.Delivering? || w.DeliveringLast?) && w.report == r then 1 else 0
  }

  function InDelivery(ws: seq<Worker>, r: Report): nat {
    if ws == [] then 0 else InHand(ws[0], r) + InDelivery(ws[1..], r)
  }

  function AcceptedOnce(x: Sender, r: Report): nat {
    if x.pc == Accepted && x.report == r then 1 else 0
  }

  function AcceptedTimes(xs: seq<Sender>, r: Report): nat {
    if xs == [] then 0 else AcceptedOnce(xs[0], r) + AcceptedTimes(xs[1..], r)
  }

  lemma {:induction false} DeliveryUpdate(ws: seq<Worker>, k: nat, w: Worker, r: Report)
    requires k < |ws|
    ensures InDelivery(ws[k := w], r) == InDelivery(ws, r) - InHand(ws[k], r) + InHand(w, r)
    decreases |ws|
  {
    if k == 0 {
      assert ws[0 := w][1..] == ws[1..];
    } else {
      assert ws[k := w][1..] == ws[1..][k - 1 := w];
      DeliveryUpdate(ws[1..], k - 1, w, r);
    }
  }

  lemma {:induction false} AcceptedUpdate(xs: seq<Sender>, k: nat, x: Sender, r: Report)
    requires k < |xs|
    ensures AcceptedTimes(xs[k := x], r) == AcceptedTimes(xs, r) - AcceptedOnce(xs[k], r) + AcceptedOnce(x, r)
    decreases |xs|
  {
    if k == 0 {
      assert xs[0 := x][1..] == xs[1..];
    } else {
      assert xs[k := x][1..] == xs[1..][k - 1 := x];
      AcceptedUpdate(xs[1..], k - 1, x, r);
    }
  }

  lemma {:induction false} AcceptedSnoc(xs: seq<Sender>, x: Sender, r: Report)
    ensures AcceptedTimes(xs + [x], r) == AcceptedTimes(xs, r) + AcceptedOnce(x, r)
    decreases |xs|
  {
    if xs == [] {
      assert xs + [x] == [x] && [x][1..] == [];
    } else {
      assert (xs + [x])[1..] == xs[1..] + [x];
      AcceptedSnoc(xs[1..], x, r);
    }
  }

  // ---- Invariant ---------------------------------------------------------------------------

  /** A call begun after the close is refused at its fast path. */
  ghost predicate LateRefused(s: State) {
    forall i :: 0 <= i < |s.senders| && s.senders[i].late ==>
      s.done && (s.senders[i].pc == Entering || s.senders[i].pc == Refused)
  }

  ghost predicate Phases(s: State) {
    && |s.workers| > 0 && s.front <= |s.ch| && |s.ch| <= s.cap
    && (!s.done ==> s.front == |s.ch|)
    && (forall w :: 0 <= w < |s.workers| && s.workers[w] == Exited ==> s.done && s.front == 0)
    && (forall w :: 0 <= w < |s.workers| && (s.workers[w] == Draining || s.workers[w].DeliveringLast?) ==> s.done)
  }

  /** Each accepted copy of a report is in exactly one of channel, delivery or finished. */
  ghost predicate Conserved(s: State, r: Report) {
    AcceptedTimes(s.senders, r) == Times(s.ch, r) + InDelivery(s.workers, r) + Times(s.finished, r)
  }

  /** Copies sent before the close are in the head of the channel, in delivery or finished. */
  ghost predicate EarlyKept(s: State, r: Report) {
    s.front <= |s.ch| && Times(s.early, r) <= Times(s.ch[..s.front], r) + InDelivery(s.workers, r)
        + Times(s.finished, r)
  }

  ghost predicate Inv(s: State, r: Report) {
    Phases(s) && LateRefused(s) && Conserved(s, r) && EarlyKept(s, r)
  }

  lemma {:induction false} NobodyDelivers(ws: seq<Worker>, r: Report)
    requires forall w :: 0 <= w < |ws| ==> !ws[w].Delivering? && !ws[w].DeliveringLast?
    ensures InDelivery(ws, r) == 0
  {
    if ws != [] {
      NobodyDelivers(ws[1..], r);
    }
  }

  lemma InitialInv(s: State, r: Report)
    requires Initial(s)
    ensures Inv(s, r)
  {
    NobodyDelivers(s.workers, r);
    assert s.ch[..0] == [];
  }

  /** A call that moves on without being accepted. */
  lemma MoveStep(s: State, i: nat, pc: SenderPc, r: Report)
    requires Inv(s, r) && i < |s.senders| && s.senders[i].pc != Accepted && pc != Accepted
    requires s.senders[i].late ==> pc == Refused
    ensures Inv(Move(s, i, pc), r)
  {
    AcceptedUpdate(s.senders, i, s.senders[i].(pc := pc), r);
  }

  lemma SendStep(s: State, i: nat, r: Report)
    requires Inv(s, r) && Enabled(s, Send(i))
    ensures Inv(Apply(s, Send(i)), r)
  {
    var t, x := Apply(s, Send(i)), s.senders[i].report;
    AcceptedUpdate(s.senders, i, t.senders[i], r);
    TimesSnoc(s.ch, x, r);
    if s.done {
      assert t.ch[..s.front] == s.ch[..s.front];
    } else {
      TimesSnoc(s.early, x, r);
      assert s.ch[..s.front] == s.ch && t.ch[..t.front] == t.ch;
    }
  }

  lemma TakeStep(s: State, w: nat, next: Worker, r: Report)
    requires Inv(s, r) && w < |s.workers| && s.ch != []
    requires (s.workers[w] == Waiting && next == Delivering(s.ch[0]))
             || (s.workers[w] == Draining && next == DeliveringLast(s.ch[0]))
    ensures Inv(TakeHead(s, w, next), r)
  {
    var t := TakeHead(s, w, next);
    DeliveryUpdate(s.workers, w, next, r);
    if s.front > 0 {
      assert s.ch[..s.front][1..] == t.ch[..t.front];
    } else {
      assert s.ch[..0] == [] && t.ch[..0] == [];
    }
  }

  lemma FinishStep(s: State, w: nat, r: Report)
    requires Inv(s, r) && Enabled(s, Finish(w))
    ensures Inv(Apply(s, Finish(w)), r)
  {
    var t := Apply(s, Finish(w));
    DeliveryUpdate(s.workers, w, t.workers[w], r);
    TimesSnoc(s.finished, s.workers[w].report, r);
  }

  lemma IdleStep(s: State, w: nat, next: Worker, r: Report)
    requires Inv(s, r) && w < |s.workers| && s.done
    requires (s.workers[w] == Waiting && next == Draining) || (s.workers[w] == Draining && next == Exited && s.ch == [])
    ensures Inv(s.(workers := s.workers[w := next]), r)
  {
    DeliveryUpdate(s.workers, w, next, r);
  }

  lemma StepInv(s: State, step: Step, r: Report)
    requires Inv(s, r) && Enabled(s, step)
    ensures Inv(Apply(s, step), r)
  {
    match step
    case Begin(x) => AcceptedSnoc(s.senders, Sender(x, s.done, Entering), r);
    case FastPath(i) => MoveStep(s, i, if s.done then Refused else PastFastPath, r);
    case Send(i) => SendStep(s, i, r);
    case SeeDone(i) => MoveStep(s, i, Refused, r);
    case Full(i) => MoveStep(s, i, Refused, r);
    case Take(w) => TakeStep(s, w, Delivering(s.ch[0]), r);
    case NoticeDone(w) => IdleStep(s, w, Draining, r);
    case Finish(w) => FinishStep(s, w, r);
    case DrainTake(w) => TakeStep(s, w, DeliveringLast(s.ch[0]), r);
    case Exit(w) => IdleStep(s, w, Exited, r);
    case Close =>
  }

  // ---- Runs --------------------------------------------------------------------------------

  predicate CanRun(s: State, steps: seq<Step>)
    decreases |steps|
  {
    steps == [] || (Enabled(s, steps[0]) && CanRun(Apply(s, steps[0]), steps[1..]))
  }

  function RunFrom(s: State, steps: seq<Step>): State
    requires CanRun(s, steps)
    decreases |steps|
  {
    if steps == [] then s else RunFrom(Apply(s, steps[0]), steps[1..])
  }

  lemma {:induction false} RunInv(s: State, steps: seq<Step>, r: Report)
    requires Inv(s, r) && CanRun(s, steps)
    ensures Inv(RunFrom(s, steps), r)
    decreases |steps|
  {
    if steps != [] {
      StepInv(s, steps[0], r);
      RunInv(Apply(s, steps[0]), steps[1..], r);
    }
  }

  predicate AllExited(s: State) {
    forall w :: 0 <= w < |s.workers| ==> s.workers[w] == Exited
  }

  /** Over every interleaving, for every report: accepted copies are conserved; a call begun after
      the close never gets past its fast path; and once all workers have exited, every copy sent
      before the close is finished, so that what is still in the channel was sent after it. */
  lemma QueueIsSafe(s: State, steps: seq<Step>, r: Report)
    requires Initial(s) && CanRun(s, steps)
    ensures var t := RunFrom(s, steps);
            && AcceptedTimes(t.senders, r) == Times(t.ch, r) + InDelivery(t.workers, r) + Times(t.finished, r)
            && (forall i :: 0 <= i < |t.senders| && t.senders[i].late ==>
                t.senders[i].pc == Entering || t.senders[i].pc == Refused)
            && (AllExited(t) ==> Times(t.early, r) <= Times(t.finished, r) && InDelivery(t.workers, r) == 0)
  {
    InitialInv(s, r);
    RunInv(s, steps, r);
    var t := RunFrom(s, steps);
    if AllExited(t) {
      NobodyDelivers(t.workers, r);
      assert t.workers[0] == Exited;
      assert t.ch[..0] == [];
    }
  }

  // ---- Which reports are stranded --------------------------------------------------------------

  /** The reports sent when no worker is left, in the order they were sent. */
  function SentTooLate(s: State, steps: seq<Step>): seq<Report>
    requires CanRun(s, steps)
    decreases |steps|
  {
    if steps == [] then []
    else
      var first := if steps[0].Send? && AllExited(s) then [s.senders[steps[0].i].report] else [];
      first + SentTooLate(Apply(s, steps[0]), steps[1..])
  }

  lemma SomeoneStays(s: State, step: Step)
    requires Enabled(s, step) && !AllExited(s) && !step.Exit?
    ensures !AllExited(Apply(s, step))
  {
    var w :| 0 <= w < |s.workers| && s.workers[w] != Exited;
    assert Apply(s, step).workers[w] != Exited;
  }

  /** The last worker leaves an empty channel behind. */
  lemma LastExit(s: State, step: Step)
    requires Enabled(s, step) && !AllExited(s) && AllExited(Apply(s, step))
    ensures Apply(s, step).ch == []
  {
    if !step.Exit? {
      SomeoneStays(s, step);
    }
  }

  /** Without workers the channel only grows, by what is sent, and nothing is finished any more. */
  lemma GoneStep(s: State, step: Step)
    requires Enabled(s, step) && AllExited(s)
    ensures AllExited(Apply(s, step)) && Apply(s, step).finished == s.finished
    ensures Apply(s, step).ch == s.ch + if step.Send? then [s.senders[step.i].report] else []
  {
  }

  lemma {:induction false} ChannelAfter(s: State, steps: seq<Step>)
    requires CanRun(s, steps)
    ensures var t := RunFrom(s, steps);
            && (AllExited(s) ==> AllExited(t) && t.finished == s.finished && t.ch == s.ch + SentTooLate(s, steps))
            && (!AllExited(s) && AllExited(t) ==> t.ch == SentTooLate(s, steps))
    decreases |steps|
  {
    hide Apply, Enabled, AllExited;
    if steps == [] {
      assert s.ch + [] == s.ch;
    } else {
      var next := Apply(s, steps[0]);
      var later := SentTooLate(next, steps[1..]);
      ChannelAfter(next, steps[1..]);
      if AllExited(s) {
        GoneStep(s, steps[0]);
      } else {
        assert SentTooLate(s, steps) == later && [] + later == later;
        if AllExited(next) { LastExit(s, steps[0]); }
      }
    }
  }

  lemma {:induction false} TimesZero(xs: seq<Report>)
    ensures (forall r :: Times(xs, r) == 0) <==> xs == []
  {
    if xs != [] {
      assert Times(xs, xs[0]) > 0;
    }
  }

  /** Once all workers have exited, what is in the channel is exactly what was sent after the last of
      them had left; every other accepted copy is finished. So every accepted report is finished
      exactly when no send came that late. */
  lemma {:induction false} StrandedExactly(s: State, steps: seq<Step>)
    requires Initial(s) && CanRun(s, steps) && AllExited(RunFrom(s, steps))
    ensures var t, late := RunFrom(s, steps), SentTooLate(s, steps);
            && t.ch == late
            && (forall r :: AcceptedTimes(t.senders, r) == Times(t.finished, r) + Times(late, r))
            && ((forall r :: AcceptedTimes(t.senders, r) == Times(t.finished, r)) <==> late == [])
  {
    assert s.workers[0] == Waiting;
    ChannelAfter(s, steps);
    var t, late := RunFrom(s, steps), SentTooLate(s, steps);
    hide RunFrom, SentTooLate, CanRun;
    forall r ensures AcceptedTimes(t.senders, r) == Times(t.finished, r) + Times(late, r) {
      InitialInv(s, r);
      RunInv(s, steps, r);
      NobodyDelivers(t.workers, r);
    }
    TimesZero(late);
  }

  /** The one step such a late call has left returns false and touches nothing but the call itself. */
  lemma LateCallChangesNothing(s: State, steps: seq<Step>, step: Step, i: nat)
    requires Initial(s) && CanRun(s, steps) && i < |RunFrom(s, steps).senders|
    requires RunFrom(s, steps).senders[i].late && Enabled(RunFrom(s, steps), step)
    requires step.FastPath? || step.Send? || step.SeeDone? || step.Full?
    requires step.i == i
    ensures var t := RunFrom(s, steps); Apply(t, step) == Move(t, i, Refused)
  {
    var any := RunFrom(s, steps).senders[i].report;
    InitialInv(s, any);
    RunInv(s, steps, any);
  }

  lemma OneMore(s: State, step: Step, t: State, rest: seq<Step>, end: State)
    requires Enabled(s, step) && Apply(s, step) == t && CanRun(t, rest) && RunFrom(t, rest) == end
    ensures CanRun(s, [step] + rest) && RunFrom(s, [step] + rest) == end
  {
    assert ([step] + rest)[1..] == rest;
  }

  /** Such a send exists: a sender that passed the fast path in time may still send after the last
      worker has left, and then its accepted report stays behind. */
  lemma LateSendIsStranded(r: Report)
    ensures var s := State(1, [], false, [Waiting], [], [], [], 0);
            var steps := [Begin(r)] + ([FastPath(0)] + ([Close] + ([NoticeDone(0)] + ([Exit(0)] + ([Send(0)] + [])))));
            && Initial(s) && CanRun(s, steps)
            && RunFrom(s, steps) == State(1, [r], true, [Exited], [Sender(r, false, Accepted)], [], [], 0)
  {
    var s0 := State(1, [], false, [Waiting], [], [], [], 0);
    var s1 := State(1, [], false, [Waiting], [Sender(r, false, Entering)], [], [], 0);
    var s2 := State(1, [], false, [Waiting], [Sender(r, false, PastFastPath)], [], [], 0);
    var s3 := s2.(done := true);
    var s4 := s3.(workers := [Draining]);
    var s5 := s3.(workers := [Exited]);
    var s6 := State(1, [r], true, [Exited], [Sender(r, false, Accepted)], [], [], 0);
    OneMore(s5, Send(0), s6, [], s6);
    OneMore(s4, Exit(0), s5, [Send(0)] + [], s6);
    OneMore(s3, NoticeDone(0), s4, [Exit(0)] + ([Send(0)] + []), s6);
    OneMore(s2, Close, s3, [NoticeDone(0)] + ([Exit(0)] + ([Send(0)] + [])), s6);
    OneMore(s1, FastPath(0), s2, [Close] + ([NoticeDone(0)] + ([Exit(0)] + ([Send(0)] + []))), s6);
    OneMore(s0, Begin(r), s1, [FastPath(0)] + ([Close] + ([NoticeDone(0)] + ([Exit(0)] + ([Send(0)] + [])))), s6);
  }
}
