/** Delivery of one usage report with retries, and its effect on a control plane that deduplicates by
    request id (internal/metering/queue.go, internal/controlplane/client.go, cmd/mock-controlplane). */
module Delivery {
  import opened MeteringQueue

  // ---- The HTTP exchange, classified --------------------------------------------------------

  datatype Body = Undecodable | BusinessError | NoData | BadData | Result(accepted: bool, duplicate: bool)

  datatype Exchange = TransportError | ReadError | Answered(status: int, body: Body)

  datatype Reply = Retryable | Terminal | Final(accepted: bool, duplicate: bool)

  /** Network failures, 5xx, 429 and 408 are worth another try; every other failure is not. */
  function Classify(x: Exchange): Reply {
    match x
    case TransportError => Retryable
    case ReadError => Retryable
    case Answered(status, body) =>
      if status >= 500 || status == 429 || status == 408 then Retryable
      else if status != 200 || !body.Result? then Terminal
      else Final(body.accepted, body.duplicate)
  }

  datatype Label = Ok | Duplicate | Rejected | Dropped

  function LabelOf(r: Reply): Label {
    if !r.Final? then Dropped else if r.duplicate then Duplicate else if r.accepted then Ok else Rejected
  }

  // ---- The retry loop -----------------------------------------------------------------------

  function Pow2(k: nat): nat {
    if k == 0 then 1 else 2 * Pow2(k - 1)
  }

  /** The wait after attempt k, in milliseconds: doubling from 200 and flat from the sixth on. */
  function Wait(k: nat): nat {
    200 * Pow2(if k < 5 then k else 5)
  }

  function Retries(maxRetries: int): nat {
    if maxRetries < 0 then 0 else maxRetries
  }

  /** Attempt k, answered with r, is the last one. */
  predicate Ends(r: Reply, k: nat, maxRetries: int) {
    r != Retryable || k >= maxRetries
  }

  /** `exchange(k)` is what the k-th attempt meets. The loop stops at the first attempt that is
      answered, refused for good, or out of retries; it waits between attempts. */
  method Deliver(exchange: nat -> Exchange, maxRetries: int) returns (verdict: Label, attempts: nat, waits: seq<nat>)
    ensures 1 <= attempts <= (if maxRetries < 0 then 0 else maxRetries) + 1
    ensures forall k :: 0 <= k < attempts - 1 ==>
              exchange(k).Answered? ==>
                exchange(k).status >= 500 || exchange(k).status == 429 || exchange(k).status == 408
    ensures match exchange(attempts - 1)
            case Answered(status, body) =>
              if status >= 500 || status == 429 || status == 408 then
                verdict == Dropped && attempts == (if maxRetries < 0 then 0 else maxRetries) + 1
              else verdict == if status != 200 || !body.Result? then Dropped
                              else if body.duplicate then Duplicate
                              else if body.accepted then Ok else Rejected
            case _ => verdict == Dropped && attempts == (if maxRetries < 0 then 0 else maxRetries) + 1
    ensures verdict == LabelOf(Classify(exchange(attempts - 1)))
    ensures |waits| == attempts - 1
    ensures forall k :: 0 <= k < |waits| ==> waits[k] == [200, 400, 800, 1600, 3200, 6400][if k < 5 then k else 5]
  {
    var backoff := 200;
    var attempt := 0;
    waits := [];
    while true
      invariant 0 <= attempt <= Retries(maxRetries) && |waits| == attempt && backoff == Wait(attempt)
      invariant forall k :: 0 <= k < attempt ==> Classify(exchange(k)) == Retryable
      invariant forall k :: 0 <= k < attempt ==> waits[k] == [200, 400, 800, 1600, 3200, 6400][if k < 5 then k else 5]
      decreases Retries(maxRetries) - attempt
    {
      var reply := Classify(exchange(attempt));
      if reply.Final? {
        return if reply.duplicate then Duplicate else if reply.accepted then Ok else Rejected, attempt + 1, waits;
      }
      if reply != Retryable || attempt >= maxRetries {
        return Dropped, attempt + 1, waits;
      }
      waits := waits + [backoff];
      BackoffDoubles(attempt);
      if backoff < 5000 {
        backoff := backoff * 2;
      }
      attempt := attempt + 1;
    }
  }

  lemma BackoffDoubles(k: nat)
    ensures Wait(k) == [200, 400, 800, 1600, 3200, 6400][if k < 5 then k else 5]
    ensures Wait(k + 1) == if Wait(k) < 5000 then 2 * Wait(k) else Wait(k)
    ensures 200 <= Wait(k) <= 6400
  {
    assert Pow2(0) == 1 && Pow2(1) == 2 && Pow2(2) == 4 && Pow2(3) == 8 && Pow2(4) == 16 && Pow2(5) == 32;
    assert k < 5 ==> k == 0 || k == 1 || k == 2 || k == 3 || k == 4;
  }

  // ---- The control plane --------------------------------------------------------------------

  datatype Server = Server(keys: set<string>, seen: set<string>, usages: seq<Report>)

  predicate Admissible(keys: set<string>, r: Report) {
    r.id != "" && r.key in keys
  }

  function Answer(s: Server, r: Report): Body {
    if !Admissible(s.keys, r) then Result(false, false) else Result(true, r.id in s.seen)
  }

  function Record(s: Server, r: Report): Server {
    if !Admissible(s.keys, r) || r.id in s.seen then s else s.(seen := s.seen + {r.id}, usages := s.usages + [r])
  }

  class ControlPlane {
    const keys: set<string>
    var seen: set<string>
    var usages: seq<Report>

    ghost function Abs(): Server
      reads this
    {
      Server(keys, seen, usages)
    }

    constructor (keys: set<string>)
      ensures Abs() == Server(keys, {}, [])
    {
      this.keys, seen, usages := keys, {}, [];
    }

    method HandleUsage(r: Report) returns (answer: Body)
      modifies this
      ensures answer == Answer(old(Abs()), r) && Abs() == Record(old(Abs()), r)
      ensures answer.Result? && (answer.accepted <==> r.id != "" && r.key in keys)
      ensures answer.duplicate <==> answer.accepted && r.id in old(seen)
      ensures usages == if answer.accepted && !answer.duplicate then old(usages) + [r] else old(usages)
      ensures seen == if answer.accepted then old(seen) + {r.id} else old(seen)
    {
      if r.id == "" {
        return Result(false, false);
      }
      if r.key !in keys {
        return Result(false, false);
      }
      if r.id in seen {
        return Result(true, true);
      }
      seen := seen + {r.id};
      usages := usages + [r];
      answer := Result(true, false);
    }
  }

  // ---- Many deliveries over a network that delays and loses ---------------------------------

  /** One run of the retry loop: about to make attempt k, waiting for its answer, or over. */
  datatype Phase = Ready(k: nat) | Awaiting(k: nat) | Over(verdict: Label, attempts: nat)

  datatype Job = Job(report: Report, phase: Phase)

  datatype Message = Message(job: nat, attempt: nat)

  /** Requests under way to the server, and answers under way back. */
  datatype State = State(server: Server, jobs: seq<Job>, requests: set<Message>, answers: map<Message, Body>,
                         maxRetries: int)

  /** A request may be lost, or reach the server at any later time, even after its sender gave up on
      it; an answer may be lost; an attempt may fail for any other reason. */
  datatype Step =
    | Start(report: Report)
    | Attempt(j: nat)
    | LoseRequest(m: Message)
    | Process(m: Message)
    | LoseAnswer(m: Message)
    | Receive(j: nat)
    | FailAttempt(j: nat, x: Exchange)

  predicate Initial(s: State) {
    s.server.seen == {} && s.server.usages == [] && s.jobs == [] && s.requests == {} && s.answers == map[]
  }

  predicate Enabled(s: State, step: Step) {
    match step
    case Start(_) => true
    case Attempt(j) => j < |s.jobs| && s.jobs[j].phase.Ready?
    case LoseRequest(m) => m in s.requests
    case Process(m) => m in s.requests && m.job < |s.jobs|
    case LoseAnswer(m) => m in s.answers
    case Receive(j) => j < |s.jobs| && s.jobs[j].phase.Awaiting? && Message(j, s.jobs[j].phase.k) in s.answers
    case FailAttempt(j, x) => j < |s.jobs| && s.jobs[j].phase.Awaiting? && !Classify(x).Final?
  }

  /** Where the retry loop goes from attempt k. */
  function After(r: Reply, k: nat, maxRetries: int): Phase {
    if Ends(r, k, maxRetries) then Over(LabelOf(r), k + 1) else Ready(k + 1)
  }

  function SetPhase(s: State, j: nat, p: Phase): State
    requires j < |s.jobs|
  {
    s.(jobs := s.jobs[j := s.jobs[j].(phase := p)])
  }

  function Apply(s: State, step: Step): State
    requires Enabled(s, step)
  {
    match step
    case Start(report) => s.(jobs := s.jobs + [Job(report, Ready(0))])
    case Attempt(j) =>
      var k := s.jobs[j].phase.k;
      SetPhase(s, j, Awaiting(k)).(requests := s.requests + {Message(j, k)})
    case LoseRequest(m) => s.(requests := s.requests - {m})
    case Process(m) =>
      var r := s.jobs[m.job].report;
      s.(server := Record(s.server, r), requests := s.requests - {m}, answers := s.answers[m := Answer(s.server, r)])
    case LoseAnswer(m) => s.(answers := s.answers - {m})
    case Receive(j) =>
      var k := s.jobs[j].phase.k;
      SetPhase(s, j, After(Classify(Answered(200, s.answers[Message(j, k)])), k, s.maxRetries))
    case FailAttempt(j, x) => SetPhase(s, j, After(Classify(x), s.jobs[j].phase.k, s.maxRetries))
  }

  // ---- Invariant ----------------------------------------------------------------------------

  /** The books: ids are recorded once, are exactly the ones seen, and were admissible. */
  ghost predicate Books(s: Server) {
    && (forall a, b :: 0 <= a < b < |s.usages| ==> s.usages[a].id != s.usages[b].id)
    && (forall a :: 0 <= a < |s.usages| ==> Admissible(s.keys, s.usages[a]) && s.usages[a].id in s.seen)
    && (forall id :: id in s.seen ==> exists a :: 0 <= a < |s.usages| && s.usages[a].id == id)
  }

  /** An answer tells the truth about its report, then and ever after. */
  ghost predicate Truthful(s: Server, r: Report, body: Body) {
    body.Result? && (body.accepted ==> r.id in s.seen) && (!body.accepted ==> !body.duplicate && !Admissible(s.keys, r))
  }

  ghost predicate Outcome(s: Server, r: Report, p: Phase, maxRetries: int) {
    match p
    case Ready(k) => k <= Retries(maxRetries)
    case Awaiting(k) => k <= Retries(maxRetries)
    case Over(verdict, attempts) =>
      && 1 <= attempts <= Retries(maxRetries) + 1
      && (verdict == Ok || verdict == Duplicate ==> r.id in s.seen)
      && (verdict == Rejected ==> !Admissible(s.keys, r))
  }

  ghost predicate HasJob(jobs: seq<Job>, r: Report) {
    exists j :: 0 <= j < |jobs| && jobs[j].report == r
  }

  ghost predicate FromJobs(s: State) {
    forall a :: 0 <= a < |s.server.usages| ==> HasJob(s.jobs, s.server.usages[a])
  }

  ghost predicate JobsOk(s: State) {
    forall j :: 0 <= j < |s.jobs| ==> Outcome(s.server, s.jobs[j].report, s.jobs[j].phase, s.maxRetries)
  }

  ghost predicate AnswersOk(s: State) {
    forall m :: m in s.answers ==> m.job < |s.jobs| && Truthful(s.server, s.jobs[m.job].report, s.answers[m])
  }

  ghost predicate Inv(s: State) {
    Books(s.server) && FromJobs(s) && JobsOk(s) && AnswersOk(s)
  }

  lemma RecordKeepsBooks(s: Server, r: Report)
    requires Books(s)
    ensures Books(Record(s, r)) && s.seen <= Record(s, r).seen && Record(s, r).keys == s.keys
    ensures Truthful(Record(s, r), r, Answer(s, r))
  {
    var t := Record(s, r);
    if t != s {
      forall id | id in t.seen ensures exists a :: 0 <= a < |t.usages| && t.usages[a].id == id {
        if id == r.id {
          assert t.usages[|s.usages|].id == id;
        } else {
          var a :| 0 <= a < |s.usages| && s.usages[a].id == id;
          assert t.usages[a].id == id;
        }
      }
    }
  }

  lemma ProcessStep(s: State, m: Message)
    requires Inv(s) && Enabled(s, Process(m))
    ensures Inv(Apply(s, Process(m)))
  {
    var r, t := s.jobs[m.job].report, Apply(s, Process(m));
    RecordKeepsBooks(s.server, r);
    assert HasJob(t.jobs, r);
  }

  lemma PhaseStep(s: State, j: nat, p: Phase)
    requires Inv(s) && j < |s.jobs| && Outcome(s.server, s.jobs[j].report, p, s.maxRetries)
    ensures Inv(SetPhase(s, j, p))
  {
    var t := SetPhase(s, j, p);
    forall a | 0 <= a < |t.server.usages| ensures HasJob(t.jobs, t.server.usages[a]) {
      assert HasJob(s.jobs, s.server.usages[a]);
      var i :| 0 <= i < |s.jobs| && s.jobs[i].report == s.server.usages[a];
      assert t.jobs[i].report == t.server.usages[a];
    }
  }

  lemma StartStep(s: State, r: Report)
    requires Inv(s)
    ensures Inv(Apply(s, Start(r)))
  {
    var t := Apply(s, Start(r));
    forall a | 0 <= a < |t.server.usages| ensures HasJob(t.jobs, t.server.usages[a]) {
      assert HasJob(s.jobs, s.server.usages[a]);
      var i :| 0 <= i < |s.jobs| && s.jobs[i].report == s.server.usages[a];
      assert t.jobs[i].report == t.server.usages[a];
    }
  }

  lemma StepInv(s: State, step: Step)
    requires Inv(s) && Enabled(s, step)
    ensures Inv(Apply(s, step))
  {
    match step
    case Start(r) => StartStep(s, r);
    case Attempt(j) => PhaseStep(s, j, Awaiting(s.jobs[j].phase.k));
    case LoseRequest(_) =>
    case Process(m) => ProcessStep(s, m);
    case LoseAnswer(_) =>
    case Receive(j) =>
      var k := s.jobs[j].phase.k;
      assert Outcome(s.server, s.jobs[j].report, s.jobs[j].phase, s.maxRetries);
      PhaseStep(s, j, After(Classify(Answered(200, s.answers[Message(j, k)])), k, s.maxRetries));
    case FailAttempt(j, x) =>
      assert Outcome(s.server, s.jobs[j].report, s.jobs[j].phase, s.maxRetries);
      PhaseStep(s, j, After(Classify(x), s.jobs[j].phase.k, s.maxRetries));
  }

  predicate CanRun(s: State, steps: seq<Step>)
    decreases |steps|
  {
    steps == [] || (Enabled(s, steps[0]) && CanRun(Apply(s, steps[0]), steps[1..]))
  }

  function RunFrom(s: State, steps: seq<Step>): State
    requires CanRun(s, steps)
    decreases |steps|
  {
    if steps == [] then s else RunFrom(Apply(s, steps[0]), steps[1..])
  }

  lemma {:induction false} RunInv(s: State, steps: seq<Step>)
    requires Inv(s) && CanRun(s, steps)
    ensures Inv(RunFrom(s, steps)) && RunFrom(s, steps).maxRetries == s.maxRetries
            && RunFrom(s, steps).server.keys == s.server.keys
    decreases |steps|
  {
    if steps != [] {
      StepInv(s, steps[0]);
      RunInv(Apply(s, steps[0]), steps[1..]);
    }
  }

  function TimesRecorded(us: seq<Report>, id: string): nat {
    if us == [] then 0 else (if us[0].id == id then 1 else 0) + TimesRecorded(us[1..], id)
  }

  lemma {:induction false} DistinctCount(us: seq<Report>, id: string)
    requires forall a, b :: 0 <= a < b < |us| ==> us[a].id != us[b].id
    ensures TimesRecorded(us, id) <= 1
    ensures TimesRecorded(us, id) == 1 <==> exists a :: 0 <= a < |us| && us[a].id == id
  {
    if us != [] {
      DistinctCount(us[1..], id);
      if us[0].id == id {
        assert forall a :: 0 <= a < |us[1..]| ==> us[1..][a] == us[a + 1];
      } else if exists a :: 0 <= a < |us| && us[a].id == id {
        var a :| 0 <= a < |us| && us[a].id == id;
        assert us[1..][a - 1].id == id;
      }
    }
  }

  /** No other report uses the same id. */
  predicate Alone(jobs: seq<Job>, r: Report) {
    forall i :: 0 <= i < |jobs| && jobs[i].report.id == r.id ==> jobs[i].report == r
  }

  /** However requests and answers are delayed or lost and however retries and workers interleave:
      every request id is recorded at most once; a delivery that ended "ok" or "duplicate" is
      recorded exactly once; a report whose delivery ended "rejected" is not recorded, neither now nor
      later, and nothing is under its id if no other report uses it; and no delivery makes more than
      maxRetries + 1 attempts. */
  lemma ExactlyOnce(s: State, steps: seq<Step>, j: nat)
    requires Initial(s) && CanRun(s, steps) && j < |RunFrom(s, steps).jobs|
    ensures var t := RunFrom(s, steps); var job := t.jobs[j];
            && (forall id :: TimesRecorded(t.server.usages, id) <= 1)
            && (job.phase.Over? ==> job.phase.attempts <= Retries(s.maxRetries) + 1)
            && (job.phase.Over? && (job.phase.verdict == Ok || job.phase.verdict == Duplicate) ==>
                  TimesRecorded(t.server.usages, job.report.id) == 1)
            && (job.phase.Over? && job.phase.verdict == Rejected ==> job.report !in t.server.usages)
            && (job.phase.Over? && job.phase.verdict == Rejected && Alone(t.jobs, job.report) ==>
                  TimesRecorded(t.server.usages, job.report.id) == 0)
  {
    RunInv(s, steps);
    var t := RunFrom(s, steps);
    var job := t.jobs[j];
    forall id ensures TimesRecorded(t.server.usages, id) <= 1 {
      DistinctCount(t.server.usages, id);
    }
    DistinctCount(t.server.usages, job.report.id);
    assert Outcome(t.server, job.report, job.phase, t.maxRetries);
    if job.phase.Over? && job.phase.verdict == Rejected && Alone(t.jobs, job.report) {
      forall a | 0 <= a < |t.server.usages| ensures t.server.usages[a].id != job.report.id {
        assert HasJob(t.jobs, t.server.usages[a]);
      }
    }
  }
}
