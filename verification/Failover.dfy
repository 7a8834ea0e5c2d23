/** The attempt loop over route candidates (internal/proxy/handler.go). */
module Failover {
  /** What meets one candidate. `deadline` says that the error recorded for it is a deadline error; the
      cause of a failed authentication is not kept, so that it never counts as one. */
  datatype Trial =
    /** Provider not configured, unknown protocol, no endpoint, or direction not supported. */
    | Skipped
    /** The client's body cannot be rewritten or translated: every candidate would fail alike. */
    | BadBody
    | AuthFailed
    | NotBuilt
    /** The upstream could not be reached; `cancelled` says the request's own context is over. */
    | Unreachable(cancelled: bool, deadline: bool)
    | Answered(status: int)

  datatype Written = ErrorBody(status: int) | Relayed(candidate: nat)

  datatype Report = Failure(status: int) | Committed(candidate: nat)

  predicate Overloaded(status: int) {
    status == 429 || status >= 500
  }

  function Min(a: nat, b: nat): nat {
    if a < b then a else b
  }

  /** `trials[k]` is what candidate k would meet. Candidates are tried in order, each at most once and
      at most maxAttempts in all; every one before the last tried was passed over for a reason, and
      the loop leaves early only at a candidate that decides the request. Exactly one response is
      written, and a 429 or 5xx answer is relayed only from the last position. A usage report is sent
      exactly when a response is committed, or when everything failed after some candidate had been
      chosen. A model without candidates is not found. */
  method Serve(trials: seq<Trial>, maxAttempts: nat) returns (tried: nat, written: seq<Written>, reports: seq<Report>)
    ensures tried <= Min(|trials|, maxAttempts) && |written| == 1
    ensures forall k :: 0 <= k < tried - 1 ==>
              match trials[k]
              case Skipped => true
              case AuthFailed => true
              case Unreachable(cancelled, _) => !cancelled
              case Answered(status) => status == 429 || status >= 500
              case _ => false
    ensures tried < Min(|trials|, maxAttempts) ==> tried > 0
    ensures 0 < tried < Min(|trials|, maxAttempts) ==>
              match trials[tried - 1]
              case BadBody => true
              case NotBuilt => true
              case Unreachable(cancelled, _) => cancelled
              case Answered(status) => status != 429 && status < 500
              case _ => false
    ensures written[0] ==
              if trials == [] then ErrorBody(404)
              else if tried == 0 then ErrorBody(502)
              else match trials[tried - 1]
                case BadBody => ErrorBody(400)
                case Answered(_) => Relayed(tried - 1)
                case Unreachable(_, deadline) => ErrorBody(if deadline then 504 else 502)
                case _ => ErrorBody(502)
    ensures written[0].Relayed? && (trials[tried - 1].status == 429 || trials[tried - 1].status >= 500) ==>
              tried == Min(|trials|, maxAttempts)
    ensures reports ==
      if written[0].Relayed? then [Committed(written[0].candidate)]
      else if tried > 0 && (trials[tried - 1].BadBody? || trials[tried - 1].NotBuilt?) then []
      else if exists k :: 0 <= k < tried && trials[k] != Skipped then [Failure(written[0].status)]
      else []
  {
    if trials == [] {
      return 0, [ErrorBody(404)], [];
    }
    var attempts := if |trials| > maxAttempts then trials[..maxAttempts] else trials;
    var chosen, deadline := false, false;
    written, reports, tried := [], [], 0;
    while tried < |attempts|
      invariant tried <= |attempts| && written == [] && reports == []
      invariant forall k :: 0 <= k < tried ==>
                  match trials[k]
                  case Skipped => true
                  case AuthFailed => true
                  case Unreachable(cancelled, _) => !cancelled
                  case Answered(status) => status == 429 || status >= 500
                  case _ => false
      invariant chosen <==> exists k :: 0 <= k < tried && trials[k] != Skipped
      invariant deadline == (tried > 0 && trials[tried - 1].Unreachable? && trials[tried - 1].deadline)
      invariant tried == |attempts| && tried > 0 ==> !trials[tried - 1].Answered?
    {
      var t := attempts[tried];
      tried := tried + 1;
      if t == Skipped {
        deadline := false;
        continue;
      }
      chosen := true;
      if t.BadBody? {
        written := [ErrorBody(400)];
        return;
      }
      if t.AuthFailed? {
        deadline := false;
        continue;
      }
      if t.NotBuilt? {
        written := [ErrorBody(502)];
        return;
      }
      if t.Unreachable? {
        deadline := t.deadline;
        if t.cancelled {
          break;
        }
        continue;
      }
      if Overloaded(t.status) && tried < |attempts| {
        deadline := false;
        continue;
      }
      written := [Relayed(tried - 1)];
      reports := [Committed(tried - 1)];
      return;
    }
    var status := if deadline then 504 else 502;
    written := [ErrorBody(status)];
    if chosen {
      reports := [Failure(status)];
    }
  }
}
