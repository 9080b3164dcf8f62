/** The HTTP retry loop: which responses it repeats, how often, and how long it sleeps. */
module Retry {
  import opened Backoffs

  const DEFAULT_RETRY_ATTEMPTS := 4

  // ---- classification of one response -------------------------------------

  datatype Response =
    | NoResponse
    | Response(status: int, retryAfter: nat, decodable: bool)

  datatype Verdict = Accepted | Transient(retryAfter: nat) | Permanent

  function Classify(resp: Response): Verdict {
    match resp
    case NoResponse => Transient(0)
    case Response(status, retryAfter, _) =>
      if 200 <= status < 300 then Accepted
      else if status == 429 then Transient(retryAfter)
      else if status == 401 || status == 403 then Permanent
      else if status >= 500 then Transient(retryAfter)
      else if status >= 400 then Permanent
      else Permanent
  }

  /** A response reduced to what the loop looks at. */
  datatype Reply = Reply(verdict: Verdict, decodable: bool)

  function ReplyOf(resp: Response): Reply {
    Reply(Classify(resp), resp.Response? && resp.decodable)
  }

  /** What is retried: silence, 429 and 5xx. Every other 4xx, authentication included, is final. */
  lemma RetriedResponses(resp: Response)
    ensures ReplyOf(resp).verdict.Transient? <==> resp.NoResponse? || resp.status == 429 || resp.status >= 500
    ensures ReplyOf(resp).verdict.Accepted? <==> resp.Response? && 200 <= resp.status < 300
    ensures ReplyOf(resp).decodable ==> resp.Response?
  {
  }

  // ---- the loop -----------------------------------------------------------

  /** What the network and the caller's context do around each attempt (1-based). */
  datatype Weather = Weather(
    reply: nat -> Reply,
    stopped: nat -> bool,       // context or rate limiter fails before the request
    interrupted: nat -> bool)   // context ends during the sleep after the request

  datatype CallResult = Done | Undecodable | Failed(verdict: Verdict) | Cancelled

  function Attempts(option: int): (n: nat)
    ensures n >= 1
  {
    if option <= 0 then DEFAULT_RETRY_ATTEMPTS else option
  }

  /** The attempt at which the loop must stop if nobody cancels it: the first whose reply is
      not transient, or the last one allowed. */
  function StopsAt(reply: nat -> Reply, from: nat, retries: nat): (n: nat)
    requires from <= retries
    ensures from <= n <= retries
    ensures n == retries || !reply(n).verdict.Transient?
    ensures forall k | from <= k < n :: reply(k).verdict.Transient?
    decreases retries - from
  {
    if from == retries || !reply(from).verdict.Transient? then from
    else StopsAt(reply, from + 1, retries)
  }

  /** A waiting rule that honours Retry-After and adds nothing beyond the client's own cap. */
  ghost predicate Admissible(wait: (nat, nat) -> int) {
    forall attempt: nat, retryAfter: nat :: attempt >= 1 ==>
      retryAfter <= wait(attempt, retryAfter) <= Max(retryAfter, MAX_OWN_DELAY)
  }

  lemma OwnWaitIsAdmissible(frac: nat -> real)
    requires forall k :: 0.0 <= frac(k) < 1.0
    ensures Admissible(OwnWait(frac))
  {
    forall attempt: nat, retryAfter: nat | attempt >= 1
      ensures retryAfter <= OwnWait(frac)(attempt, retryAfter) <= Max(retryAfter, MAX_OWN_DELAY)
    {
      BackoffBounds(attempt, retryAfter, frac(attempt));
    }
  }

  /** The k-th sleep (0-based) comes after attempt k+1, which failed transiently, and lasts what
      the waiting rule says for that failure. */
  predicate SleepsExplained(sleeps: seq<int>, reply: nat -> Reply, wait: (nat, nat) -> int) {
    forall k | 0 <= k < |sleeps| :: FollowsTransient(sleeps[k], reply(k + 1).verdict, k + 1, wait)
  }

  predicate FollowsTransient(sleep: int, v: Verdict, attempt: nat, wait: (nat, nat) -> int) {
    v.Transient? && sleep == wait(attempt, v.retryAfter)
  }

  method DoJSON(option: int, w: Weather, wait: (nat, nat) -> int, decode: bool)
    returns (result: CallResult, requests: nat, sleeps: seq<int>)
    // At most `retries` requests, with a sleep exactly between two of them; only a
    // cancellation can follow the last sleep directly.
    ensures requests <= Attempts(option)
    ensures SleepsExplained(sleeps, w.reply, wait)
    ensures |sleeps| + (if result == Cancelled then 0 else 1) == requests
    // Unless cancelled, the loop stops exactly where it must and reports that reply.
    ensures result != Cancelled ==> requests == StopsAt(w.reply, 1, Attempts(option))
    ensures result == Done ==> w.reply(requests).verdict.Accepted? && (decode ==> w.reply(requests).decodable)
    ensures result == Undecodable ==> w.reply(requests).verdict.Accepted? && decode && !w.reply(requests).decodable
    ensures result.Failed? ==> result.verdict == w.reply(requests).verdict && !result.verdict.Accepted?
    // Cancellation is reported only when the context really ended.
    ensures result == Cancelled ==> w.stopped(requests + 1) || (requests > 0 && w.interrupted(requests))
  {
    var retries := Attempts(option);
    requests, sleeps := 0, [];
    var lastVerdict := Permanent;
    var attempt := 1;
    while attempt <= retries
      invariant 1 <= attempt <= retries
      invariant requests == attempt - 1 == |sleeps|
      invariant SleepsExplained(sleeps, w.reply, wait)
      invariant StopsAt(w.reply, attempt, retries) == StopsAt(w.reply, 1, retries)
    {
      if w.stopped(attempt) {
        return Cancelled, requests, sleeps;
      }
      var reply := w.reply(attempt);
      requests := requests + 1;
      if reply.verdict.Accepted? {
        if decode && !reply.decodable {
          return Undecodable, requests, sleeps;
        }
        return Done, requests, sleeps;
      }
      lastVerdict := reply.verdict;
      if reply.verdict.Permanent? {
        return Failed(reply.verdict), requests, sleeps;
      }
      if attempt == retries {
        break;
      }
      sleeps := sleeps + [wait(attempt, reply.verdict.retryAfter)];
      if w.interrupted(attempt) {
        return Cancelled, requests, sleeps;
      }
      attempt := attempt + 1;
    }
    return Failed(lastVerdict), requests, sleeps;
  }

  // ---- consequences for every run -----------------------------------------

  /** A transient error reaches the caller only after every allowed attempt was used. */
  lemma TransientOnlyAfterAllAttempts(reply: nat -> Reply, option: int)
    ensures var n := StopsAt(reply, 1, Attempts(option));
      reply(n).verdict.Transient? ==> n == Attempts(option)
  {
  }

  predicate NotBefore(sleep: int, v: Verdict) { v.Transient? && sleep >= v.retryAfter }

  function Sum(s: seq<int>): int {
    if |s| == 0 then 0 else Sum(s[..|s| - 1]) + s[|s| - 1]
  }

  /** The most the client may sleep after its first n attempts. */
  function SleepBudget(reply: nat -> Reply, n: nat): int {
    if n == 0 then 0
    else
      var v := reply(n).verdict;
      SleepBudget(reply, n - 1) + Max(if v.Transient? then v.retryAfter else 0, MAX_OWN_DELAY)
  }

  /** No sleep is shorter than the server's Retry-After, and together they keep the budget. */
  lemma {:induction false} SleepsHonourServer(sleeps: seq<int>, reply: nat -> Reply, wait: (nat, nat) -> int)
    requires Admissible(wait) && SleepsExplained(sleeps, reply, wait)
    ensures forall k | 0 <= k < |sleeps| :: NotBefore(sleeps[k], reply(k + 1).verdict)
    ensures Sum(sleeps) <= SleepBudget(reply, |sleeps|)
  {
    forall k | 0 <= k < |sleeps|
      ensures NotBefore(sleeps[k], reply(k + 1).verdict)
    {
      assert FollowsTransient(sleeps[k], reply(k + 1).verdict, k + 1, wait);
    }
    if |sleeps| > 0 {
      var n := |sleeps| - 1;
      SleepsHonourServer(sleeps[..n], reply, wait);
      assert FollowsTransient(sleeps[n], reply(n + 1).verdict, n + 1, wait);
    }
  }
}
