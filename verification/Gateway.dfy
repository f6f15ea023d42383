// The retrying gateway call, and the breaker records it makes.
module Gateway {
  import opened CircuitBreaker

  datatype Chunk = Delta(text: string) | ToolCall(name: string, arguments: string) | Usage(tokens: nat)

  // How one upstream attempt ends: normally, with a transient or a permanent
  // provider error, or with some other exception.
  datatype End = Finished | Transient | Permanent | Foreign
  datatype Attempt = Attempt(chunks: seq<Chunk>, end: End)

  datatype Result = Completed | GatewayError | Escaped

  function Cap(maxRetries: int): int {
    Max(1, maxRetries)
  }

  function Pow2(n: nat): nat {
    if n == 0 then 1 else 2 * Pow2(n - 1)
  }

  // Seconds slept after a failed attempt.
  function Backoff(attempt: nat): real {
    var wait := 0.3 * Pow2(attempt) as real;
    if wait < 3.0 then wait else 3.0
  }

  lemma {:induction false} Pow2Grows(n: nat, m: nat)
    requires n <= m
    ensures 1 <= Pow2(n) <= Pow2(m)
    decreases m
  {
    if n < m {
      Pow2Grows(n, m - 1);
    } else if n > 0 {
      Pow2Grows(n - 1, n - 1);
    }
  }

  // The waits never shrink, start at 0.3 s and reach their ceiling of 3 s with the fifth.
  lemma BackoffSchedule(n: nat, m: nat)
    requires n <= m
    ensures 0.3 <= Backoff(n) <= Backoff(m) <= 3.0
    ensures Backoff(n) == 3.0 <==> n >= 4
  {
    Pow2Grows(n, m);
    if n >= 4 {
      Pow2Grows(4, n);
    } else {
      assert Pow2(n) <= Pow2(3) by { Pow2Grows(n, 3); }
    }
  }

  // 0.3 s, 0.6 s, 1.2 s, 2.4 s, and 3 s from then on.
  lemma BackoffIs(n: nat)
    ensures Backoff(n) == if n == 0 then 0.3 else if n == 1 then 0.6 else if n == 2 then 1.2
                          else if n == 3 then 2.4 else 3.0
  {
    assert Pow2(1) == 2 && Pow2(2) == 4 && Pow2(3) == 8;
    if n >= 4 {
      BackoffSchedule(4, n);
    }
  }

  // An attempt that may be tried again: transient, with nothing passed on yet.
  predicate Retryable(a: Attempt) {
    a.end == Transient && a.chunks == []
  }

  function ResultOf(a: Attempt): Result {
    match a.end
    case Finished => Completed
    case Transient => GatewayError
    case Permanent => GatewayError
    case Foreign => Escaped
  }

  // What a caller sees of a call that made `used` attempts.
  ghost predicate OneAttemptSeen(attempts: nat -> Attempt, cap: int, used: nat, out: seq<Chunk>, result: Result) {
    && 1 <= used <= cap
    && out == attempts(used - 1).chunks
    && result == ResultOf(attempts(used - 1))
    && (forall j :: 0 <= j < used - 1 ==> Retryable(attempts(j)))
    && (Retryable(attempts(used - 1)) ==> used == cap)
  }

  method AnswerWithRetries(attempts: nat -> Attempt, maxRetries: int)
    returns (out: seq<Chunk>, result: Result, used: nat, slept: seq<real>)
    ensures OneAttemptSeen(attempts, Cap(maxRetries), used, out, result)
    ensures |slept| == if Retryable(attempts(used - 1)) then used else used - 1
    ensures forall j :: 0 <= j < |slept| ==> slept[j] == Backoff(j)
  {
    out, slept := [], [];
    var attempt := 0;
    while attempt < Cap(maxRetries)
      invariant 0 <= attempt <= Cap(maxRetries)
      invariant out == []
      invariant forall j :: 0 <= j < attempt ==> Retryable(attempts(j))
      invariant |slept| == attempt && forall j :: 0 <= j < attempt ==> slept[j] == Backoff(j)
    {
      var current := attempts(attempt);
      var emitted := false;
      var i := 0;
      while i < |current.chunks|
        invariant 0 <= i <= |current.chunks|
        invariant out == current.chunks[..i]
        invariant emitted <==> i > 0
      {
        emitted := true;
        out := out + [current.chunks[i]];
        i := i + 1;
      }
      used := attempt + 1;
      match current.end {
        case Finished =>
          result := Completed;
          return;
        case Transient =>
          if emitted {
            result := GatewayError;
            return;
          }
          slept := slept + [Backoff(attempt)];
        case Permanent =>
          result := GatewayError;
          return;
        case Foreign =>
          result := Escaped;
          return;
      }
      attempt := attempt + 1;
    }
    used := attempt;
    result := GatewayError;
  }

  // The breaker operations of one call: the check, then one record if the call
  // was admitted and ended normally or with a gateway error.
  function Records(admitted: bool, result: Result): seq<Op> {
    if !admitted then [Before]
    else match result
      case Completed => [Before, Success]
      case GatewayError => [Before, Failure]
      case Escaped => [Before]
  }

  method Answer(breaker: CircuitBreaker, attempts: nat -> Attempt, maxRetries: int, startAt: int, endAt: int)
    returns (out: seq<Chunk>, result: Result, used: nat, ops: seq<Op>)
    modifies breaker
    ensures var (s, reply) := LocalStep(breaker.threshold, breaker.recovery, old(breaker.View()), Before, startAt);
            && ops == Records(reply.admitted, result)
            && (!reply.admitted ==> used == 0 && out == [] && result == GatewayError && breaker.View() == s)
            && (reply.admitted ==>
                  && OneAttemptSeen(attempts, Cap(maxRetries), used, out, result)
                  && breaker.View() ==
                     (if |ops| == 2 then LocalStep(breaker.threshold, breaker.recovery, s, ops[1], endAt).0 else s))
  {
    var reply := breaker.BeforeCall(startAt);
    ops := [Before];
    if !reply.admitted {
      return [], GatewayError, 0, ops;
    }
    var slept;
    out, result, used, slept := AnswerWithRetries(attempts, maxRetries);
    if result == GatewayError {
      var _ := breaker.RecordFailure(endAt);
      ops := ops + [Failure];
    } else if result == Completed {
      var _ := breaker.RecordSuccess(endAt);
      ops := ops + [Success];
    }
  }

  // An admitted probe that reports back always leaves half-open; one that
  // escapes with another exception leaves the breaker half-open.
  lemma ProbeReports(threshold: int, recovery: int, s: Local, startAt: int, endAt: int, result: Result)
    requires s.state == Open && LocalStep(threshold, recovery, s, Before, startAt).1.admitted
    ensures var mid := LocalStep(threshold, recovery, s, Before, startAt).0;
            var ops := Records(true, result);
            var end := if |ops| == 2 then LocalStep(threshold, recovery, mid, ops[1], endAt).0 else mid;
            && (end.state == HalfOpen <==> result == Escaped)
            && (end.state == Closed <==> result == Completed)
            && (end.state == Open && end.openedAt == endAt <==> result == GatewayError)
  {
    match result
    case Completed =>
    case GatewayError =>
    case Escaped =>
  }

  predicate Silent(a: Attempt) {
    a.end == Transient && a.chunks == []
  }

  // The attempt that is seen is the first that was not a transient failure before any chunk, or
  // the last that is allowed: as many as asked for, but always one.
  lemma FirstNotSilent(attempts: nat -> Attempt, maxRetries: int, used: nat, out: seq<Chunk>, result: Result)
    requires OneAttemptSeen(attempts, Cap(maxRetries), used, out, result)
    ensures 1 <= used && (used <= maxRetries || used == 1)
    ensures forall j :: 0 <= j < used - 1 ==> Silent(attempts(j))
    ensures Silent(attempts(used - 1)) ==> used == maxRetries || (used == 1 && maxRetries <= 1)
    ensures out == attempts(used - 1).chunks
    ensures match attempts(used - 1).end
            case Finished => result == Completed
            case Transient => result == GatewayError
            case Permanent => result == GatewayError
            case Foreign => result == Escaped
  {
    forall j | 0 <= j < used - 1 ensures Silent(attempts(j)) {
      assert Retryable(attempts(j));
    }
  }
}
