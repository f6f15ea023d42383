// The in-memory limiter of anonymous answers: a log of accepted instants per
// network, cut to the window at each request. Time is a real clock in seconds.
module RateLimiter {
  type NetKey = string

  datatype Verdict = Accepted | Limited(retryAfter: int)

  // ---- one bucket ----

  predicate Fresh(t: real, now: real, window: int) {
    now - t < window as real
  }

  function Live(stamps: seq<real>, now: real, window: int): (r: seq<real>)
    ensures |r| <= |stamps|
    ensures forall t :: t in r <==> t in stamps && Fresh(t, now, window)
  {
    if stamps == [] then []
    else (if Fresh(stamps[0], now, window) then [stamps[0]] else []) + Live(stamps[1..], now, window)
  }

  function RetryAfter(oldest: real, now: real, window: int): int {
    var retry := (window as real - (now - oldest)).Floor + 1;
    if retry < 1 then 1 else retry
  }

  predicate Ordered(stamps: seq<real>) {
    forall i, j :: 0 <= i < j < |stamps| ==> stamps[i] <= stamps[j]
  }

  lemma {:induction false} AllKept(stamps: seq<real>, now: real, window: int)
    requires forall i :: 0 <= i < |stamps| ==> Fresh(stamps[i], now, window)
    ensures Live(stamps, now, window) == stamps
  {
    if stamps != [] {
      AllKept(stamps[1..], now, window);
      assert stamps == [stamps[0]] + stamps[1..];
    }
  }

  // On an ordered log the cut keeps a suffix.
  lemma {:induction false} LiveIsSuffix(stamps: seq<real>, now: real, window: int)
    requires Ordered(stamps)
    ensures Live(stamps, now, window) == stamps[|stamps| - |Live(stamps, now, window)|..]
    ensures forall i :: 0 <= i < |stamps| - |Live(stamps, now, window)| ==> !Fresh(stamps[i], now, window)
  {
    if stamps != [] {
      LiveIsSuffix(stamps[1..], now, window);
      var rest := Live(stamps[1..], now, window);
      if Fresh(stamps[0], now, window) {
        AllKept(stamps, now, window);
      } else {
        assert stamps[1..][|stamps| - 1 - |rest|..] == stamps[|stamps| - |rest|..];
        forall i | 0 <= i < |stamps| - |rest| ensures !Fresh(stamps[i], now, window) {
          if i > 0 {
            assert stamps[i] == stamps[1..][i - 1];
          }
        }
      }
    }
  }

  // The first request that the window rejects is told to wait until its oldest
  // accepted one leaves the window, rounded up to whole seconds.
  lemma RetryClearsOldest(oldest: real, now: real, window: int)
    requires Fresh(oldest, now, window)
    ensures RetryAfter(oldest, now, window) >= 1
    ensures !Fresh(oldest, now + RetryAfter(oldest, now, window) as real, window)
    ensures Fresh(oldest, now + RetryAfter(oldest, now, window) as real - 1.0, window)
         || now + RetryAfter(oldest, now, window) as real - 1.0 == oldest + window as real
  {}

  // ---- the limiter ----

  function Bucket(buckets: map<NetKey, seq<real>>, key: NetKey): seq<real> {
    if key in buckets then buckets[key] else []
  }

  class AnswerRateLimiter {
    const maxRequests: int
    const window: int
    var buckets: map<NetKey, seq<real>>

    ghost predicate Valid()
      reads this
    {
      maxRequests >= 1 && window >= 1
    }

    constructor (max: int, windowSeconds: int)
      requires max >= 1 && windowSeconds >= 1
      ensures Valid() && maxRequests == max && window == windowSeconds && buckets == map[]
    {
      maxRequests, window, buckets := max, windowSeconds, map[];
    }

    method Consume(key: NetKey, now: real) returns (verdict: Verdict)
      requires Valid()
      modifies this
      ensures (buckets, verdict) == Step(maxRequests, window, old(buckets), key, now)
    {
      var stamps := Live(Bucket(buckets, key), now, window);
      if |stamps| >= maxRequests {
        verdict := Limited(RetryAfter(stamps[0], now, window));
        return;
      }
      buckets := buckets[key := stamps + [now]];
      verdict := Accepted;
    }
  }

  function Step(
    max: nat, window: int, buckets: map<NetKey, seq<real>>, key: NetKey, now: real): (map<NetKey, seq<real>>, Verdict)
    requires max >= 1
  {
    var stamps := Live(Bucket(buckets, key), now, window);
    if |stamps| >= max then (buckets, Limited(RetryAfter(stamps[0], now, window)))
    else (buckets[key := stamps + [now]], Accepted)
  }

  // ---- runs ----

  datatype Request = Request(key: NetKey, at: real)

  ghost predicate Monotone(requests: seq<Request>) {
    forall i, j :: 0 <= i < j < |requests| ==> requests[i].at <= requests[j].at
  }

  // The buckets after the requests, and the instants accepted for one key.
  function Buckets(max: nat, window: int, requests: seq<Request>): map<NetKey, seq<real>>
    requires max >= 1
    decreases |requests|
  {
    if requests == [] then map[]
    else
      var last := requests[|requests| - 1];
      Step(max, window, Buckets(max, window, requests[..|requests| - 1]), last.key, last.at).0
  }

  function AcceptedTimes(max: nat, window: int, requests: seq<Request>, key: NetKey): seq<real>
    requires max >= 1
    decreases |requests|
  {
    if requests == [] then []
    else
      var before := requests[..|requests| - 1];
      var last := requests[|requests| - 1];
      AcceptedTimes(max, window, before, key) +
        (if last.key == key && Step(max, window, Buckets(max, window, before), key, last.at).1 == Accepted
         then [last.at] else [])
  }

  // The bucket is the tail of the accepted log that can still count.
  ghost predicate Tail(bucket: seq<real>, log: seq<real>, now: real, window: int) {
    && |bucket| <= |log| && bucket == log[|log| - |bucket|..]
    && (forall i :: 0 <= i < |log| - |bucket| ==> !Fresh(log[i], now, window))
  }

  ghost predicate Spaced(log: seq<real>, max: nat, window: int) {
    forall i :: 0 <= i && i + max < |log| ==> log[i + max] - log[i] >= window as real
  }

  // What a bucket and the accepted log of its key have in common at a moment.
  ghost predicate InStep(bucket: seq<real>, log: seq<real>, now: real, max: nat, window: int) {
    && Ordered(log) && (forall i :: 0 <= i < |log| ==> log[i] <= now)
    && Tail(bucket, log, now, window)
    && |bucket| <= max && Spaced(log, max, window)
  }

  lemma Later(bucket: seq<real>, log: seq<real>, now: real, later: real, max: nat, window: int)
    requires InStep(bucket, log, now, max, window) && now <= later
    ensures InStep(bucket, log, later, max, window)
  {
    forall i | 0 <= i < |log| - |bucket| ensures !Fresh(log[i], later, window) {
      assert !Fresh(log[i], now, window);
    }
  }

  lemma {:induction false} LogInvariant(max: nat, window: int, requests: seq<Request>, key: NetKey, now: real)
    requires max >= 1 && Monotone(requests)
    requires forall i :: 0 <= i < |requests| ==> requests[i].at <= now
    ensures InStep(Bucket(Buckets(max, window, requests), key), AcceptedTimes(max, window, requests, key), now, max,
            window)
    decreases |requests|
  {
    if requests != [] {
      var n := |requests| - 1;
      var before, last := requests[..n], requests[n];
      LogInvariant(max, window, before, key, last.at);
      LastRequest(max, window, requests, key);
      Later(Bucket(Buckets(max, window, requests), key), AcceptedTimes(max, window, requests, key), last.at, now,
        max, window);
    }
  }

  lemma TailOrdered(bucket: seq<real>, log: seq<real>, now: real, window: int)
    requires Ordered(log) && Tail(bucket, log, now, window)
    ensures Ordered(bucket)
  {}

  // The cut of the bucket is still a tail of the log.
  lemma CutIsTail(bucket: seq<real>, log: seq<real>, now: real, window: int)
    requires Ordered(log) && Tail(bucket, log, now, window)
    ensures Tail(Live(bucket, now, window), log, now, window)
  {
    var stamps := Live(bucket, now, window);
    TailOrdered(bucket, log, now, window);
    LiveIsSuffix(bucket, now, window);
    assert stamps == log[|log| - |stamps|..];
    forall i | 0 <= i < |log| - |stamps| ensures !Fresh(log[i], now, window) {
      if i >= |log| - |bucket| {
        assert log[i] == bucket[i - (|log| - |bucket|)];
      }
    }
  }

  lemma AppendKeeps(stamps: seq<real>, log: seq<real>, now: real, max: nat, window: int)
    requires InStep(stamps, log, now, max, window) && |stamps| < max
    ensures InStep(stamps + [now], log + [now], now, max, window)
  {
    var log' := log + [now];
    assert stamps + [now] == log'[|log'| - |stamps| - 1..];
    forall i | 0 <= i && i + max < |log'| ensures log'[i + max] - log'[i] >= window as real {
      if i + max == |log| {
        assert !Fresh(log[i], now, window);
      }
    }
  }

  lemma LastRequest(max: nat, window: int, requests: seq<Request>, key: NetKey)
    requires max >= 1 && requests != []
    requires var n := |requests| - 1;
             InStep(Bucket(Buckets(max, window, requests[..n]), key), AcceptedTimes(max, window, requests[..n], key),
               requests[n].at, max, window)
    ensures InStep(Bucket(Buckets(max, window, requests), key), AcceptedTimes(max, window, requests, key),
                   requests[|requests| - 1].at, max, window)
  {
    var n := |requests| - 1;
    var buckets, log := Buckets(max, window, requests[..n]), AcceptedTimes(max, window, requests[..n], key);
    var last := requests[n];
    if last.key == key {
      RequestKeeps(max, window, buckets, log, key, last.at);
      var (buckets', verdict) := Step(max, window, buckets, key, last.at);
      assert AcceptedTimes(max, window, requests, key) == if verdict == Accepted then log + [last.at] else log;
    } else {
      assert Bucket(Step(max, window, buckets, last.key, last.at).0, key) == Bucket(buckets, key);
      assert AcceptedTimes(max, window, requests, key) == log;
    }
  }

  // One request of the key itself.
  lemma RequestKeeps(max: nat, window: int, buckets: map<NetKey, seq<real>>, log: seq<real>, key: NetKey, now: real)
    requires max >= 1 && InStep(Bucket(buckets, key), log, now, max, window)
    ensures var (buckets', verdict) := Step(max, window, buckets, key, now);
            InStep(Bucket(buckets', key), if verdict == Accepted then log + [now] else log, now, max, window)
  {
    var stamps := Live(Bucket(buckets, key), now, window);
    CutIsTail(Bucket(buckets, key), log, now, window);
    if |stamps| < max {
      AppendKeeps(stamps, log, now, max, window);
    }
  }

  // Any max + 1 consecutive accepted requests of one key span the whole window,
  // so no half-open window ever holds more than max of them.
  lemma BudgetHolds(max: nat, window: int, requests: seq<Request>, key: NetKey, i: nat)
    requires max >= 1 && Monotone(requests)
    requires i + max < |AcceptedTimes(max, window, requests, key)|
    ensures var times := AcceptedTimes(max, window, requests, key);
            times[i + max] - times[i] >= window as real
  {
    LogInvariant(max, window, requests, key, requests[|requests| - 1].at);
  }

  // A limited caller that waits at least as long as it was told is accepted, whatever requests of
  // other keys come in between.
  lemma RetryIsAccepted(
    max: nat, window: int, requests: seq<Request>, key: NetKey, now: real, others: seq<Request>, later: real)
    requires max >= 1 && Monotone(requests)
    requires forall i :: 0 <= i < |requests| ==> requests[i].at <= now
    requires Step(max, window, Buckets(max, window, requests), key, now).1.Limited?
    requires later >= now + Step(max, window, Buckets(max, window, requests), key, now).1.retryAfter as real
    requires forall i :: 0 <= i < |others| ==> others[i].key != key
    ensures Step(max, window, Buckets(max, window, requests + [Request(key, now)] + others), key, later).1 == Accepted
  {
    LogInvariant(max, window, requests, key, now);
    WaitingWorks(max, window, Buckets(max, window, requests), AcceptedTimes(max, window, requests, key), key, now,
      later);
    var refused := requests + [Request(key, now)];
    assert refused[..|refused| - 1] == requests;
    OthersLeaveBucket(max, window, refused, key, others);
  }

  // Requests of other keys do not touch the bucket.
  lemma {:induction false} OthersLeaveBucket(
    max: nat, window: int, requests: seq<Request>, key: NetKey, others: seq<Request>)
    requires max >= 1 && forall i :: 0 <= i < |others| ==> others[i].key != key
    ensures Bucket(Buckets(max, window, requests + others), key) == Bucket(Buckets(max, window, requests), key)
    decreases |others|
  {
    if others == [] {
      assert requests + others == requests;
    } else {
      var n := |others| - 1;
      assert (requests + others)[..|requests + others| - 1] == requests + others[..n];
      OthersLeaveBucket(max, window, requests, key, others[..n]);
    }
  }

  lemma WaitingWorks(
    max: nat, window: int, buckets: map<NetKey, seq<real>>, log: seq<real>, key: NetKey, now: real, later: real)
    requires max >= 1 && InStep(Bucket(buckets, key), log, now, max, window)
             && Step(max, window, buckets, key, now).1.Limited?
    requires later >= now + Step(max, window, buckets, key, now).1.retryAfter as real
    ensures Step(max, window, buckets, key, later).1 == Accepted
  {
    FullBucketClears(Bucket(buckets, key), log, now, max, window, later);
  }

  lemma FullBucketClears(bucket: seq<real>, log: seq<real>, now: real, max: nat, window: int, later: real)
    requires max >= 1 && InStep(bucket, log, now, max, window) && |Live(bucket, now, window)| >= max
    requires later >= now + RetryAfter(Live(bucket, now, window)[0], now, window) as real
    ensures |Live(bucket, later, window)| < max
  {
    TailOrdered(bucket, log, now, window);
    LiveIsSuffix(bucket, now, window);
    assert Live(bucket, now, window) == bucket;
    assert bucket[0] in Live(bucket, now, window);
    RetryClearsOldest(bucket[0], now, window);
    LiveIsSuffix(bucket, later, window);
    assert bucket[0] !in Live(bucket, later, window);
  }

  // The accepted requests of the log that still count.
  ghost function Counting(log: seq<real>, now: real, window: int): set<nat> {
    set i: nat | i < |log| && now - log[i] < window as real
  }

  lemma {:induction false} LastOnes(s: set<nat>, n: nat, k: nat)
    requires k <= n && forall i: nat :: i in s <==> n - k <= i < n
    ensures |s| == k
  {
    if k > 0 {
      LastOnes(s - {n - k}, n, k - 1);
    } else {
      assert s == {};
    }
  }

  lemma TailCounts(stamps: seq<real>, log: seq<real>, now: real, window: int)
    requires Tail(stamps, log, now, window) && forall i :: 0 <= i < |stamps| ==> Fresh(stamps[i], now, window)
    ensures |Counting(log, now, window)| == |stamps|
  {
    var k := |log| - |stamps|;
    forall i: nat | k <= i < |log| ensures Fresh(log[i], now, window) {
      assert log[i] == stamps[i - k];
    }
    LastOnes(Counting(log, now, window), |log|, |stamps|);
  }

  lemma LiveIsTail(bucket: seq<real>, log: seq<real>, now: real, max: nat, window: int)
    requires InStep(bucket, log, now, max, window)
    ensures var stamps := Live(bucket, now, window);
            && Tail(stamps, log, now, window) && |stamps| <= max
            && forall i :: 0 <= i < |stamps| ==> Fresh(stamps[i], now, window)
  {
    var stamps := Live(bucket, now, window);
    CutIsTail(bucket, log, now, window);
    forall i | 0 <= i < |stamps| ensures Fresh(stamps[i], now, window) {
      assert stamps[i] in stamps;
    }
  }

  lemma RetryIs(oldest: real, now: real, window: int)
    requires Fresh(oldest, now, window)
    ensures var left := window as real - (now - oldest);
            var wait := RetryAfter(oldest, now, window);
            0.0 < left && (wait - 1) as real <= left < wait as real
  {}

  // How long the key has to wait, if at all, by its log of accepted requests.
  ghost predicate VerdictIs(log: seq<real>, now: real, max: nat, window: int, verdict: Verdict)
    requires max >= 1
  {
    match verdict
    case Accepted => |Counting(log, now, window)| < max
    case Limited(wait) =>
      && |Counting(log, now, window)| == max <= |log|
      && var left := window as real - (now - log[|log| - max]);
         0.0 < left && (wait - 1) as real <= left < wait as real
  }

  lemma BucketVerdict(max: nat, window: int, buckets: map<NetKey, seq<real>>, log: seq<real>, key: NetKey, now: real)
    requires max >= 1 && InStep(Bucket(buckets, key), log, now, max, window)
    ensures VerdictIs(log, now, max, window, Step(max, window, buckets, key, now).1)
  {
    var stamps := Live(Bucket(buckets, key), now, window);
    LiveIsTail(Bucket(buckets, key), log, now, max, window);
    TailCounts(stamps, log, now, window);
    if |stamps| >= max {
      RetryIs(stamps[0], now, window);
      assert stamps[0] == log[|log| - max];
    }
  }

  // After any requests, a request is accepted exactly when fewer than max accepted ones of its key
  // lie within the window. Otherwise the wait ends the first whole second after the oldest of the
  // last max has left it.
  lemma AcceptedIff(max: nat, window: int, requests: seq<Request>, key: NetKey, now: real)
    requires max >= 1 && Monotone(requests)
    requires forall i :: 0 <= i < |requests| ==> requests[i].at <= now
    ensures VerdictIs(AcceptedTimes(max, window, requests, key), now, max, window,
                      Step(max, window, Buckets(max, window, requests), key, now).1)
  {
    LogInvariant(max, window, requests, key, now);
    BucketVerdict(max, window, Buckets(max, window, requests), AcceptedTimes(max, window, requests, key), key, now);
  }
}
