// The circuit breaker in front of the AI providers: the in-process one, and the
// one that all instances share through a Redis hash. Times are milliseconds.
module CircuitBreaker {
  import opened Options

  datatype State = Closed | Open | HalfOpen
  datatype Event = Opened | Rejected | Recovered
  datatype Op = Before | Success | Failure

  // `admitted` is false exactly when the call raises CircuitOpenError.
  datatype Reply = Reply(admitted: bool, event: Option<Event>)

  const PASS := Reply(true, None)
  const REFUSE := Reply(false, Some(Rejected))

  function Max(x: int, y: int): int { if x < y then y else x }

  // ---- the local breaker ----

  datatype Local = Local(state: State, failures: nat, openedAt: int, probe: bool)

  const FRESH := Local(Closed, 0, 0, false)

  function LocalStep(threshold: int, recovery: int, s: Local, op: Op, now: int): (Local, Reply) {
    match op
    case Before =>
      if s.state == Closed then (s, PASS)
      else if s.state == Open && now - s.openedAt >= recovery && !s.probe then
        (s.(state := HalfOpen, probe := true), PASS)
      else (s, REFUSE)
    case Success =>
      (s.(state := Closed, failures := 0, probe := false),
        Reply(true, if s.state != Closed then Some(Recovered) else None))
    case Failure =>
      if s.state == HalfOpen then (s.(state := Open, openedAt := now, probe := false), Reply(true, Some(Opened)))
      else if s.state == Closed then
        if s.failures + 1 >= threshold
        then (s.(state := Open, failures := s.failures + 1, openedAt := now), Reply(true, Some(Opened)))
        else (s.(failures := s.failures + 1), PASS)
      else (s, PASS)
  }

  class CircuitBreaker {
    const threshold: int
    const recovery: int
    var state: State
    var failures: nat
    var openedAt: int
    var probeInFlight: bool

    function View(): Local
      reads this
    {
      Local(state, failures, openedAt, probeInFlight)
    }

    constructor (failureThreshold: int, recoveryTime: int)
      ensures threshold == Max(1, failureThreshold) && recovery == Max(0, recoveryTime)
      ensures View() == FRESH
    {
      threshold, recovery := Max(1, failureThreshold), Max(0, recoveryTime);
      state, failures, openedAt, probeInFlight := Closed, 0, 0, false;
    }

    method BeforeCall(now: int) returns (reply: Reply)
      modifies this
      ensures (View(), reply) == LocalStep(threshold, recovery, old(View()), Before, now)
    {
      if state == Closed {
        return PASS;
      }
      if state == Open {
        var elapsed := now - openedAt;
        if elapsed >= recovery && !probeInFlight {
          state := HalfOpen;
          probeInFlight := true;
          return PASS;
        }
      }
      return REFUSE;
    }

    method RecordSuccess(now: int) returns (reply: Reply)
      modifies this
      ensures (View(), reply) == LocalStep(threshold, recovery, old(View()), Success, now)
    {
      var event := None;
      if state != Closed {
        event := Some(Recovered);
      }
      state := Closed;
      failures := 0;
      probeInFlight := false;
      return Reply(true, event);
    }

    method RecordFailure(now: int) returns (reply: Reply)
      modifies this
      ensures (View(), reply) == LocalStep(threshold, recovery, old(View()), Failure, now)
    {
      var event := None;
      if state == HalfOpen {
        state := Open;
        openedAt := now;
        probeInFlight := false;
        event := Some(Opened);
      } else if state == Closed {
        failures := failures + 1;
        if failures >= threshold {
          state := Open;
          openedAt := now;
          event := Some(Opened);
        }
      }
      return Reply(true, event);
    }
  }

  // ---- the shared hash ----

  // A hash with its optional fields and the moment its key expires.
  datatype Entry = Entry(state: Option<State>, failures: Option<int>, openedAt: Option<int>, expiresAt: Option<int>)

  type Key = Option<Entry>

  function Visible(key: Key, now: int): Key {
    if key.Some? && key.value.expiresAt.Some? && key.value.expiresAt.value <= now then None else key
  }

  function StateOf(key: Key): State {
    if key.Some? && key.value.state.Some? then key.value.state.value else Closed
  }

  function Hash(key: Key): Entry {
    if key.Some? then key.value else Entry(None, None, None, None)
  }

  function OrZero(v: Option<int>): int {
    if v.Some? then v.value else 0
  }

  // The three scripts, on a key that has not expired. They run atomically.
  function ScriptBefore(key: Key, recovery: int, ttl: int, now: int): (Key, int) {
    if StateOf(key) == Closed then (key, 1)
    else if StateOf(key) == HalfOpen then (key, 0)
    else if now - OrZero(key.value.openedAt) < recovery then (key, 0)
    else (Some(key.value.(state := Some(HalfOpen), expiresAt := Some(now + ttl))), 2)
  }

  function ScriptFailure(key: Key, threshold: int, ttl: int, now: int): (Key, int) {
    var h := Hash(key);
    if StateOf(key) == Open then (key, 0)
    else if StateOf(key) == HalfOpen then (Some(Entry(Some(Open), Some(threshold), Some(now), Some(now + ttl))), 1)
    else
      var n := OrZero(h.failures) + 1;
      if n >= threshold
      then (Some(Entry(Some(Open), Some(n), Some(now), Some(now + ttl))), 1)
      else (Some(h.(state := Some(Closed), failures := Some(n), expiresAt := Some(now + ttl))), 0)
  }

  function ScriptSuccess(key: Key): (Key, int) {
    (None, if StateOf(key) != Closed then 1 else 0)
  }

  function ScriptStep(threshold: int, recovery: int, ttl: int, key: Key, op: Op, now: int): (Key, Reply) {
    match op
    case Before =>
      var (key', result) := ScriptBefore(key, recovery, ttl, now);
      (key', if result == 0 then REFUSE else PASS)
    case Success =>
      var (key', recovered) := ScriptSuccess(key);
      (key', Reply(true, if recovered == 1 then Some(Recovered) else None))
    case Failure =>
      var (key', tripped) := ScriptFailure(key, threshold, ttl, now);
      (key', Reply(true, if tripped == 1 then Some(Opened) else None))
  }

  class RedisServer {
    var key: Key

    constructor ()
      ensures key == None
    {
      key := None;
    }
  }

  function RecoveryMs(recoveryTime: int): int { Max(1, recoveryTime) }
  function TtlMs(recoveryMs: int): int { Max(60000, recoveryMs * 4) }

  // One instance: it talks to the shared server, or to its own fallback breaker
  // when the server does not answer.
  class RedisCircuitBreaker {
    const server: RedisServer
    const fallback: CircuitBreaker
    const threshold: int
    const recovery: int
    const ttl: int

    constructor (shared: RedisServer, failureThreshold: int, recoveryTime: int)
      ensures server == shared && threshold == Max(1, failureThreshold)
      ensures recovery == RecoveryMs(recoveryTime) && ttl == TtlMs(recovery)
      ensures fresh(fallback) && fallback.View() == FRESH
      ensures fallback.threshold == threshold && fallback.recovery == Max(0, recoveryTime)
    {
      server, threshold := shared, Max(1, failureThreshold);
      recovery, ttl := RecoveryMs(recoveryTime), TtlMs(RecoveryMs(recoveryTime));
      fallback := new CircuitBreaker(failureThreshold, recoveryTime);
    }

    method BeforeCall(up: bool, now: int) returns (reply: Reply)
      modifies server, fallback
      ensures up ==> fallback.View() == old(fallback.View())
      ensures up ==>
                (server.key, reply) == ScriptStep(threshold, recovery, ttl, Visible(old(server.key), now), Before, now)
      ensures !up ==> server.key == old(server.key)
      ensures !up ==>
                (fallback.View(), reply) ==
                  LocalStep(fallback.threshold, fallback.recovery, old(fallback.View()), Before, now)
    {
      if !up {
        reply := fallback.BeforeCall(now);
        return;
      }
      var (key, result) := ScriptBefore(Visible(server.key, now), recovery, ttl, now);
      server.key := key;
      reply := if result == 0 then REFUSE else PASS;
    }

    method RecordFailure(up: bool, now: int) returns (reply: Reply)
      modifies server, fallback
      ensures up ==> fallback.View() == old(fallback.View())
      ensures up ==>
                (server.key, reply) == ScriptStep(threshold, recovery, ttl, Visible(old(server.key), now), Failure, now)
      ensures !up ==> server.key == old(server.key)
      ensures !up ==>
                (fallback.View(), reply) ==
                  LocalStep(fallback.threshold, fallback.recovery, old(fallback.View()), Failure, now)
    {
      if !up {
        reply := fallback.RecordFailure(now);
        return;
      }
      var (key, tripped) := ScriptFailure(Visible(server.key, now), threshold, ttl, now);
      server.key := key;
      reply := Reply(true, if tripped == 1 then Some(Opened) else None);
    }

    // A success also closes the fallback, whose own event comes first.
    method RecordSuccess(up: bool, now: int) returns (fallbackReply: Reply, reply: Reply)
      modifies server, fallback
      ensures (fallback.View(), fallbackReply) ==
                LocalStep(fallback.threshold, fallback.recovery, old(fallback.View()), Success, now)
      ensures up ==>
                (server.key, reply) == ScriptStep(threshold, recovery, ttl, Visible(old(server.key), now), Success, now)
      ensures !up ==> server.key == old(server.key) && reply == PASS
    {
      if !up {
        fallbackReply := fallback.RecordSuccess(now);
        reply := PASS;
        return;
      }
      var (key, recovered) := ScriptSuccess(Visible(server.key, now));
      server.key := key;
      fallbackReply := fallback.RecordSuccess(now);
      reply := Reply(true, if recovered == 1 then Some(Recovered) else None);
    }
  }

  // ---- runs ----

  // One call by one instance.
  datatype Call = Call(instance: nat, op: Op, now: int)

  datatype Config = Config(failureThreshold: int, recoveryTime: int)

  function LocalRun(cfg: Config, s: Local, calls: seq<Call>): (r: (Local, seq<Reply>))
    ensures |r.1| == |calls|
    decreases |calls|
  {
    if calls == [] then (s, [])
    else
      var (mid, replies) := LocalRun(cfg, s, calls[..|calls| - 1]);
      var last := calls[|calls| - 1];
      var (s', reply) := LocalStep(Max(1, cfg.failureThreshold), Max(0, cfg.recoveryTime), mid, last.op, last.now);
      (s', replies + [reply])
  }

  // The same calls through the shared hash; `expiring` says whether its key may expire.
  function SharedRun(cfg: Config, key: Key, calls: seq<Call>, expiring: bool): (r: (Key, seq<Reply>))
    ensures |r.1| == |calls|
    decreases |calls|
  {
    if calls == [] then (key, [])
    else
      var (mid, replies) := SharedRun(cfg, key, calls[..|calls| - 1], expiring);
      var last := calls[|calls| - 1];
      var recovery := RecoveryMs(cfg.recoveryTime);
      var (key', reply) := ScriptStep(Max(1, cfg.failureThreshold), recovery, TtlMs(recovery),
                                      if expiring then Visible(mid, last.now) else mid, last.op, last.now);
      (key', replies + [reply])
  }

  // The hash and the fields of a local breaker that saw the same calls.
  ghost predicate Matches(s: Local, key: Key) {
    && StateOf(key) == s.state
    && (s.state == Closed ==> OrZero(Hash(key).failures) == s.failures)
    && (s.state == Open ==> Hash(key).openedAt == Some(s.openedAt))
    && (s.probe <==> s.state == HalfOpen)
  }

  lemma MatchingStep(cfg: Config, s: Local, key: Key, op: Op, now: int)
    requires Matches(s, key) && cfg.recoveryTime >= 1
    ensures var recovery := RecoveryMs(cfg.recoveryTime);
            var (s', reply) := LocalStep(Max(1, cfg.failureThreshold), Max(0, cfg.recoveryTime), s, op, now);
            var (key', reply') := ScriptStep(Max(1, cfg.failureThreshold), recovery, TtlMs(recovery), key, op, now);
            Matches(s', key') && reply' == reply
  {}

  lemma {:induction false} SharedMatchesLocal(cfg: Config, calls: seq<Call>)
    requires cfg.recoveryTime >= 1
    ensures Matches(LocalRun(cfg, FRESH, calls).0, SharedRun(cfg, None, calls, false).0)
    ensures SharedRun(cfg, None, calls, false).1 == LocalRun(cfg, FRESH, calls).1
    decreases |calls|
  {
    if calls != [] {
      var n := |calls| - 1;
      SharedMatchesLocal(cfg, calls[..n]);
      MatchingStep(cfg, LocalRun(cfg, FRESH, calls[..n]).0, SharedRun(cfg, None, calls[..n], false).0, calls[n].op,
        calls[n].now);
    }
  }

  ghost predicate AlwaysAgree(cfg: Config) {
    forall calls: seq<Call> :: SharedRun(cfg, None, calls, false).1 == LocalRun(cfg, FRESH, calls).1
  }

  // Without expiry, and for whole milliseconds, any number of instances sharing
  // the hash answer every call sequence as one local breaker would, exactly when
  // the recovery time is not zero: the shared one rounds zero up to a millisecond.
  lemma SharedRefinesLocalIff(cfg: Config)
    ensures AlwaysAgree(cfg) <==> cfg.recoveryTime >= 1
  {
    if cfg.recoveryTime >= 1 {
      forall calls: seq<Call> ensures SharedRun(cfg, None, calls, false).1 == LocalRun(cfg, FRESH, calls).1 {
        SharedMatchesLocal(cfg, calls);
      }
    } else {
      var k := Max(1, cfg.failureThreshold);
      var fails := seq(k, i => Call(0, Failure, 0));
      FailuresOpen(cfg, k);
      var calls := fails + [Call(0, Before, 0)];
      assert calls[..k] == fails;
      assert LocalRun(cfg, FRESH, calls).1[k] == PASS;
      assert SharedRun(cfg, None, calls, false).1[k] == REFUSE;
    }
  }

  lemma {:induction false} FailuresOpen(cfg: Config, n: nat)
    requires n <= Max(1, cfg.failureThreshold)
    ensures var calls := seq(n, i => Call(0, Failure, 0));
            var s, key := LocalRun(cfg, FRESH, calls).0, SharedRun(cfg, None, calls, false).0;
            if n < Max(1, cfg.failureThreshold)
            then s == Local(Closed, n, 0, false) && StateOf(key) == Closed && OrZero(Hash(key).failures) == n
            else s.state == Open && s.openedAt == 0 && !s.probe && StateOf(key) == Open && Hash(key).openedAt == Some(0)
  {
    if n > 0 {
      FailuresOpen(cfg, n - 1);
      var calls := seq(n, i => Call(0, Failure, 0));
      assert calls[..n - 1] == seq(n - 1, i => Call(0, Failure, 0));
    }
  }

  // ---- one probe ----

  ghost predicate Rising(calls: seq<Call>) {
    forall i, j :: 0 <= i < j < |calls| ==> calls[i].now <= calls[j].now
  }

  ghost predicate NoRecord(calls: seq<Call>) {
    forall i :: 0 <= i < |calls| ==> calls[i].op == Before
  }

  // From a half-open breaker every call is refused until something is recorded;
  // a probe that never reports leaves it so for good.
  lemma {:induction false} HalfOpenRefuses(cfg: Config, s: Local, calls: seq<Call>)
    requires s.state == HalfOpen && NoRecord(calls)
    ensures LocalRun(cfg, s, calls).0 == s
    ensures forall i :: 0 <= i < |calls| ==> !LocalRun(cfg, s, calls).1[i].admitted
    decreases |calls|
  {
    if calls != [] {
      HalfOpenRefuses(cfg, s, calls[..|calls| - 1]);
    }
  }

  // The shared one forgets a silent probe: with the key's expiry at `e`, a call is admitted
  // exactly from then on.
  lemma {:induction false} SharedHalfOpenRefuses(cfg: Config, key: Key, e: int, calls: seq<Call>, i: nat)
    requires key.Some? && StateOf(key) == HalfOpen && key.value.expiresAt == Some(e)
    requires NoRecord(calls) && Rising(calls) && i < |calls|
    ensures SharedRun(cfg, key, calls, true).1[i].admitted <==> calls[i].now >= e
    decreases |calls|
  {
    var n := |calls| - 1;
    SharedHalfOpenLasts(cfg, key, e, calls[..n]);
    if i < n {
      SharedHalfOpenRefuses(cfg, key, e, calls[..n], i);
    }
  }

  // Until then the key stays as it is; a call after it finds no key and leaves none.
  lemma {:induction false} SharedHalfOpenLasts(cfg: Config, key: Key, e: int, calls: seq<Call>)
    requires key.Some? && StateOf(key) == HalfOpen && key.value.expiresAt == Some(e)
    requires NoRecord(calls) && Rising(calls)
    ensures SharedRun(cfg, key, calls, true).0 == if calls == [] || calls[|calls| - 1].now < e then key else None
    decreases |calls|
  {
    if calls != [] {
      SharedHalfOpenLasts(cfg, key, e, calls[..|calls| - 1]);
    }
  }

  // A probe's key expires one time-to-live after it was let through.
  lemma ProbeLeavesKey(cfg: Config, key: Key, now: int)
    ensures var recovery := RecoveryMs(cfg.recoveryTime);
            var (key', reply) := ScriptStep(Max(1, cfg.failureThreshold), recovery, TtlMs(recovery),
              Visible(key, now), Before, now);
            StateOf(Visible(key, now)) == Open && reply.admitted ==>
              && key'.Some? && StateOf(key') == HalfOpen
              && key'.value.expiresAt == Some(now + TtlMs(recovery)) && TtlMs(recovery) >= 4 * recovery
  {}

  // From an open breaker at most one call is admitted before the next record.
  lemma {:induction false} OneProbe(cfg: Config, s: Local, calls: seq<Call>, i: nat, j: nat)
    requires s.state == Open && !s.probe && NoRecord(calls) && i < j < |calls|
    requires LocalRun(cfg, s, calls).1[i].admitted
    ensures !LocalRun(cfg, s, calls).1[j].admitted
    decreases |calls|
  {
    var n := |calls| - 1;
    assert LocalRun(cfg, s, calls).1[..n] == LocalRun(cfg, s, calls[..n]).1;
    if j < n {
      assert LocalRun(cfg, s, calls).1[i] == LocalRun(cfg, s, calls[..n]).1[i];
      OneProbe(cfg, s, calls[..n], i, j);
    } else {
      assert LocalRun(cfg, s, calls).1[i] == LocalRun(cfg, s, calls[..n]).1[i];
      AdmittedMeansHalfOpen(cfg, s, calls[..n], i);
    }
  }

  lemma {:induction false} AdmittedMeansHalfOpen(cfg: Config, s: Local, calls: seq<Call>, i: nat)
    requires s.state == Open && !s.probe && NoRecord(calls) && i < |calls|
    requires LocalRun(cfg, s, calls).1[i].admitted
    ensures LocalRun(cfg, s, calls).0.state == HalfOpen
    decreases |calls|
  {
    var n := |calls| - 1;
    StaysShut(cfg, s, calls[..n]);
    if i < n {
      assert LocalRun(cfg, s, calls).1[i] == LocalRun(cfg, s, calls[..n]).1[i];
      AdmittedMeansHalfOpen(cfg, s, calls[..n], i);
    }
  }

  lemma {:induction false} StaysShut(cfg: Config, s: Local, calls: seq<Call>)
    requires s.state == Open && !s.probe && NoRecord(calls)
    ensures var s' := LocalRun(cfg, s, calls).0; s' == s || s' == s.(state := HalfOpen, probe := true)
    decreases |calls|
  {
    if calls != [] {
      StaysShut(cfg, s, calls[..|calls| - 1]);
    }
  }

  // ---- expiry ----

  ghost predicate Monotone(calls: seq<Call>, since: int) {
    Rising(calls) && forall i :: 0 <= i < |calls| ==> since <= calls[i].now
  }

  ghost predicate NoSuccess(calls: seq<Call>) {
    forall i :: 0 <= i < |calls| ==> calls[i].op != Success
  }

  function OpenedKey(cfg: Config, failures: int, at: int): Key {
    Some(Entry(Some(Open), Some(failures), Some(at), Some(at + TtlMs(RecoveryMs(cfg.recoveryTime)))))
  }

  // The key lives for at least four recovery times after the circuit tripped, so
  // until the recovery time is over it cannot expire, and nothing changes it.
  lemma {:induction false} OpenUntilRecovery(cfg: Config, failures: int, at: int, calls: seq<Call>)
    requires Monotone(calls, at) && NoSuccess(calls)
    requires forall i :: 0 <= i < |calls| ==> calls[i].now < at + RecoveryMs(cfg.recoveryTime)
    ensures SharedRun(cfg, OpenedKey(cfg, failures, at), calls, true).0 == OpenedKey(cfg, failures, at)
    ensures forall i :: 0 <= i < |calls| && calls[i].op == Before ==>
              !SharedRun(cfg, OpenedKey(cfg, failures, at), calls, true).1[i].admitted
    decreases |calls|
  {
    if calls != [] {
      OpenUntilRecovery(cfg, failures, at, calls[..|calls| - 1]);
    }
  }

  // With expiry: after the circuit opened at `at`, no call is admitted before
  // `at` plus the recovery time unless a success was recorded in between.
  lemma {:induction false} NoEarlyAdmission(cfg: Config, failures: int, at: int, calls: seq<Call>, i: nat)
    requires Monotone(calls, at) && i < |calls| && calls[i].op == Before && NoSuccess(calls[..i])
    requires SharedRun(cfg, OpenedKey(cfg, failures, at), calls, true).1[i].admitted
    ensures calls[i].now >= at + RecoveryMs(cfg.recoveryTime)
    decreases |calls|
  {
    var n := |calls| - 1;
    if i < n {
      assert calls[..n][..i] == calls[..i];
      NoEarlyAdmission(cfg, failures, at, calls[..n], i);
    } else if calls[i].now < at + RecoveryMs(cfg.recoveryTime) {
      assert calls[..n] == calls[..i];
      OpenUntilRecovery(cfg, failures, at, calls[..n]);
    }
  }

  // What opening the circuit leaves in the hash.
  lemma OpeningLeavesKey(cfg: Config, key: Key, now: int)
    ensures var recovery := RecoveryMs(cfg.recoveryTime);
            var (key', reply) := ScriptStep(Max(1, cfg.failureThreshold), recovery, TtlMs(recovery),
              Visible(key, now), Failure, now);
            reply.event == Some(Opened) ==> exists failures :: key' == OpenedKey(cfg, failures, now)
  {
    var recovery := RecoveryMs(cfg.recoveryTime);
    var (key', reply) := ScriptStep(Max(1, cfg.failureThreshold), recovery, TtlMs(recovery), Visible(key, now),
      Failure, now);
    if reply.event == Some(Opened) {
      assert key' == OpenedKey(cfg, key'.value.failures.value, now);
    }
  }

  // What the first m calls leave of the key.
  function KeyAfter(cfg: Config, calls: seq<Call>, m: nat): Key
    requires m <= |calls|
  {
    SharedRun(cfg, None, calls[..m], true).0
  }

  function Stepped(cfg: Config, key: Key, call: Call): (Key, Reply) {
    var recovery := RecoveryMs(cfg.recoveryTime);
    ScriptStep(Max(1, cfg.failureThreshold), recovery, TtlMs(recovery), Visible(key, call.now), call.op, call.now)
  }

  lemma {:induction false} ReplyAt(cfg: Config, calls: seq<Call>, i: nat)
    requires i < |calls|
    ensures (KeyAfter(cfg, calls, i + 1), SharedRun(cfg, None, calls, true).1[i]) ==
            Stepped(cfg, KeyAfter(cfg, calls, i), calls[i])
    decreases |calls|
  {
    var n := |calls| - 1;
    if i < n {
      assert calls[..n][..i] == calls[..i] && calls[..n][..i + 1] == calls[..i + 1];
      ReplyAt(cfg, calls[..n], i);
    } else {
      assert calls[..i + 1] == calls;
    }
  }

  // The calls after the i-th, up to the m-th, neither succeed nor wait out the recovery time.
  ghost predicate StillOpen(cfg: Config, calls: seq<Call>, i: nat, m: nat)
    requires i < m <= |calls|
  {
    forall k :: i < k < m ==> calls[k].op != Success && calls[k].now < calls[i].now + RecoveryMs(cfg.recoveryTime)
  }

  lemma {:induction false} OpenedKeyStays(cfg: Config, calls: seq<Call>, i: nat, m: nat) returns (failures: int)
    requires Rising(calls) && i < m <= |calls| && StillOpen(cfg, calls, i, m)
    requires SharedRun(cfg, None, calls, true).1[i].event == Some(Opened)
    ensures KeyAfter(cfg, calls, m) == OpenedKey(cfg, failures, calls[i].now)
    decreases m
  {
    ReplyAt(cfg, calls, m - 1);
    if m == i + 1 {
      assert calls[i].op == Failure;
      OpeningLeavesKey(cfg, KeyAfter(cfg, calls, i), calls[i].now);
      failures :| KeyAfter(cfg, calls, m) == OpenedKey(cfg, failures, calls[i].now);
    } else {
      failures := OpenedKeyStays(cfg, calls, i, m - 1);
    }
  }

  // Over a whole run of any number of instances, with expiry: after a reply that says the circuit
  // opened, and with no success in between, no call is admitted before the recovery time is over.
  lemma {:induction false} OpenKeepsOut(cfg: Config, calls: seq<Call>, i: nat, j: nat)
    requires Rising(calls) && i < j < |calls| && calls[j].op == Before
    requires SharedRun(cfg, None, calls, true).1[i].event == Some(Opened)
    requires SharedRun(cfg, None, calls, true).1[j].admitted
    requires forall k :: i < k < j ==> calls[k].op != Success
    ensures calls[j].now >= calls[i].now + RecoveryMs(cfg.recoveryTime)
  {
    if calls[j].now < calls[i].now + RecoveryMs(cfg.recoveryTime) {
      var failures := OpenedKeyStays(cfg, calls, i, j);
      ReplyAt(cfg, calls, j);
    }
  }
}
