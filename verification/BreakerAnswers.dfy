// What the breaker replies to every call of every run, told from the calls and the replies alone.
module BreakerAnswers {
  import opened Options
  import opened CircuitBreaker

  // ---- the history a breaker has to go by ----

  // Failures recorded since the last success, or since the start.
  function FailuresSince(calls: seq<Call>): nat {
    if calls == [] then 0 else
      var n := |calls| - 1;
      match calls[n].op
      case Before => FailuresSince(calls[..n])
      case Success => 0
      case Failure => FailuresSince(calls[..n]) + 1
  }

  // Call o opened the circuit, and until call i nothing opened it again or closed it.
  ghost predicate OpenSince(calls: seq<Call>, replies: seq<Reply>, i: nat, o: nat) {
    && o < i <= |calls| && |replies| == |calls| && replies[o].event == Some(Opened)
    && forall j :: o < j < i ==> replies[j].event != Some(Opened) && calls[j].op != Success
  }

  // A call was let through since then.
  ghost predicate Probed(calls: seq<Call>, replies: seq<Reply>, i: nat, o: nat)
    requires o < i <= |calls| && |replies| == |calls|
  {
    exists p :: o < p < i && calls[p].op == Before && replies[p].admitted
  }

  ghost predicate WhileClosed(call: Call, reply: Reply, failures: nat, threshold: int) {
    match call.op
    case Before => reply == PASS
    case Success => reply == PASS
    case Failure => reply == Reply(true, if failures + 1 == threshold then Some(Opened) else None)
  }

  ghost predicate WhileOpen(call: Call, reply: Reply, openedAt: int, recovery: int, probed: bool) {
    match call.op
    case Before => reply == if !probed && call.now - openedAt >= recovery then PASS else REFUSE
    case Success => reply == Reply(true, Some(Recovered))
    case Failure => reply == Reply(true, if probed then Some(Opened) else None)
  }

  // Reply i, given the calls and the replies before it.
  ghost predicate Answers(calls: seq<Call>, replies: seq<Reply>, i: nat, threshold: int, recovery: int)
    requires i < |calls| == |replies|
  {
    var failures := FailuresSince(calls[..i]);
    if failures < threshold then WhileClosed(calls[i], replies[i], failures, threshold)
    else exists o: nat ::
      && OpenSince(calls, replies, i, o)
      && WhileOpen(calls[i], replies[i], calls[o].now, recovery, Probed(calls, replies, i, o))
  }

  // ---- the local breaker ----

  ghost function LocalAfter(cfg: Config, calls: seq<Call>, i: nat): Local
    requires i <= |calls|
  {
    LocalRun(cfg, FRESH, calls[..i]).0
  }

  ghost function LocalReplies(cfg: Config, calls: seq<Call>): seq<Reply> {
    LocalRun(cfg, FRESH, calls).1
  }

  lemma {:induction false} LocalReplyAt(cfg: Config, calls: seq<Call>, i: nat)
    requires i < |calls|
    ensures (LocalAfter(cfg, calls, i + 1), LocalReplies(cfg, calls)[i]) ==
            LocalStep(Max(1, cfg.failureThreshold), Max(0, cfg.recoveryTime), LocalAfter(cfg, calls, i),
                      calls[i].op, calls[i].now)
    decreases |calls|
  {
    var n := |calls| - 1;
    if i < n {
      assert calls[..n][..i] == calls[..i] && calls[..n][..i + 1] == calls[..i + 1];
      LocalReplyAt(cfg, calls[..n], i);
    } else {
      assert calls[..i + 1] == calls;
    }
  }

  // The state before call i, told the same way.
  ghost predicate Remembers(s: Local, calls: seq<Call>, replies: seq<Reply>, i: nat, threshold: int)
    requires i <= |calls| == |replies|
  {
    && (s.state == Closed <==> FailuresSince(calls[..i]) < threshold)
    && (s.state == Closed ==> s.failures == FailuresSince(calls[..i]))
    && (s.probe <==> s.state == HalfOpen)
    && (s.state != Closed ==> exists o: nat :: OpenAs(s, calls, replies, i, o))
  }

  ghost predicate OpenAs(s: Local, calls: seq<Call>, replies: seq<Reply>, i: nat, o: nat) {
    && OpenSince(calls, replies, i, o)
    && (s.state == HalfOpen <==> Probed(calls, replies, i, o))
    && (s.state == Open ==> s.openedAt == calls[o].now)
  }

  lemma OneFailureMore(calls: seq<Call>, i: nat)
    requires i < |calls|
    ensures FailuresSince(calls[..i + 1]) ==
            match calls[i].op
            case Before => FailuresSince(calls[..i])
            case Success => 0
            case Failure => FailuresSince(calls[..i]) + 1
  {
    assert calls[..i + 1][..i] == calls[..i];
  }

  lemma {:induction false} LocalRemembers(cfg: Config, calls: seq<Call>, i: nat)
    requires i <= |calls|
    ensures Remembers(LocalAfter(cfg, calls, i), calls, LocalReplies(cfg, calls), i, Max(1, cfg.failureThreshold))
    decreases i
  {
    if i > 0 {
      LocalRemembers(cfg, calls, i - 1);
      LocalReplyAt(cfg, calls, i - 1);
      OneFailureMore(calls, i - 1);
      StepRemembers(cfg, LocalAfter(cfg, calls, i - 1), calls, LocalReplies(cfg, calls), i - 1,
                    LocalAfter(cfg, calls, i));
    }
  }

  lemma StepRemembers(cfg: Config, s: Local, calls: seq<Call>, replies: seq<Reply>, i: nat, s': Local)
    requires i < |calls| == |replies| && Remembers(s, calls, replies, i, Max(1, cfg.failureThreshold))
    requires (s', replies[i]) == LocalStep(Max(1, cfg.failureThreshold), Max(0, cfg.recoveryTime), s,
                                           calls[i].op, calls[i].now)
    requires FailuresSince(calls[..i + 1]) ==
             match calls[i].op
             case Before => FailuresSince(calls[..i])
             case Success => 0
             case Failure => FailuresSince(calls[..i]) + 1
    ensures Remembers(s', calls, replies, i + 1, Max(1, cfg.failureThreshold))
  {
    if s'.state != Closed {
      if replies[i].event == Some(Opened) {
        assert OpenAs(s', calls, replies, i + 1, i);
      } else {
        var o: nat :| OpenAs(s, calls, replies, i, o);
        assert OpenAs(s', calls, replies, i + 1, o);
      }
    }
  }

  // Over every run from a fresh breaker: it opens exactly at the failure that is the threshold's
  // since the last success, or at one that follows a probe; while it is open it lets a call
  // through exactly if the recovery time is over and none was let through since.
  lemma LocalAnswers(cfg: Config, calls: seq<Call>, i: nat)
    requires i < |calls|
    ensures Answers(calls, LocalReplies(cfg, calls), i, Max(1, cfg.failureThreshold), Max(0, cfg.recoveryTime))
  {
    LocalRemembers(cfg, calls, i);
    LocalReplyAt(cfg, calls, i);
    var s, replies := LocalAfter(cfg, calls, i), LocalReplies(cfg, calls);
    if s.state != Closed {
      var o: nat :| OpenAs(s, calls, replies, i, o);
      assert WhileOpen(calls[i], replies[i], calls[o].now, Max(0, cfg.recoveryTime), Probed(calls, replies, i, o));
    }
  }

  // ---- the shared breaker ----

  ghost function SharedReplies(cfg: Config, calls: seq<Call>): seq<Reply> {
    SharedRun(cfg, None, calls, true).1
  }

  // Call i found a key whose time was over.
  ghost predicate FoundExpired(cfg: Config, calls: seq<Call>, i: nat) {
    i < |calls| && Visible(KeyAfter(cfg, calls, i), calls[i].now) != KeyAfter(cfg, calls, i)
  }

  // Without expiry, from call k on.
  ghost function RunSince(cfg: Config, calls: seq<Call>, k: nat, i: nat): (Key, seq<Reply>)
    requires k <= i <= |calls|
  {
    SharedRun(cfg, None, calls[k..i], false)
  }

  lemma RunSinceStep(cfg: Config, calls: seq<Call>, k: nat, i: nat)
    requires k <= i < |calls|
    ensures var recovery := RecoveryMs(cfg.recoveryTime);
            var (key, reply) := ScriptStep(Max(1, cfg.failureThreshold), recovery, TtlMs(recovery),
                                           RunSince(cfg, calls, k, i).0, calls[i].op, calls[i].now);
            RunSince(cfg, calls, k, i + 1) == (key, RunSince(cfg, calls, k, i).1 + [reply])
  {
    assert calls[k..i + 1][..i - k] == calls[k..i];
  }

  // From a call that finds no key, until the next one that finds it expired, the hash is what
  // it would be if the run began there and nothing expired.
  lemma {:induction false} SameSince(cfg: Config, calls: seq<Call>, k: nat, i: nat)
    requires k < i <= |calls| && Visible(KeyAfter(cfg, calls, k), calls[k].now) == None
    requires forall j :: k < j < i ==> !FoundExpired(cfg, calls, j)
    ensures KeyAfter(cfg, calls, i) == RunSince(cfg, calls, k, i).0
    ensures SharedReplies(cfg, calls)[k..i] == RunSince(cfg, calls, k, i).1
    decreases i
  {
    var n := i - 1;
    ReplyAt(cfg, calls, n);
    RunSinceStep(cfg, calls, k, n);
    if k < n {
      SameSince(cfg, calls, k, n);
      assert !FoundExpired(cfg, calls, n);
    } else {
      assert calls[k..k] == [];
    }
    assert SharedReplies(cfg, calls)[k..i] == SharedReplies(cfg, calls)[k..n] + [SharedReplies(cfg, calls)[n]];
  }

  // The last call up to i that found the key expired, or else the first of all.
  lemma {:induction false} LastStart(cfg: Config, calls: seq<Call>, i: nat) returns (k: nat)
    requires i < |calls|
    ensures k <= i && (k == 0 || FoundExpired(cfg, calls, k))
    ensures forall j :: k < j <= i ==> !FoundExpired(cfg, calls, j)
  {
    if i == 0 || FoundExpired(cfg, calls, i) {
      k := i;
    } else {
      k := LastStart(cfg, calls, i - 1);
    }
  }

  ghost predicate AnswersSince(cfg: Config, calls: seq<Call>, k: nat, i: nat) {
    && k <= i < |calls| && (k == 0 || FoundExpired(cfg, calls, k))
    && (forall j :: k < j <= i ==> !FoundExpired(cfg, calls, j))
    && Answers(calls[k..i + 1], SharedReplies(cfg, calls)[k..i + 1], i - k, Max(1, cfg.failureThreshold),
               cfg.recoveryTime)
  }

  // Any number of instances on one hash whose key expires: the same, with the calls counted from
  // the last one that found the key expired.
  lemma SharedAnswers(cfg: Config, calls: seq<Call>, i: nat)
    requires cfg.recoveryTime >= 1 && i < |calls|
    ensures exists k: nat :: AnswersSince(cfg, calls, k, i)
  {
    var k := LastStart(cfg, calls, i);
    StartsFresh(cfg, calls, k);
    SameSince(cfg, calls, k, i + 1);
    FreshAnswers(cfg, calls[k..i + 1], i - k);
    assert AnswersSince(cfg, calls, k, i);
  }

  lemma StartsFresh(cfg: Config, calls: seq<Call>, k: nat)
    requires k < |calls| && (k == 0 || FoundExpired(cfg, calls, k))
    ensures Visible(KeyAfter(cfg, calls, k), calls[k].now) == None
  {
    assert k == 0 ==> calls[..k] == [];
  }

  lemma FreshAnswers(cfg: Config, calls: seq<Call>, i: nat)
    requires cfg.recoveryTime >= 1 && i < |calls|
    ensures Answers(calls, SharedRun(cfg, None, calls, false).1, i, Max(1, cfg.failureThreshold), cfg.recoveryTime)
  {
    SharedMatchesLocal(cfg, calls);
    LocalAnswers(cfg, calls, i);
  }

  // Whatever a call writes lives on for one time-to-live from that call.
  lemma WritesExpire(cfg: Config, key: Key, call: Call)
    ensures var key' := Stepped(cfg, key, call).0;
            || key' == Visible(key, call.now)
            || (key' == None && call.op == Success)
            || (key'.Some? && key'.value.expiresAt == Some(call.now + TtlMs(RecoveryMs(cfg.recoveryTime))))
  {}

  // Every failure that counts and every probe writes; only a success removes the key.
  lemma WhatIsWritten(cfg: Config, key: Key, call: Call)
    ensures var seen := Visible(key, call.now);
            Stepped(cfg, key, call).0 == seen <==>
              match call.op
              case Before => !(StateOf(seen) == Open && Stepped(cfg, key, call).1.admitted)
              case Success => seen == None
              case Failure => StateOf(seen) == Open
  {}

  ghost predicate WrittenBy(cfg: Config, key: Key, calls: seq<Call>) {
    key.Some? ==>
      exists i :: 0 <= i < |calls| && key.value.expiresAt == Some(calls[i].now + TtlMs(RecoveryMs(cfg.recoveryTime)))
  }

  lemma {:induction false} KeyIsWritten(cfg: Config, calls: seq<Call>, i: nat)
    requires i <= |calls|
    ensures WrittenBy(cfg, KeyAfter(cfg, calls, i), calls[..i])
  {
    if i > 0 {
      KeyIsWritten(cfg, calls, i - 1);
      ReplyAt(cfg, calls, i - 1);
      var key, key' := KeyAfter(cfg, calls, i - 1), KeyAfter(cfg, calls, i);
      WritesExpire(cfg, key, calls[i - 1]);
      if key'.Some? {
        if key' == Visible(key, calls[i - 1].now) {
          var j :| 0 <= j < i - 1 &&
                   key.value.expiresAt == Some(calls[..i - 1][j].now + TtlMs(RecoveryMs(cfg.recoveryTime)));
          assert calls[..i][j] == calls[..i - 1][j];
        } else {
          assert calls[..i][i - 1] == calls[i - 1];
        }
      }
    }
  }

  // So a key is found expired only a time-to-live after some earlier call.
  lemma ExpiryNeedsSilence(cfg: Config, calls: seq<Call>, i: nat)
    requires FoundExpired(cfg, calls, i)
    ensures exists j :: 0 <= j < i && calls[i].now >= calls[j].now + TtlMs(RecoveryMs(cfg.recoveryTime))
  {
    KeyIsWritten(cfg, calls, i);
    var key := KeyAfter(cfg, calls, i);
    var j :| 0 <= j < i && key.value.expiresAt == Some(calls[..i][j].now + TtlMs(RecoveryMs(cfg.recoveryTime)));
    assert calls[..i][j] == calls[j];
  }
}
