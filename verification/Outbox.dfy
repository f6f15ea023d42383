// The notification workers: any number of them claim, mark and requeue outbox
// events while booking transactions run. One step is one transaction.
module Outbox {
  import opened Options
  import opened BookingTables
  import opened BookingStatements
  import opened BookingTransactions
  import opened BookingInvariants
  import opened BookingProofs
  import opened BookingTheorems
  import opened BookingService

  const CLAIM_LIMIT := 20
  const RETRY_WINDOW := 600

  type WorkerId = nat

  // A claimed event first owes a mark. A completion event that was marked
  // processed may still be marked failed after its candidate delivery.
  datatype Stage = Unmarked | MayFail
  datatype Job = Job(key: EventKey, stage: Stage)
  datatype System = System(t: Tables, jobs: map<WorkerId, seq<Job>>)

  function Jobs(s: System, w: WorkerId): seq<Job> {
    if w in s.jobs then s.jobs[w] else []
  }

  predicate Due(r: EventRow, now: int) {
    r.status == Pending && (r.scheduled.None? || r.scheduled.value <= now)
  }

  // ORDER BY created_at LIMIT 20 FOR UPDATE SKIP LOCKED: rows that another
  // transaction has locked are passed over.
  ghost predicate IsBatch(events: Events, now: int, locked: set<EventKey>, batch: seq<EventKey>) {
    && |batch| <= CLAIM_LIMIT
    && (forall i :: 0 <= i < |batch| ==> batch[i] in events && Due(events[batch[i]], now) && batch[i] !in locked)
    && (forall i, j :: 0 <= i < j < |batch| ==> batch[i] != batch[j])
    && (forall k, i :: k in events && Due(events[k], now) && k !in locked && k !in batch && 0 <= i < |batch| ==>
          events[batch[i]].createdAt <= events[k].createdAt)
    && (|batch| < CLAIM_LIMIT ==> forall k :: k in events && Due(events[k], now) && k !in locked ==> k in batch)
  }

  function WithStatus(events: Events, keys: seq<EventKey>, status: EventStatus): Events {
    map k | k in events :: if k in keys then events[k].(status := status) else events[k]
  }

  function Requeued(events: Events, now: int): Events {
    map k | k in events ::
      if events[k].status == Failed && events[k].createdAt > now - RETRY_WINDOW
      then events[k].(status := Pending) else events[k]
  }

  datatype Step =
    | Book(op: Op)
    | Claim(w: WorkerId, now: int, locked: set<EventKey>, batch: seq<EventKey>)
    | FirstMark(w: WorkerId, sent: bool)
    | LastMark(w: WorkerId, failed: bool)
    | Requeue(now: int)
    | Crash(w: WorkerId)

  ghost predicate Enabled(s: System, step: Step) {
    match step
    case Book(op) => WellFormed(op)
    case Claim(w, now, locked, batch) => Jobs(s, w) == [] && IsBatch(s.t.events, now, locked, batch)
    case FirstMark(w, sent) =>
      && Jobs(s, w) != [] && Jobs(s, w)[0].stage == Unmarked
      && (Jobs(s, w)[0].key.kind == AppointmentCompleted ==> sent)
    case LastMark(w, _) => Jobs(s, w) != [] && Jobs(s, w)[0].stage == MayFail
    case Requeue(_) => true
    case Crash(_) => true
  }

  function Claimed(batch: seq<EventKey>): seq<Job> {
    seq(|batch|, i requires 0 <= i < |batch| => Job(batch[i], Unmarked))
  }

  function Marked(s: System, key: EventKey, status: EventStatus, w: WorkerId, left: seq<Job>): System {
    System(s.t.(events := WithStatus(s.t.events, [key], status)), s.jobs[w := left])
  }

  ghost function After(s: System, step: Step): System
    requires Enabled(s, step)
  {
    match step
    case Book(op) => s.(t := Next(s.t, op))
    case Claim(w, _, _, batch) =>
      System(s.t.(events := WithStatus(s.t.events, batch, Processing)), s.jobs[w := Claimed(batch)])
    case FirstMark(w, sent) =>
      var job, rest := Jobs(s, w)[0], Jobs(s, w)[1..];
      Marked(s, job.key, if sent then Processed else Failed, w,
             if job.key.kind == AppointmentCompleted then [Job(job.key, MayFail)] + rest else rest)
    case LastMark(w, failed) =>
      var job, rest := Jobs(s, w)[0], Jobs(s, w)[1..];
      if failed then Marked(s, job.key, Failed, w, rest) else s.(jobs := s.jobs[w := rest])
    case Requeue(now) => s.(t := s.t.(events := Requeued(s.t.events, now)))
    case Crash(w) => s.(jobs := s.jobs[w := []])
  }

  // ---- what every interleaving keeps ----

  ghost predicate Owes(s: System, w: WorkerId, i: int) {
    w in s.jobs && 0 <= i < |s.jobs[w]|
  }

  ghost predicate JobOk(events: Events, job: Job) {
    && job.key in events
    && (job.stage == Unmarked ==> events[job.key].status == Processing)
    && (job.stage == MayFail ==> events[job.key].status == Processed && job.key.kind == AppointmentCompleted)
  }

  ghost predicate JobsOk(s: System) {
    forall w, i :: Owes(s, w, i) ==> JobOk(s.t.events, s.jobs[w][i])
  }

  // No event is owed by two workers, or twice by one.
  ghost predicate OneOwner(s: System) {
    forall w, i, v, j :: Owes(s, w, i) && Owes(s, v, j) && s.jobs[w][i].key == s.jobs[v][j].key ==> w == v && i == j
  }

  ghost predicate SystemInv(s: System) {
    Inv(s.t) && JobsOk(s) && OneOwner(s)
  }

  // Withdrawn events stay withdrawn; processed ones stay processed unless they
  // announce a completion.
  ghost predicate Absorbs(events: Events, events': Events) {
    forall k :: k in events ==>
      && k in events'
      && (events[k].status == Withdrawn ==> events'[k].status == Withdrawn)
      && (events[k].status == Processed && k.kind != AppointmentCompleted ==> events'[k].status == Processed)
  }

  lemma StatusKeepsInv(t: Tables, events: Events)
    requires Inv(t) && events.Keys == t.events.Keys
    ensures Inv(t.(events := events))
  {
    forall k | k in events ensures KeyOk(t.appts, k) {
      assert k in t.events.Keys;
    }
  }

  lemma BookKeeps(s: System, op: Op)
    requires SystemInv(s) && WellFormed(op)
    ensures SystemInv(After(s, Book(op))) && Absorbs(s.t.events, After(s, Book(op)).t.events)
  {
    NextSound(s.t, op);
    BookKeepsJobs(s, Next(s.t, op));
  }

  lemma BookKeepsJobs(s: System, t': Tables)
    requires JobsOk(s) && OneOwner(s) && EventsAdvance(s.t.events, t'.events)
    ensures JobsOk(s.(t := t')) && OneOwner(s.(t := t'))
    ensures Absorbs(s.t.events, t'.events)
  {
    var s' := s.(t := t');
    forall w, i | Owes(s', w, i) ensures JobOk(s'.t.events, s'.jobs[w][i]) {
      assert Owes(s, w, i);
    }
    forall w, i, v, j | Owes(s', w, i) && Owes(s', v, j) && s'.jobs[w][i].key == s'.jobs[v][j].key
      ensures w == v && i == j
    {
      assert Owes(s, w, i) && Owes(s, v, j);
    }
  }

  lemma ClaimKeeps(s: System, step: Step)
    requires SystemInv(s) && step.Claim? && Enabled(s, step)
    ensures SystemInv(After(s, step)) && Absorbs(s.t.events, After(s, step).t.events)
  {
    StatusKeepsInv(s.t, After(s, step).t.events);
    ClaimKeepsJobs(s, step);
  }

  lemma ClaimKeepsJobs(s: System, step: Step)
    requires JobsOk(s) && OneOwner(s) && step.Claim? && Enabled(s, step)
    ensures JobsOk(After(s, step)) && OneOwner(After(s, step)) && Absorbs(s.t.events, After(s, step).t.events)
  {
    var s' := After(s, step);
    forall w, i | Owes(s', w, i) ensures JobOk(s'.t.events, s'.jobs[w][i]) {
      assert w != step.w ==> Owes(s, w, i);
    }
    forall w, i, v, j | Owes(s', w, i) && Owes(s', v, j) && s'.jobs[w][i].key == s'.jobs[v][j].key
      ensures w == v && i == j
    {
      assert w != step.w ==> Owes(s, w, i) && JobOk(s.t.events, s.jobs[w][i]);
      assert v != step.w ==> Owes(s, v, j) && JobOk(s.t.events, s.jobs[v][j]);
    }
  }

  lemma MarkKeeps(s: System, w0: WorkerId, key: EventKey, status: EventStatus, left: seq<Job>)
    requires SystemInv(s) && Jobs(s, w0) != [] && Jobs(s, w0)[0].key == key
    requires left == Jobs(s, w0)[1..]
          || (left == [Job(key, MayFail)] + Jobs(s, w0)[1..] && status == Processed && key.kind == AppointmentCompleted)
    ensures SystemInv(Marked(s, key, status, w0, left))
    ensures Absorbs(s.t.events, Marked(s, key, status, w0, left).t.events)
  {
    StatusKeepsInv(s.t, Marked(s, key, status, w0, left).t.events);
    MarkKeepsJobs(s, w0, key, status, left);
  }

  lemma MarkKeepsJobs(s: System, w0: WorkerId, key: EventKey, status: EventStatus, left: seq<Job>)
    requires JobsOk(s) && OneOwner(s) && Jobs(s, w0) != [] && Jobs(s, w0)[0].key == key
    requires left == Jobs(s, w0)[1..]
          || (left == [Job(key, MayFail)] + Jobs(s, w0)[1..] && status == Processed && key.kind == AppointmentCompleted)
    ensures JobsOk(Marked(s, key, status, w0, left)) && OneOwner(Marked(s, key, status, w0, left))
    ensures Absorbs(s.t.events, Marked(s, key, status, w0, left).t.events)
  {
    var s' := Marked(s, key, status, w0, left);
    var shift := |Jobs(s, w0)| - |left|;
    assert Owes(s, w0, 0) && JobOk(s.t.events, s.jobs[w0][0]);
    forall w, i | Owes(s', w, i) ensures JobOk(s'.t.events, s'.jobs[w][i]) {
      var i' := if w == w0 then i + shift else i;
      assert Owes(s, w, i') && JobOk(s.t.events, s.jobs[w][i']);
    }
    forall w, i, v, j | Owes(s', w, i) && Owes(s', v, j) && s'.jobs[w][i].key == s'.jobs[v][j].key
      ensures w == v && i == j
    {
      var i', j' := if w == w0 then i + shift else i, if v == w0 then j + shift else j;
      assert Owes(s, w, i') && Owes(s, v, j') && s.jobs[w][i'].key == s.jobs[v][j'].key;
    }
  }

  lemma DropKeeps(s: System, w0: WorkerId, left: seq<Job>)
    requires SystemInv(s) && (left == [] || (Jobs(s, w0) != [] && left == Jobs(s, w0)[1..]))
    ensures SystemInv(s.(jobs := s.jobs[w0 := left]))
  {
    var s' := s.(jobs := s.jobs[w0 := left]);
    forall w, i | Owes(s', w, i) ensures JobOk(s'.t.events, s'.jobs[w][i]) {
      var i' := if w == w0 then i + 1 else i;
      assert Owes(s, w, i') && JobOk(s.t.events, s.jobs[w][i']);
    }
    forall w, i, v, j | Owes(s', w, i) && Owes(s', v, j) && s'.jobs[w][i].key == s'.jobs[v][j].key
      ensures w == v && i == j
    {
      var i', j' := if w == w0 then i + 1 else i, if v == w0 then j + 1 else j;
      assert Owes(s, w, i') && Owes(s, v, j') && s.jobs[w][i'].key == s.jobs[v][j'].key;
    }
  }

  lemma RequeueKeeps(s: System, now: int)
    requires SystemInv(s)
    ensures SystemInv(After(s, Requeue(now))) && Absorbs(s.t.events, After(s, Requeue(now)).t.events)
  {
    var s' := After(s, Requeue(now));
    StatusKeepsInv(s.t, s'.t.events);
    forall w, i | Owes(s', w, i) ensures JobOk(s'.t.events, s'.jobs[w][i]) {
      assert Owes(s, w, i) && JobOk(s.t.events, s.jobs[w][i]);
    }
    forall w, i, v, j | Owes(s', w, i) && Owes(s', v, j) && s'.jobs[w][i].key == s'.jobs[v][j].key
      ensures w == v && i == j
    {
      assert Owes(s, w, i) && Owes(s, v, j);
    }
  }

  lemma FirstMarkKeeps(s: System, w: WorkerId, sent: bool)
    requires SystemInv(s) && Enabled(s, FirstMark(w, sent))
    ensures SystemInv(After(s, FirstMark(w, sent))) && Absorbs(s.t.events, After(s, FirstMark(w, sent)).t.events)
  {
    var job, rest := Jobs(s, w)[0], Jobs(s, w)[1..];
    MarkKeeps(s, w, job.key, if sent then Processed else Failed,
              if job.key.kind == AppointmentCompleted then [Job(job.key, MayFail)] + rest else rest);
  }

  lemma LastMarkKeeps(s: System, w: WorkerId, failed: bool)
    requires SystemInv(s) && Enabled(s, LastMark(w, failed))
    ensures SystemInv(After(s, LastMark(w, failed))) && Absorbs(s.t.events, After(s, LastMark(w, failed)).t.events)
  {
    var job, rest := Jobs(s, w)[0], Jobs(s, w)[1..];
    if failed {
      MarkKeeps(s, w, job.key, Failed, rest);
    } else {
      DropKeeps(s, w, rest);
    }
  }

  lemma StepKeeps(s: System, step: Step)
    requires SystemInv(s) && Enabled(s, step)
    ensures SystemInv(After(s, step)) && Absorbs(s.t.events, After(s, step).t.events)
  {
    match step
    case Book(op) => BookKeeps(s, op);
    case Claim(_, _, _, _) => ClaimKeeps(s, step);
    case FirstMark(w, sent) => FirstMarkKeeps(s, w, sent);
    case LastMark(w, failed) => LastMarkKeeps(s, w, failed);
    case Requeue(now) => RequeueKeeps(s, now);
    case Crash(w) => DropKeeps(s, w, []);
  }

  // ---- runs of the whole system ----

  const START := System(EMPTY, map[])

  ghost predicate SystemRun(history: seq<System>, steps: seq<Step>) {
    && |history| == |steps| + 1
    && history[0] == START
    && (forall i :: 0 <= i < |steps| ==> Enabled(history[i], steps[i]) && history[i + 1] == After(history[i], steps[i]))
  }

  lemma {:induction false} SystemRunKeeps(history: seq<System>, steps: seq<Step>, i: nat)
    requires SystemRun(history, steps) && i <= |steps|
    ensures SystemInv(history[i])
  {
    if i > 0 {
      SystemRunKeeps(history, steps, i - 1);
      StepKeeps(history[i - 1], steps[i - 1]);
    }
  }

  function Last(history: seq<System>): System
    requires history != []
  {
    history[|history| - 1]
  }

  lemma StepOn(history: seq<System>, steps: seq<Step>, step: Step, s: System)
    requires SystemRun(history, steps) && Enabled(Last(history), step)
             && s == After(Last(history), step)
    ensures SystemRun(history + [s], steps + [step])
  {
    var history', steps' := history + [s], steps + [step];
    forall i | 0 <= i < |steps'|
      ensures Enabled(history'[i], steps'[i]) && history'[i + 1] == After(history'[i], steps'[i])
    {
      if i < |steps| {
        assert history'[i + 1] == history[i + 1] && history'[i] == history[i] && steps'[i] == steps[i];
      }
    }
  }

  // At every moment an event has at most one worker that still owes it a mark.
  lemma AtMostOneOwner(history: seq<System>, steps: seq<Step>, i: nat, w: WorkerId, x: nat, v: WorkerId, y: nat)
    requires SystemRun(history, steps) && i <= |steps|
    requires Owes(history[i], w, x) && Owes(history[i], v, y)
    requires history[i].jobs[w][x].key == history[i].jobs[v][y].key
    ensures w == v && x == y
  {
    SystemRunKeeps(history, steps, i);
  }

  // Bookings stay sound whatever the workers do in between.
  lemma BookingSoundUnderWorkers(history: seq<System>, steps: seq<Step>, i: nat)
    requires SystemRun(history, steps) && i <= |steps|
    ensures Inv(history[i].t)
  {
    SystemRunKeeps(history, steps, i);
  }

  ghost predicate Absorbing(history: seq<System>) {
    forall i :: 0 <= i < |history| - 1 ==> Absorbs(history[i].t.events, history[i + 1].t.events)
  }

  lemma AbsorbsTrans(a: Events, b: Events, c: Events)
    requires Absorbs(a, b) && Absorbs(b, c)
    ensures Absorbs(a, c)
  {}

  lemma {:induction false} AbsorbingChain(history: seq<System>, i: nat, j: nat)
    requires Absorbing(history) && i <= j < |history|
    ensures Absorbs(history[i].t.events, history[j].t.events)
    decreases j
  {
    if i < j {
      AbsorbingChain(history, i, j - 1);
      assert Absorbs(history[j - 1].t.events, history[j - 1 + 1].t.events);
      AbsorbsTrans(history[i].t.events, history[j - 1].t.events, history[j].t.events);
    }
  }

  // Withdrawn is final, and processed is final for every kind but the completion event.
  lemma StatusAbsorbs(history: seq<System>, steps: seq<Step>, i: nat, j: nat)
    requires SystemRun(history, steps) && i <= j <= |steps|
    ensures Absorbs(history[i].t.events, history[j].t.events)
  {
    forall k | 0 <= k < |history| - 1 ensures Absorbs(history[k].t.events, history[k + 1].t.events) {
      SystemRunKeeps(history, steps, k);
      StepKeeps(history[k], steps[k]);
    }
    AbsorbingChain(history, i, j);
  }

  // ---- who finishes what was claimed ----

  ghost predicate OwedBy(s: System, k: EventKey, w: WorkerId, i: int) {
    Owes(s, w, i) && s.jobs[w][i] == Job(k, Unmarked)
  }

  ghost predicate Attended(s: System, k: EventKey) {
    exists w, i :: OwedBy(s, k, w, i)
  }

  // Every event in processing is owed its mark by some worker.
  ghost predicate NoOrphans(s: System) {
    forall k :: k in s.t.events && s.t.events[k].status == Processing ==> Attended(s, k)
  }

  // The worker owes nothing but last marks of completion events.
  ghost predicate OwesNoMark(s: System, w: WorkerId) {
    forall i :: Owes(s, w, i) ==> s.jobs[w][i].stage == MayFail
  }

  // A step that is not a crash leaves no event behind.
  lemma StepAttends(s: System, step: Step)
    requires SystemInv(s) && Enabled(s, step) && NoOrphans(s) && !step.Crash?
    ensures NoOrphans(After(s, step))
  {
    match step
    case Book(op) =>
      NextSound(s.t, op);
      BookAttends(s, Next(s.t, op));
    case Claim(_, _, _, _) => ClaimAttends(s, step);
    case FirstMark(w, sent) => FirstMarkAttends(s, w, sent);
    case LastMark(w, failed) => LastMarkAttends(s, w, failed);
    case Requeue(now) => RequeueAttends(s, now);
  }

  lemma BookAttends(s: System, t': Tables)
    requires NoOrphans(s) && EventsAdvance(s.t.events, t'.events)
    ensures NoOrphans(s.(t := t'))
  {
    forall k | k in t'.events && t'.events[k].status == Processing ensures Attended(s.(t := t'), k) {
      var w, i :| OwedBy(s, k, w, i);
      assert OwedBy(s.(t := t'), k, w, i);
    }
  }

  lemma ClaimAttends(s: System, step: Step)
    requires NoOrphans(s) && step.Claim? && Enabled(s, step)
    ensures NoOrphans(After(s, step))
  {
    var s' := After(s, step);
    forall k | k in s'.t.events && s'.t.events[k].status == Processing ensures Attended(s', k) {
      if k in step.batch {
        var i :| 0 <= i < |step.batch| && step.batch[i] == k;
        assert OwedBy(s', k, step.w, i);
      } else {
        var w, i :| OwedBy(s, k, w, i);
        assert OwedBy(s', k, w, i);
      }
    }
  }

  // The head of a worker's jobs is replaced or dropped; the other jobs stay.
  lemma HeadAttends(s: System, w0: WorkerId, events: Events, left: seq<Job>, k: EventKey)
    requires Attended(s, k) && Jobs(s, w0) != [] && k != Jobs(s, w0)[0].key
    requires left == Jobs(s, w0)[1..] || (|left| == |Jobs(s, w0)| && left[1..] == Jobs(s, w0)[1..])
    ensures Attended(System(s.t.(events := events), s.jobs[w0 := left]), k)
  {
    var s' := System(s.t.(events := events), s.jobs[w0 := left]);
    var w, i :| OwedBy(s, k, w, i);
    var j := if w == w0 then i - (|Jobs(s, w0)| - |left|) else i;
    assert w == w0 ==> i > 0 && s.jobs[w0][i] == s.jobs[w0][1..][i - 1];
    assert w == w0 && |left| == |Jobs(s, w0)| ==> left[i] == left[1..][i - 1];
    assert OwedBy(s', k, w, j);
  }

  lemma FirstMarkAttends(s: System, w: WorkerId, sent: bool)
    requires NoOrphans(s) && Enabled(s, FirstMark(w, sent))
    ensures NoOrphans(After(s, FirstMark(w, sent)))
  {
    var s' := After(s, FirstMark(w, sent));
    forall k | k in s'.t.events && s'.t.events[k].status == Processing ensures Attended(s', k) {
      HeadAttends(s, w, s'.t.events, s'.jobs[w], k);
    }
  }

  lemma LastMarkAttends(s: System, w: WorkerId, failed: bool)
    requires JobsOk(s) && NoOrphans(s) && Enabled(s, LastMark(w, failed))
    ensures NoOrphans(After(s, LastMark(w, failed)))
  {
    var s' := After(s, LastMark(w, failed));
    assert Owes(s, w, 0) && JobOk(s.t.events, s.jobs[w][0]);
    forall k | k in s'.t.events && s'.t.events[k].status == Processing ensures Attended(s', k) {
      HeadAttends(s, w, s'.t.events, s'.jobs[w], k);
      assert s' == System(s.t.(events := s'.t.events), s.jobs[w := s'.jobs[w]]);
    }
  }

  lemma RequeueAttends(s: System, now: int)
    requires NoOrphans(s)
    ensures NoOrphans(After(s, Requeue(now)))
  {
    var s' := After(s, Requeue(now));
    forall k | k in s'.t.events && s'.t.events[k].status == Processing ensures Attended(s', k) {
      var w, i :| OwedBy(s, k, w, i);
      assert OwedBy(s', k, w, i);
    }
  }

  // A crash leaves nothing behind exactly when the worker owed no first mark.
  lemma CrashOrphansIff(s: System, w: WorkerId)
    requires SystemInv(s) && NoOrphans(s)
    ensures NoOrphans(After(s, Crash(w))) <==> OwesNoMark(s, w)
  {
    var s' := After(s, Crash(w));
    if OwesNoMark(s, w) {
      forall k | k in s'.t.events && s'.t.events[k].status == Processing ensures Attended(s', k) {
        var v, i :| OwedBy(s, k, v, i);
        assert OwedBy(s', k, v, i);
      }
    } else {
      var i :| Owes(s, w, i) && s.jobs[w][i].stage != MayFail;
      var k := s.jobs[w][i].key;
      assert JobOk(s.t.events, s.jobs[w][i]);
      forall v, j ensures !OwedBy(s', k, v, j) {
        if OwedBy(s', k, v, j) {
          assert Owes(s, v, j);
        }
      }
      assert !Attended(s', k);
    }
  }

  // No worker crashes while it owes a first mark.
  ghost predicate CrashesClean(history: seq<System>, steps: seq<Step>)
    requires |history| == |steps| + 1
  {
    forall i :: 0 <= i < |steps| && steps[i].Crash? ==> OwesNoMark(history[i], steps[i].w)
  }

  lemma {:induction false} RunAttends(history: seq<System>, steps: seq<Step>, i: nat)
    requires SystemRun(history, steps) && CrashesClean(history, steps) && i <= |steps|
    ensures NoOrphans(history[i])
  {
    if i > 0 {
      RunAttends(history, steps, i - 1);
      SystemRunKeeps(history, steps, i - 1);
      if steps[i - 1].Crash? {
        CrashOrphansIff(history[i - 1], steps[i - 1].w);
      } else {
        StepAttends(history[i - 1], steps[i - 1]);
      }
    }
  }

  // Without such a crash every event in processing has, at every moment of a run, exactly one
  // worker that still owes it its mark.
  lemma ExactlyOneOwner(history: seq<System>, steps: seq<Step>, i: nat, k: EventKey)
    requires SystemRun(history, steps) && CrashesClean(history, steps) && i <= |steps|
    requires k in history[i].t.events && history[i].t.events[k].status == Processing
    ensures exists w, x ::
              OwedBy(history[i], k, w, x) && forall v, y :: OwedBy(history[i], k, v, y) ==> v == w && y == x
  {
    RunAttends(history, steps, i);
    SystemRunKeeps(history, steps, i);
    assert Attended(history[i], k);
    var w, x :| OwedBy(history[i], k, w, x);
    forall v, y | OwedBy(history[i], k, v, y) ensures v == w && y == x {
      assert Owes(history[i], v, y) && Owes(history[i], w, x);
    }
  }

  // ---- two limits of the protocol ----

  ghost predicate Orphan(s: System, k: EventKey) {
    && k in s.t.events && s.t.events[k].status == Processing
    && forall w, i :: Owes(s, w, i) ==> s.jobs[w][i].key != k
  }

  // What a crashed worker had claimed is never claimed, marked or withdrawn again.
  lemma OrphanStays(s: System, step: Step, k: EventKey)
    requires SystemInv(s) && Enabled(s, step) && Orphan(s, k)
    ensures Orphan(After(s, step), k)
  {
    if step.Book? {
      NextSound(s.t, step.op);
      OrphanUnowned(s, step, k);
    } else {
      OrphanUnowned(s, step, k);
      OrphanStatus(s, step, k);
    }
  }

  lemma OrphanStatus(s: System, step: Step, k: EventKey)
    requires Enabled(s, step) && Orphan(s, k) && !step.Book?
    ensures k in After(s, step).t.events && After(s, step).t.events[k].status == Processing
  {
    if step.FirstMark? || step.LastMark? {
      assert Owes(s, step.w, 0);
    }
  }

  lemma OrphanUnowned(s: System, step: Step, k: EventKey)
    requires Enabled(s, step) && Orphan(s, k)
    ensures forall w, i :: Owes(After(s, step), w, i) ==> After(s, step).jobs[w][i].key != k
  {
    var s' := After(s, step);
    forall w, i | Owes(s', w, i) ensures s'.jobs[w][i].key != k {
      if step.FirstMark? && w == step.w && s.jobs[w][0].key.kind == AppointmentCompleted {
        assert Owes(s, w, i);
      } else if (step.FirstMark? || step.LastMark?) && w == step.w {
        assert Owes(s, w, i + 1);
      } else if step.Claim? && w == step.w {
        assert s'.jobs[w][i].key == step.batch[i];
      } else if !(step.Crash? && w == step.w) {
        assert Owes(s, w, i);
      }
    }
  }

  // ---- the statements of a worker ----

  ghost predicate Oldest(events: Events, left: set<EventKey>, k: EventKey) {
    && k in left && k in events
    && forall x :: x in left ==> x in events && events[k].createdAt <= events[x].createdAt
  }

  lemma {:induction false} OldestExists(events: Events, left: set<EventKey>)
    requires left != {} && left <= events.Keys
    ensures exists k :: Oldest(events, left, k)
  {
    var x :| x in left;
    if left == {x} {
      assert Oldest(events, left, x);
    } else {
      OldestExists(events, left - {x});
      var y :| Oldest(events, left - {x}, y);
      assert forall z :: z in left ==> z == x || z in left - {x};
      assert Oldest(events, left, if events[x].createdAt <= events[y].createdAt then x else y);
    }
  }

  method ClaimBatch(db: Database, now: int, locked: set<EventKey>) returns (batch: seq<EventKey>)
    modifies db`events
    ensures IsBatch(old(db.events), now, locked, batch)
    ensures db.events == WithStatus(old(db.events), batch, Processing)
  {
    var events := db.events;
    var left := set k | k in events && Due(events[k], now) && k !in locked;
    batch := [];
    while left != {} && |batch| < CLAIM_LIMIT
      invariant |batch| <= CLAIM_LIMIT && left <= events.Keys
      invariant forall k :: k in events && Due(events[k], now) && k !in locked <==> k in left || k in batch
      invariant forall i :: 0 <= i < |batch| ==> batch[i] !in left
      invariant forall i, j :: 0 <= i < j < |batch| ==> batch[i] != batch[j]
      invariant forall i, k :: 0 <= i < |batch| && k in left ==> events[batch[i]].createdAt <= events[k].createdAt
      decreases left
    {
      OldestExists(events, left);
      var k :| k in left && forall x :: x in left ==> events[k].createdAt <= events[x].createdAt;
      batch := batch + [k];
      left := left - {k};
    }
    db.events := WithStatus(events, batch, Processing);
  }

  method Mark(db: Database, key: EventKey, status: EventStatus)
    modifies db`events
    ensures db.events == WithStatus(old(db.events), [key], status)
  {
    if key in db.events {
      db.events := db.events[key := db.events[key].(status := status)];
    }
  }

  // Every event that failed within the retry window is due again as it was; no other changes.
  method RequeueFailed(db: Database, now: int)
    modifies db`events
    ensures db.events == Requeued(old(db.events), now)
    ensures db.events.Keys == old(db.events).Keys
    ensures forall k :: k in db.events ==>
              var was := old(db.events)[k];
              if was.status == Failed && now - was.createdAt < RETRY_WINDOW
              then db.events[k] == EventRow(was.scheduled, Pending, was.cancelledAt, was.createdAt)
              else db.events[k] == was
    ensures forall k :: k in db.events && db.events[k].status == Failed ==> now - db.events[k].createdAt >= RETRY_WINDOW
  {
    db.events := Requeued(db.events, now);
  }
}
