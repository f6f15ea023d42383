// When the reminders of an appointment that has ended stay silent: for good, under every
// continuation of the bookings and the workers.
module ReminderTheorems {
  import opened Options
  import opened BookingTables
  import opened BookingStatements
  import opened BookingTransactions
  import opened BookingInvariants
  import opened BookingProofs
  import opened BookingTheorems
  import opened Outbox

  // ---- what one booking transaction does to the reminders of ended appointments ----

  ghost predicate HasEnded(appts: Appts, a: ApptId) {
    a in appts && appts[a].status != Active
  }

  // A pending reminder of an ended appointment was one before, and of an ended appointment.
  ghost predicate AddsNone(appts: Appts, events: Events, appts': Appts, events': Events) {
    forall a, k :: HasEnded(appts', a) && PendingReminder(events', a, k) ==>
      HasEnded(appts, a) && PendingReminder(events, a, k)
  }

  ghost predicate Quiet(t: Tables, out: Outcome) {
    out.Committed? ==> AddsNone(t.appts, t.events, out.t.appts, out.t.events)
  }

  lemma SweepQuiet(t: Tables, now: int, user: Option<UserId>)
    ensures Quiet(t, Committed(Sweep(t, now, user)))
  {}

  lemma QuietAfterSweep(t: Tables, now: int, user: Option<UserId>, out: Outcome)
    requires Quiet(Sweep(t, now, user), out)
    ensures Quiet(t, out)
  {
    SweepQuiet(t, now, user);
  }

  lemma InsertQuiet(t: Tables, id: ApptId, ids: seq<SlotId>, now: int, r: ApptRow)
    requires r.status == Active
    ensures Quiet(t, InsertAppointment(t, id, ids, now, r))
  {}

  lemma CreateQuiet(
    t: Tables, id: ApptId, user: UserId, company: Fingerprint, ids: seq<SlotId>, details: nat, now: int)
    ensures Quiet(t, CreateSwept(t, id, user, company, ids, details, now))
  {
    var ord := InOrder(t.slots, ids);
    if Validate(t.slots, ord) == None {
      InsertQuiet(t, id, ids, now,
        NewRow(user, company, ExceptionToSpend(t, user, company, now), t.slots[ord[0]].start, details));
    }
  }

  lemma RescheduleQuiet(t: Tables, a: ApptId, ids: seq<SlotId>, now: int, pick: map<SlotId, SlotStatus>)
    requires a in t.appts && t.appts[a].status == Active
    ensures Quiet(t, Reschedule(t, a, ids, now, pick))
  {}

  lemma PatchQuiet(t: Tables, a: ApptId, details: nat, now: int)
    requires a in t.appts && t.appts[a].status == Active
    ensures Quiet(t, Patch(t, a, details, now))
  {}

  lemma TerminateQuiet(t: Tables, a: ApptId, slots: Slots, now: int)
    requires a in t.appts
    ensures Quiet(t, Terminate(t, a, slots, now))
  {}

  lemma UpdateQuiet(
    t: Tables, user: UserId, a: ApptId, version: nat, change: Change, now: int, pick: map<SlotId, SlotStatus>)
    ensures Quiet(t, UpdateSwept(t, user, a, version, change, now, pick))
  {
    if a in t.appts && t.appts[a].status == Active {
      match change
      case NewSlots(ids) => RescheduleQuiet(t, a, ids, now, pick);
      case NewDetails(details) => PatchQuiet(t, a, details, now);
      case NoChange =>
    }
  }

  lemma CancelQuiet(t: Tables, user: UserId, a: ApptId, now: int, pick: map<SlotId, SlotStatus>)
    ensures Quiet(t, CancelSwept(t, user, a, now, pick))
  {
    if a in t.appts {
      TerminateQuiet(t, a, Released(t.slots, t.overrides, a, pick), now);
    }
  }

  lemma ForceCancelQuiet(t: Tables, a: ApptId, now: int)
    ensures Quiet(t, ForceCancelSwept(t, a, now))
  {
    if a in t.appts {
      TerminateQuiet(t, a, HardLocked(t.slots, a), now);
    }
  }

  lemma ExecuteQuiet(t: Tables, op: Op)
    requires WellFormed(op)
    ensures Quiet(t, Execute(t, op))
  {
    match op
    case OpCreate(id, user, company, ids, details, now) =>
      CreateQuiet(Sweep(t, now, None), id, user, company, ids, details, now);
      QuietAfterSweep(t, now, None, Execute(t, op));
    case OpUpdate(user, a, version, change, now, pick) =>
      UpdateQuiet(Sweep(t, now, Some(user)), user, a, version, change, now, pick);
      QuietAfterSweep(t, now, Some(user), Execute(t, op));
    case OpCancel(user, a, now, pick) =>
      CancelQuiet(Sweep(t, now, Some(user)), user, a, now, pick);
      QuietAfterSweep(t, now, Some(user), Execute(t, op));
    case OpForceCancel(a, now) =>
      ForceCancelQuiet(Sweep(t, now, None), a, now);
      QuietAfterSweep(t, now, None, Execute(t, op));
    case OpAdminReschedule(a, ids, now, pick) =>
      if a in t.appts && t.appts[a].status == Active {
        RescheduleQuiet(t, a, ids, now, pick);
      }
    case OpSweep(now, only) => SweepQuiet(t, now, only);
    case OpCreateOverride(_, _) =>
    case OpUpdateOverride(_, _) =>
    case OpDeleteOverride(_) =>
    case OpCreateException(_, _, _, _, _) =>
    case OpMaterialize(_, _, _, _, _, now) => SweepQuiet(t, now, None);
  }

  lemma NextQuiet(t: Tables, op: Op)
    requires WellFormed(op)
    ensures AddsNone(t.appts, t.events, Next(t, op).appts, Next(t, op).events)
  {
    ExecuteQuiet(t, op);
  }

  // ---- what the system can still do ----

  ghost predicate CanRun(s: System, steps: seq<Step>)
    decreases |steps|
  {
    steps == [] || (Enabled(s, steps[0]) && CanRun(After(s, steps[0]), steps[1..]))
  }

  ghost function Ran(s: System, steps: seq<Step>): System
    requires CanRun(s, steps)
    decreases |steps|
  {
    if steps == [] then s else Ran(After(s, steps[0]), steps[1..])
  }

  // No requeue runs before the moment.
  ghost predicate RequeuesFrom(steps: seq<Step>, since: int) {
    forall i :: 0 <= i < |steps| && steps[i].Requeue? ==> steps[i].now >= since
  }

  // From here on no reminder of the appointment is pending, whatever happens.
  ghost predicate SilentForGood(s: System, a: ApptId, since: int) {
    forall steps :: CanRun(s, steps) && RequeuesFrom(steps, since) ==> NoReminder(Ran(s, steps).t.events, a)
  }

  // ---- one cancellation and one requeue ----

  // A failed reminder of the appointment that the next requeue would send again.
  ghost predicate Retried(events: Events, a: ApptId, later: int) {
    exists k :: RetriedAt(events, a, later, k)
  }

  ghost predicate RetriedAt(events: Events, a: ApptId, later: int, k: EventKey) {
    && k in events && k.biz == a && k.kind == ReminderDue
    && events[k].status == Failed && events[k].createdAt > later - RETRY_WINDOW
  }

  // A cancellation withdraws pending reminders only: after a requeue that follows at once the
  // appointment has none exactly when none of its reminders had failed within the retry window.
  lemma CancelSilencesIff(t: Tables, user: UserId, a: ApptId, now: int, later: int, pick: map<SlotId, SlotStatus>)
    requires Inv(t) && a in t.appts
    requires t.appts[a].user == user && t.appts[a].status == Active && now < t.appts[a].end
    ensures var out := Cancel(t, user, a, now, pick);
            && out.Committed? && out.t.appts[a].status == Cancelled
            && (NoReminder(Requeued(out.t.events, later), a) <==> !Retried(t.events, a, later))
  {
    CancelRequeued(t, user, a, now, later, pick);
    var events := Requeued(Cancel(t, user, a, now, pick).t.events, later);
    assert Retried(t.events, a, later) ==>
           exists k :: RetriedAt(t.events, a, later, k) && PendingReminder(events, a, k);
  }

  // Such a reminder is pending again after the requeue.
  lemma FailedReminderOutlivesCancel(t: Tables, user: UserId, a: ApptId, k: EventKey, now: int, later: int,
                                     pick: map<SlotId, SlotStatus>)
    requires Inv(t) && a in t.appts
    requires t.appts[a].user == user && t.appts[a].status == Active && now < t.appts[a].end
    requires RetriedAt(t.events, a, later, k)
    ensures var out := Cancel(t, user, a, now, pick);
            && out.Committed? && out.t.appts[a].status == Cancelled
            && Requeued(out.t.events, later)[k].status == Pending
  {
    CancelRequeued(t, user, a, now, later, pick);
    assert PendingReminder(Requeued(Cancel(t, user, a, now, pick).t.events, later), a, k);
  }

  // The reminders pending after a cancellation and a requeue are those that had failed.
  lemma CancelRequeued(t: Tables, user: UserId, a: ApptId, now: int, later: int, pick: map<SlotId, SlotStatus>)
    requires Inv(t) && a in t.appts
    requires t.appts[a].user == user && t.appts[a].status == Active && now < t.appts[a].end
    ensures var out := Cancel(t, user, a, now, pick);
            && out.Committed? && out.t.appts[a].status == Cancelled
            && forall k :: PendingReminder(Requeued(out.t.events, later), a, k) <==> RetriedAt(t.events, a, later, k)
  {
    var t1 := Sweep(t, now, Some(user));
    SweepKeepsInv(t, now, Some(user));
    SweepPassesOver(t, user, a, now);
    CancelCommits(t1, user, a, now, pick);
    forall k
      ensures PendingReminder(Requeued(Cancel(t, user, a, now, pick).t.events, later), a, k) <==>
              RetriedAt(t.events, a, later, k)
    {
      RequeuedAfterCancel(t1.events, a, now, later, k);
    }
  }

  lemma SweepPassesOver(t: Tables, user: UserId, a: ApptId, now: int)
    requires a in t.appts && now < t.appts[a].end
    ensures var t1 := Sweep(t, now, Some(user));
            && t1.appts[a] == t.appts[a]
            && forall k: EventKey :: k.biz == a ==>
              (k in t1.events <==> k in t.events) && (k in t.events ==> t1.events[k] == t.events[k])
  {}

  lemma CancelCommits(t: Tables, user: UserId, a: ApptId, now: int, pick: map<SlotId, SlotStatus>)
    requires KeyInv(t.appts, t.events) && a in t.appts && t.appts[a].user == user && t.appts[a].status == Active
    ensures var out := CancelSwept(t, user, a, now, pick);
            && out.Committed? && out.t.appts[a].status == Cancelled
            && out.t.events == CancelReminders(t.events, a, now)[CancelKey(a) := NewEvent(None, now)]
  {
    FreshKeys(t.appts, t.events, a);
  }

  lemma RequeuedAfterCancel(events: Events, a: ApptId, now: int, later: int, k: EventKey)
    ensures var events' := CancelReminders(events, a, now)[CancelKey(a) := NewEvent(None, now)];
            PendingReminder(Requeued(events', later), a, k) <==> RetriedAt(events, a, later, k)
  {}

  // ---- when that is so ----

  ghost predicate IsReminder(events: Events, a: ApptId, k: EventKey) {
    k in events && k.biz == a && k.kind == ReminderDue
  }

  // Withdrawn, delivered, or left behind by a crash.
  ghost predicate Settled(s: System, k: EventKey) {
    k in s.t.events && (s.t.events[k].status == Withdrawn || s.t.events[k].status == Processed || Orphan(s, k))
  }

  // Settled, or at least not pending and too old for a requeue.
  ghost predicate StillAt(s: System, k: EventKey, since: int) {
    && k in s.t.events && s.t.events[k].status != Pending
    && (s.t.events[k].createdAt > since - RETRY_WINDOW ==> Settled(s, k))
  }

  ghost predicate Still(s: System, a: ApptId, since: int) {
    forall k :: IsReminder(s.t.events, a, k) ==> StillAt(s, k, since)
  }

  lemma EndedStays(s: System, step: Step, a: ApptId)
    requires SystemInv(s) && Enabled(s, step) && HasEnded(s.t.appts, a)
    ensures HasEnded(After(s, step).t.appts, a)
  {
    if step.Book? {
      NextSound(s.t, step.op);
    }
  }

  // No step but a booking adds events, and no step changes when they were made.
  lemma WorkerEvents(s: System, step: Step)
    requires Enabled(s, step) && !step.Book?
    ensures var events' := After(s, step).t.events;
            && events'.Keys == s.t.events.Keys
            && forall k :: k in events' ==> events'[k].createdAt == s.t.events[k].createdAt
  {}

  lemma SettledStays(s: System, step: Step, k: EventKey)
    requires SystemInv(s) && Enabled(s, step) && Settled(s, k) && k.kind == ReminderDue
    ensures Settled(After(s, step), k)
  {
    StepKeeps(s, step);
    if Orphan(s, k) {
      OrphanStays(s, step, k);
    }
  }

  // A worker's step on a reminder that is not settled and not pending.
  lemma WorkerLeavesStill(s: System, step: Step, k: EventKey, since: int)
    requires SystemInv(s) && Enabled(s, step) && !step.Book? && k.kind == ReminderDue
    requires StillAt(s, k, since) && (step.Requeue? ==> step.now >= since)
    ensures StillAt(After(s, step), k, since)
  {
    WorkerEvents(s, step);
    if Settled(s, k) {
      SettledStays(s, step, k);
    } else {
      NotPendingAfter(s, step, k, since);
    }
  }

  lemma NotPendingAfter(s: System, step: Step, k: EventKey, since: int)
    requires Enabled(s, step) && !step.Book? && k in s.t.events && s.t.events[k].status != Pending
    requires step.Requeue? ==> step.now >= since && s.t.events[k].createdAt <= since - RETRY_WINDOW
    ensures k in After(s, step).t.events && After(s, step).t.events[k].status != Pending
  {}

  lemma BookLeavesStill(s: System, op: Op, k: EventKey, a: ApptId, since: int)
    requires SystemInv(s) && WellFormed(op) && HasEnded(s.t.appts, a) && Still(s, a, since)
    requires IsReminder(Next(s.t, op).events, a, k)
    ensures StillAt(After(s, Book(op)), k, since)
  {
    NextSound(s.t, op);
    NextQuiet(s.t, op);
    var s' := After(s, Book(op));
    assert HasEnded(s'.t.appts, a);
    assert PendingReminder(s'.t.events, a, k) ==> PendingReminder(s.t.events, a, k);
    if k in s.t.events {
      assert StillAt(s, k, since);
      if Settled(s, k) {
        SettledStays(s, Book(op), k);
      }
    }
  }

  lemma StillStays(s: System, step: Step, a: ApptId, since: int)
    requires SystemInv(s) && Enabled(s, step) && HasEnded(s.t.appts, a) && Still(s, a, since)
    requires step.Requeue? ==> step.now >= since
    ensures Still(After(s, step), a, since)
  {
    var s' := After(s, step);
    forall k | IsReminder(s'.t.events, a, k) ensures StillAt(s', k, since) {
      if step.Book? {
        BookLeavesStill(s, step.op, k, a, since);
      } else {
        WorkerEvents(s, step);
        WorkerLeavesStill(s, step, k, since);
      }
    }
  }

  lemma {:induction false} StillIsSilent(s: System, steps: seq<Step>, a: ApptId, since: int)
    requires SystemInv(s) && HasEnded(s.t.appts, a) && Still(s, a, since)
    requires CanRun(s, steps) && RequeuesFrom(steps, since)
    ensures NoReminder(Ran(s, steps).t.events, a)
    decreases |steps|
  {
    if steps == [] {
      forall k ensures !PendingReminder(s.t.events, a, k) {
        assert IsReminder(s.t.events, a, k) ==> StillAt(s, k, since);
      }
    } else {
      StepKeeps(s, steps[0]);
      EndedStays(s, steps[0], a);
      StillStays(s, steps[0], a, since);
      StillIsSilent(After(s, steps[0]), steps[1..], a, since);
    }
  }

  // ---- and otherwise some continuation sends a reminder ----

  ghost predicate Reminds(s: System, steps: seq<Step>, a: ApptId, k: EventKey, since: int) {
    CanRun(s, steps) && RequeuesFrom(steps, since) && PendingReminder(Ran(s, steps).t.events, a, k)
  }

  lemma FirstThen(s: System, step: Step, steps: seq<Step>, a: ApptId, k: EventKey, since: int)
    requires Enabled(s, step) && Reminds(After(s, step), steps, a, k, since)
    requires step.Requeue? ==> step.now >= since
    ensures Reminds(s, [step] + steps, a, k, since)
  {
    var all := [step] + steps;
    assert all[0] == step && all[1..] == steps;
    forall i | 0 <= i < |all| && all[i].Requeue? ensures all[i].now >= since {
      assert i > 0 ==> all[i] == steps[i - 1];
    }
  }

  lemma FailedIsRequeued(s: System, a: ApptId, k: EventKey, since: int) returns (steps: seq<Step>)
    requires RetriedAt(s.t.events, a, since, k)
    ensures Reminds(s, steps, a, k, since)
  {
    var step := Requeue(since);
    var s' := After(s, step);
    assert PendingReminder(s'.t.events, a, k) && Ran(s', []) == s';
    steps := [step] + [];
    FirstThen(s, step, [], a, k, since);
  }

  ghost predicate CanRemind(s: System, a: ApptId, k: EventKey, since: int) {
    exists steps :: Reminds(s, steps, a, k, since)
  }

  // The owner marks what comes before it as delivered and fails on the reminder.
  lemma {:induction false} OwnedCanFail(s: System, w: WorkerId, i: nat, a: ApptId, k: EventKey, since: int)
    requires SystemInv(s) && OwedBy(s, k, w, i) && IsReminder(s.t.events, a, k)
    requires s.t.events[k].createdAt > since - RETRY_WINDOW
    ensures CanRemind(s, a, k, since)
    decreases i, if s.jobs[w][0].stage == Unmarked then 1 else 0
  {
    var s' := HeadMarked(s, w, i, a, k, since);
    if i == 0 {
      var steps := FailedIsRequeued(s', a, k, since);
    } else if OwedBy(s', k, w, i) {
      OwnedCanFail(s', w, i, a, k, since);
    } else {
      OwnedCanFail(s', w, i - 1, a, k, since);
    }
  }

  // What came of marking the first of the worker's jobs.
  ghost predicate HeadDone(s: System, w: WorkerId, i: nat, k: EventKey, s': System) {
    && OwedBy(s, k, w, i) && SystemInv(s') && k in s.t.events && k in s'.t.events
    && s'.t.events[k].createdAt == s.t.events[k].createdAt
    && (i == 0 ==> s'.t.events[k].status == Failed)
    && (i > 0 && !OwedBy(s', k, w, i) ==> OwedBy(s', k, w, i - 1))
    && (i > 0 && OwedBy(s', k, w, i) ==> s.jobs[w][0].stage == Unmarked && s'.jobs[w][0].stage == MayFail)
  }

  lemma HeadMarked(s: System, w: WorkerId, i: nat, a: ApptId, k: EventKey, since: int) returns (s': System)
    requires SystemInv(s) && OwedBy(s, k, w, i) && IsReminder(s.t.events, a, k)
    ensures HeadDone(s, w, i, k, s') && (CanRemind(s', a, k, since) ==> CanRemind(s, a, k, since))
  {
    var step := if s.jobs[w][0].stage == Unmarked then FirstMark(w, i > 0) else LastMark(w, false);
    HeadStep(s, w, i, k, step);
    s' := After(s, step);
    if CanRemind(s', a, k, since) {
      ThenCanRemind(s, step, a, k, since);
    }
  }

  lemma ThenCanRemind(s: System, step: Step, a: ApptId, k: EventKey, since: int)
    requires Enabled(s, step) && !step.Requeue? && CanRemind(After(s, step), a, k, since)
    ensures CanRemind(s, a, k, since)
  {
    var steps :| Reminds(After(s, step), steps, a, k, since);
    FirstThen(s, step, steps, a, k, since);
  }

  lemma HeadStep(s: System, w: WorkerId, i: nat, k: EventKey, step: Step)
    requires SystemInv(s) && OwedBy(s, k, w, i) && k in s.t.events && k.kind == ReminderDue
    requires step == if s.jobs[w][0].stage == Unmarked then FirstMark(w, i > 0) else LastMark(w, false)
    ensures Enabled(s, step) && HeadDone(s, w, i, k, After(s, step))
  {
    assert Owes(s, w, 0) && Owes(s, w, i);
    assert JobOk(s.t.events, s.jobs[w][0]) && JobOk(s.t.events, s.jobs[w][i]);
    assert i > 0 ==> s.jobs[w][0].key != k;
    StepKeeps(s, step);
    WorkerEvents(s, step);
    var s' := After(s, step);
    ShiftedJobs(s, w, i, k, s', |s.jobs[w]| - |s'.jobs[w]|);
  }

  // The worker's jobs after the first are as they were, or have moved up by one.
  lemma ShiftedJobs(s: System, w: WorkerId, i: nat, k: EventKey, s': System, up: int)
    requires OwedBy(s, k, w, i) && w in s'.jobs && |s'.jobs[w]| == |s.jobs[w]| - up && 0 <= up <= 1
    requires s'.jobs[w] == s.jobs[w][1..] || (s'.jobs[w] != [] && s'.jobs[w][1..] == s.jobs[w][1..])
    ensures i > 0 ==> OwedBy(s', k, w, i - up)
  {
    if i > 0 {
      assert s.jobs[w][i] == s.jobs[w][1..][i - 1];
      assert up == 0 ==> s'.jobs[w][i] == s'.jobs[w][1..][i - 1];
    }
  }

  lemma RestlessReminds(s: System, a: ApptId, since: int) returns (steps: seq<Step>)
    requires SystemInv(s) && !Still(s, a, since)
    ensures CanRun(s, steps) && RequeuesFrom(steps, since) && !NoReminder(Ran(s, steps).t.events, a)
  {
    var k :| IsReminder(s.t.events, a, k) && !StillAt(s, k, since);
    if s.t.events[k].status == Pending {
      steps := [];
      assert PendingReminder(Ran(s, steps).t.events, a, k);
    } else if s.t.events[k].status == Failed {
      steps := FailedIsRequeued(s, a, k, since);
    } else {
      var w, i :| Owes(s, w, i) && s.jobs[w][i].key == k;
      assert JobOk(s.t.events, s.jobs[w][i]);
      OwnedCanFail(s, w, i, a, k, since);
      steps :| Reminds(s, steps, a, k, since);
    }
  }

  // An ended appointment has no pending reminder, now or after anything the bookings and the
  // workers can do, exactly when each of its reminders is settled, or too old for a requeue.
  lemma SilentIff(s: System, a: ApptId, since: int)
    requires SystemInv(s) && HasEnded(s.t.appts, a)
    ensures SilentForGood(s, a, since) <==> Still(s, a, since)
  {
    if Still(s, a, since) {
      forall steps | CanRun(s, steps) && RequeuesFrom(steps, since) ensures NoReminder(Ran(s, steps).t.events, a) {
        StillIsSilent(s, steps, a, since);
      }
    } else {
      var steps := RestlessReminds(s, a, since);
    }
  }

  // Of what clock the requeues follow nothing is assumed here: then settled is all there is.
  lemma SilentIffSettled(s: System, a: ApptId)
    requires SystemInv(s) && HasEnded(s.t.appts, a)
    ensures (forall steps :: CanRun(s, steps) ==> NoReminder(Ran(s, steps).t.events, a)) <==>
              (forall k :: IsReminder(s.t.events, a, k) ==> Settled(s, k))
  {
    if forall k :: IsReminder(s.t.events, a, k) ==> Settled(s, k) {
      forall steps | CanRun(s, steps) ensures NoReminder(Ran(s, steps).t.events, a) {
        StillIsSilent(s, steps, a, FirstRequeue(steps));
      }
    } else {
      var k :| IsReminder(s.t.events, a, k) && !Settled(s, k);
      var since := s.t.events[k].createdAt;
      assert !StillAt(s, k, since);
      var steps := RestlessReminds(s, a, since);
    }
  }

  function FirstRequeue(steps: seq<Step>): (since: int)
    ensures RequeuesFrom(steps, since)
  {
    if steps == [] then 0 else
      var later := FirstRequeue(steps[1..]);
      assert forall i :: 1 <= i < |steps| ==> steps[i] == steps[1..][i - 1];
      if steps[0].Requeue? then Min(steps[0].now, later) else later
  }

  // ---- the transaction that ends an appointment ----

  // No reminder young enough for a requeue has failed or is in the hands of a worker.
  ghost predicate NoneAtLarge(s: System, a: ApptId, since: int) {
    forall k :: IsReminder(s.t.events, a, k) && s.t.events[k].createdAt > since - RETRY_WINDOW ==>
      s.t.events[k].status != Failed && (s.t.events[k].status == Processing ==> !Attended(s, k))
  }

  lemma AtLargeAfter(s: System, op: Op, a: ApptId, since: int)
    requires SystemInv(s) && WellFormed(op) && a in s.t.appts && s.t.appts[a].status == Active
    requires HasEnded(Next(s.t, op).appts, a)
    ensures Still(After(s, Book(op)), a, since) <==> NoneAtLarge(s, a, since)
  {
    NextSound(s.t, op);
    NextQuiet(s.t, op);
    BookingLeaves(s, Next(s.t, op), a, since);
  }

  lemma BookingLeaves(s: System, t': Tables, a: ApptId, since: int)
    requires JobsOk(s) && EventsAdvance(s.t.events, t'.events) && AddsNone(s.t.appts, s.t.events, t'.appts, t'.events)
    requires a in s.t.appts && s.t.appts[a].status == Active && HasEnded(t'.appts, a)
    ensures Still(s.(t := t'), a, since) <==> NoneAtLarge(s, a, since)
  {
    var s' := s.(t := t');
    forall k | IsReminder(t'.events, a, k)
      ensures StillAt(s', k, since) <==>
                (k in s.t.events && s.t.events[k].createdAt > since - RETRY_WINDOW ==>
                   s.t.events[k].status != Failed && (s.t.events[k].status == Processing ==> !Attended(s, k)))
    {
      assert !PendingReminder(t'.events, a, k);
      if k in s.t.events && s.t.events[k].status == Processing {
        AttendedIff(s, s', k);
      }
    }
    assert forall k :: IsReminder(s.t.events, a, k) ==> IsReminder(t'.events, a, k);
  }

  lemma AttendedIff(s: System, s': System, k: EventKey)
    requires JobsOk(s) && s'.jobs == s.jobs && k.kind == ReminderDue
    requires k in s.t.events && k in s'.t.events && s'.t.events[k] == s.t.events[k]
    requires s.t.events[k].status == Processing
    ensures Attended(s, k) <==> !Orphan(s', k)
  {
    if !Orphan(s', k) {
      var w, i :| Owes(s', w, i) && s'.jobs[w][i].key == k;
      assert Owes(s, w, i) && JobOk(s.t.events, s.jobs[w][i]);
      assert OwedBy(s, k, w, i);
    }
  }

  // Whichever transaction ends an appointment, by cancelling or completing it: its reminders are
  // silent for good exactly when, before the call, none at large could come back.
  lemma EndingSilencesIff(s: System, op: Op, a: ApptId, since: int)
    requires SystemInv(s) && WellFormed(op) && a in s.t.appts && s.t.appts[a].status == Active
    requires HasEnded(Next(s.t, op).appts, a)
    ensures SilentForGood(After(s, Book(op)), a, since) <==> NoneAtLarge(s, a, since)
  {
    BookKeeps(s, op);
    SilentIff(After(s, Book(op)), a, since);
    AtLargeAfter(s, op, a, since);
  }

  // In particular a cancellation by the owner, which commits.
  lemma CancelSilencesForGoodIff(
    s: System, user: UserId, a: ApptId, now: int, pick: map<SlotId, SlotStatus>, since: int)
    requires SystemInv(s) && a in s.t.appts
    requires s.t.appts[a].user == user && s.t.appts[a].status == Active && now < s.t.appts[a].end
    ensures var s' := After(s, Book(OpCancel(user, a, now, pick)));
            && a in s'.t.appts && s'.t.appts[a].status == Cancelled
            && (SilentForGood(s', a, since) <==> NoneAtLarge(s, a, since))
  {
    CancelRequeued(s.t, user, a, now, since, pick);
    EndingSilencesIff(s, OpCancel(user, a, now, pick), a, since);
  }

  // ---- in runs from the empty schema ----

  lemma {:induction false} RestOfRun(history: seq<System>, steps: seq<Step>, i: nat)
    requires SystemRun(history, steps) && i <= |steps|
    ensures CanRun(history[i], steps[i..]) && Ran(history[i], steps[i..]) == Last(history)
    decreases |steps| - i
  {
    if i < |steps| {
      RestOfRun(history, steps, i + 1);
      assert steps[i..][0] == steps[i] && steps[i..][1..] == steps[i + 1..];
    }
  }

  lemma {:induction false} Continue(history: seq<System>, steps: seq<Step>, more: seq<Step>)
    returns (history': seq<System>)
    requires SystemRun(history, steps) && CanRun(Last(history), more)
    ensures SystemRun(history', steps + more) && Last(history') == Ran(Last(history), more)
    ensures history <= history'
    decreases |more|
  {
    if more == [] {
      history' := history;
      assert steps + more == steps;
    } else {
      var s := After(Last(history), more[0]);
      StepOn(history, steps, more[0], s);
      history' := Continue(history + [s], steps + [more[0]], more[1..]);
      assert steps + [more[0]] + more[1..] == steps + more;
    }
  }

  // The run goes on from where the first one ended, with requeues from the moment on.
  ghost predicate GoesOn(history: seq<System>, steps: seq<Step>, history': seq<System>, steps': seq<Step>, since: int) {
    SystemRun(history', steps') && history <= history' && steps <= steps' && RequeuesFrom(steps'[|steps|..], since)
  }

  // At any moment of any run: no later moment of any run that goes on from there has a pending
  // reminder of the ended appointment exactly when they are still.
  lemma StillInRunsIff(history: seq<System>, steps: seq<Step>, a: ApptId, since: int)
    requires SystemRun(history, steps) && HasEnded(Last(history).t.appts, a)
    ensures (forall history', steps' :: GoesOn(history, steps, history', steps', since) ==>
               NoReminder(Last(history').t.events, a)) <==>
              Still(Last(history), a, since)
  {
    var n := |steps|;
    SystemRunKeeps(history, steps, n);
    SilentIff(history[n], a, since);
    if Still(history[n], a, since) {
      forall history', steps' | GoesOn(history, steps, history', steps', since)
        ensures NoReminder(Last(history').t.events, a)
      {
        RestOfRun(history', steps', n);
      }
    } else {
      var more := RestlessReminds(history[n], a, since);
      var history' := Continue(history, steps, more);
      assert (steps + more)[n..] == more;
      assert GoesOn(history, steps, history', steps + more, since);
    }
  }

  // ---- no reminder before its time ----

  ghost predicate TakenUp(events: Events, k: EventKey) {
    k in events && events[k].status != Pending && events[k].status != Withdrawn
  }

  // A claim that took the event, at its scheduled moment or later.
  ghost predicate ClaimedInTime(step: Step, k: EventKey, r: EventRow) {
    step.Claim? && k in step.batch && (r.scheduled == None || r.scheduled.value <= step.now)
  }

  // An event that a step takes up was taken up before, as it is scheduled now, or this step claims it.
  lemma StepInTime(s: System, step: Step, k: EventKey)
    requires SystemInv(s) && Enabled(s, step) && TakenUp(After(s, step).t.events, k)
    ensures var r := After(s, step).t.events[k];
            || ClaimedInTime(step, k, r)
            || (TakenUp(s.t.events, k) && s.t.events[k].scheduled == r.scheduled)
  {
    if step.Book? {
      NextSound(s.t, step.op);
    } else if step.Claim? {
      ClaimInTime(s, step, k);
    } else {
      MarkInTime(s, step, k);
    }
  }

  lemma ClaimInTime(s: System, step: Step, k: EventKey)
    requires step.Claim? && Enabled(s, step) && TakenUp(After(s, step).t.events, k)
    ensures var r := After(s, step).t.events[k];
            ClaimedInTime(step, k, r) || (TakenUp(s.t.events, k) && s.t.events[k].scheduled == r.scheduled)
  {
    if k in step.batch {
      var i :| 0 <= i < |step.batch| && step.batch[i] == k;
    }
  }

  lemma MarkInTime(s: System, step: Step, k: EventKey)
    requires JobsOk(s) && !step.Book? && !step.Claim? && Enabled(s, step) && TakenUp(After(s, step).t.events, k)
    ensures TakenUp(s.t.events, k) && s.t.events[k].scheduled == After(s, step).t.events[k].scheduled
  {
    if step.FirstMark? || step.LastMark? {
      assert Owes(s, step.w, 0) && JobOk(s.t.events, s.jobs[step.w][0]);
    }
  }

  // Over every run: what is in process, delivered or failed was claimed, and not before its time.
  lemma {:induction false} NeverEarly(history: seq<System>, steps: seq<Step>, i: nat, k: EventKey)
    requires SystemRun(history, steps) && i <= |steps| && TakenUp(history[i].t.events, k)
    ensures exists j :: 0 <= j < i && ClaimedInTime(steps[j], k, history[i].t.events[k])
    decreases i
  {
    SystemRunKeeps(history, steps, i);
    if i > 0 {
      SystemRunKeeps(history, steps, i - 1);
      StepInTime(history[i - 1], steps[i - 1], k);
      if TakenUp(history[i - 1].t.events, k) && !ClaimedInTime(steps[i - 1], k, history[i].t.events[k]) {
        NeverEarly(history, steps, i - 1, k);
        var j :| 0 <= j < i - 1 && ClaimedInTime(steps[j], k, history[i - 1].t.events[k]);
        assert ClaimedInTime(steps[j], k, history[i].t.events[k]);
      }
    }
  }
}
