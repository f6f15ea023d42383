// Concrete runs from the empty schema into the states in which a promise fails.
module ReachableStates {
  import opened Options
  import opened BookingTables
  import opened BookingStatements
  import opened BookingTransactions
  import opened BookingInvariants
  import opened BookingProofs
  import opened BookingTheorems
  import opened AvailabilityTheorems
  import Outbox
  import ReminderTheorems
  import RowLocks
  import LockAnswers
  import SlotFeed

  // ---- the first booking ----

  // The week of Thursday, day 0, without a holiday; its first slot starts at 9:30.
  const PLAIN := Calendar({}, {})
  const START := SlotStart(0, 0)
  const NOW := START - REMINDER_LEAD

  function SlotIds(): (ids: seq<SlotId>)
    ensures |ids| == 7 * SLOT_COUNT && FreshIds(map[], ids)
  {
    seq(7 * SLOT_COUNT, i requires 0 <= i < 7 * SLOT_COUNT => i)
  }

  function Opening(): Op {
    OpMaterialize(0, 1, -1, PLAIN, SlotIds(), NOW)
  }

  function Booking(s0: SlotId, s1: SlotId, s2: SlotId): Op {
    OpCreate(0, 0, 0, [s0, s1, s2], 0, NOW)
  }

  lemma SweepOfNothing(t: Tables, now: int, user: Option<UserId>)
    requires forall a :: a in t.appts ==> !Expired(t.appts[a], now, user)
    ensures Sweep(t, now, user) == t
  {
    NothingToSweep(t.appts, t.events, now, user);
  }

  lemma OpenedSlot(t: Tables, k: nat) returns (s: SlotId)
    requires k < 3 && Materialize(EMPTY, 0, 1, -1, PLAIN, SlotIds(), NOW) == Committed(t)
    requires forall x :: x in t.slots ==> IsFree(t.slots[x])
    ensures s in t.slots && At(t.slots[s], START + k * SLOT) && t.slots[s].status == Available
  {
    MaterializeSettles(EMPTY, 0, 1, -1, PLAIN, SlotIds(), NOW);
    assert DaySettled(t.slots, EMPTY.overrides, 0, k, -1, PLAIN);
    assert BaseAvailable(0, SlotMinute(k), -1, PLAIN);
    assert CalendarStatus(0, k, -1, PLAIN, map[]) == Available;
    assert SlotStart(0, k) == START + k * SLOT;
    s :| s in t.slots && At(t.slots[s], SlotStart(0, k));
  }

  lemma OpenedWeek() returns (t: Tables)
    ensures Materialize(EMPTY, 0, 1, -1, PLAIN, SlotIds(), NOW) == Committed(t)
    ensures t == Next(EMPTY, Opening()) && t == EMPTY.(slots := t.slots) && SlotsOk(t.slots)
    ensures forall s :: s in t.slots ==> IsFree(t.slots[s])
  {
    t := FirstMaterialized(0, 1, -1, PLAIN, SlotIds(), NOW);
    SweepOfNothing(EMPTY, NOW, None);
    NextSound(EMPTY, Opening());
  }

  lemma ThreeInARow(slots: Slots, s0: SlotId, s1: SlotId, s2: SlotId)
    requires s0 in slots && At(slots[s0], START) && slots[s0].status == Available
    requires s1 in slots && At(slots[s1], START + SLOT) && slots[s1].status == Available
    requires s2 in slots && At(slots[s2], START + 2 * SLOT) && slots[s2].status == Available
    ensures Bookable(slots, [s0, s1, s2], START, s0, s1, s2)
  {}

  // The materialised week, with three slots to book.
  lemma Opened() returns (t: Tables, s0: SlotId, s1: SlotId, s2: SlotId)
    ensures t == Next(EMPTY, Opening()) && t == EMPTY.(slots := t.slots) && SlotsOk(t.slots)
    ensures Bookable(t.slots, [s0, s1, s2], START, s0, s1, s2)
  {
    t := OpenedWeek();
    s0 := OpenedSlot(t, 0);
    s1 := OpenedSlot(t, 1);
    s2 := OpenedSlot(t, 2);
    ThreeInARow(t.slots, s0, s1, s2);
  }

  function FirstRow(): ApptRow {
    NewRow(0, 0, None, START, 0)
  }

  lemma Booked(t: Tables, s0: SlotId, s1: SlotId, s2: SlotId)
    requires t == EMPTY.(slots := t.slots) && SlotsOk(t.slots) && Bookable(t.slots, [s0, s1, s2], START, s0, s1, s2)
    ensures Next(t, Booking(s0, s1, s2)) == Entered(t, 0, [s0, s1, s2], NOW, FirstRow())
  {
    SweepOfNothing(t, NOW, None);
    SortedTriple(t.slots, [s0, s1, s2], START, s0, s1, s2);
    BookableValidates(t.slots, [s0, s1, s2], START, s0, s1, s2);
    assert ExceptionToSpend(t, 0, 0, NOW) == None;
    assert InsertViolations(t.appts, 0, 0, 0, None) == {};
  }

  // ---- longer runs ----

  lemma RunOn(history: seq<Tables>, ops: seq<Op>, op: Op, t: Tables)
    requires Run(history, ops) && WellFormed(op) && t == Next(history[|history| - 1], op)
    ensures Run(history + [t], ops + [op])
  {
    var history', ops' := history + [t], ops + [op];
    forall i | 0 <= i < |ops'| ensures WellFormed(ops'[i]) && history'[i + 1] == Next(history'[i], ops'[i]) {
      if i < |ops| {
        assert history'[i + 1] == history[i + 1] && history'[i] == history[i] && ops'[i] == ops[i];
      }
    }
  }

  // The opening and the booking, and the tables before and after it.
  lemma FirstTwo() returns (history: seq<Tables>, ops: seq<Op>, t: Tables, s: SlotId)
    ensures Run(history, ops) && |ops| == 2 && history[2] == t && Inv(t)
    ensures history[1].appts == map[] && s in history[1].slots && history[1].slots[s].status == Available
    ensures s in t.slots && t.slots[s] == Bumped(history[1].slots[s], SlotStatus.Booked, Some(0))
            && At(t.slots[s], START)
    ensures t.appts == map[0 := FirstRow()] && t.overrides == map[]
    ensures t.events == FirstEvents()
  {
    var t1, s0, s1, s2 := Opened();
    Booked(t1, s0, s1, s2);
    t, s := Entered(t1, 0, [s0, s1, s2], NOW, FirstRow()), s0;
    history, ops := [EMPTY], [];
    RunOn(history, ops, Opening(), t1);
    history, ops := history + [t1], ops + [Opening()];
    RunOn(history, ops, Booking(s0, s1, s2), t);
    history, ops := history + [t], ops + [Booking(s0, s1, s2)];
    RunKeepsInv(history, ops, 2);
  }

  // ---- a reminder after a cancellation ----

  function Reminder(): EventKey {
    FirstReminderKey(0)
  }

  // A run of booking transactions is a run of the whole system.
  lemma {:induction false} BookAll(
    history: seq<Tables>, ops: seq<Op>) returns (systems: seq<Outbox.System>, steps: seq<Outbox.Step>)
    requires Run(history, ops)
    ensures Outbox.SystemRun(systems, steps) && |steps| == |ops|
            && Outbox.Last(systems) == Outbox.System(history[|ops|], map[])
    decreases |ops|
  {
    if ops == [] {
      systems, steps := [Outbox.START], [];
    } else {
      var n := |ops| - 1;
      systems, steps := BookAll(history[..n + 1], ops[..n]);
      var s := Outbox.System(history[n + 1], map[]);
      Outbox.StepOn(systems, steps, Outbox.Book(ops[n]), s);
      systems, steps := systems + [s], steps + [Outbox.Book(ops[n])];
    }
  }

  // A worker claims both events.
  lemma ClaimBoth(history: seq<Outbox.System>, steps: seq<Outbox.Step>)
    returns (history': seq<Outbox.System>, steps': seq<Outbox.Step>)
    requires Outbox.SystemRun(history, steps) && Outbox.Last(history).jobs == map[]
    requires Outbox.Last(history).t.events == FirstEvents()
    ensures Outbox.SystemRun(history', steps') && |steps'| == |steps| + 1
    ensures Outbox.Last(history').t == Outbox.Last(history).t.(events := Outbox.Last(history').t.events)
    ensures OwesReminder(Outbox.Last(history')) && !ReminderTheorems.Retried(Outbox.Last(history').t.events, 0, NOW)
  {
    var claim := Outbox.Claim(0, NOW, {}, [Reminder(), CreatedKey(0)]);
    ClaimsBoth(Outbox.Last(history), claim);
    var claimed := Outbox.After(Outbox.Last(history), claim);
    Outbox.StepOn(history, steps, claim, claimed);
    history', steps' := history + [claimed], steps + [claim];
  }

  function FirstEvents(): Events {
    map[CreatedKey(0) := NewEvent(None, NOW), Reminder() := NewEvent(Some(NOW), NOW)]
  }

  ghost predicate OwesReminder(s: Outbox.System) {
    && Outbox.OwedBy(s, Reminder(), 0, 0)
    && Reminder() in s.t.events && s.t.events[Reminder()].status == Processing
    && s.t.events[Reminder()].createdAt == NOW
  }

  lemma ClaimsBoth(s: Outbox.System, claim: Outbox.Step)
    requires s.jobs == map[] && claim == Outbox.Claim(0, NOW, {}, [Reminder(), CreatedKey(0)])
    requires s.t.events == FirstEvents()
    ensures Outbox.Enabled(s, claim)
    ensures var s' := Outbox.After(s, claim);
            && s'.t == s.t.(events := s'.t.events) && OwesReminder(s')
            && !ReminderTheorems.Retried(s'.t.events, 0, NOW)
  {}

  // It fails to send the reminder.
  lemma FailReminder(history: seq<Outbox.System>, steps: seq<Outbox.Step>)
    returns (history': seq<Outbox.System>, steps': seq<Outbox.Step>)
    requires Outbox.SystemRun(history, steps) && OwesReminder(Outbox.Last(history))
    ensures Outbox.SystemRun(history', steps')
    ensures history' == history + [Outbox.Last(history')] && steps' == steps + [Outbox.FirstMark(0, false)]
    ensures Outbox.Last(history').t == Outbox.Last(history).t.(events := Outbox.Last(history').t.events)
    ensures ReminderTheorems.RetriedAt(Outbox.Last(history').t.events, 0, NOW, Reminder())
  {
    var step := Outbox.FirstMark(0, false);
    var s := Outbox.After(Outbox.Last(history), step);
    Outbox.StepOn(history, steps, step, s);
    history', steps' := history + [s], steps + [step];
  }

  function Cancellation(): Op {
    OpCancel(0, 0, NOW, map[])
  }

  // The appointment is cancelled.
  lemma CancelIt(history: seq<Outbox.System>, steps: seq<Outbox.Step>)
    returns (history': seq<Outbox.System>, steps': seq<Outbox.Step>)
    requires Outbox.SystemRun(history, steps) && Outbox.Last(history).t.appts == map[0 := FirstRow()]
    requires Reminder() in Outbox.Last(history).t.events
    requires Outbox.Last(history).t.events[Reminder()].status != Pending
    ensures Outbox.SystemRun(history', steps') && Outbox.Last(history').jobs == Outbox.Last(history).jobs
    ensures history' == history + [Outbox.Last(history')] && steps' == steps + [Outbox.Book(Cancellation())]
    ensures IsCancelled(Outbox.Last(history').t) && Reminder() in Outbox.Last(history').t.events
    ensures Outbox.Last(history').t.events[Reminder()] == Outbox.Last(history).t.events[Reminder()]
  {
    Outbox.SystemRunKeeps(history, steps, |steps|);
    var s := Outbox.Last(history).(t := Next(Outbox.Last(history).t, Cancellation()));
    NextSound(Outbox.Last(history).t, Cancellation());
    ReminderTheorems.CancelRequeued(Outbox.Last(history).t, 0, 0, NOW, NOW, map[]);
    Outbox.StepOn(history, steps, Outbox.Book(Cancellation()), s);
    history', steps' := history + [s], steps + [Outbox.Book(Cancellation())];
  }

  ghost predicate IsCancelled(t: Tables) {
    0 in t.appts && t.appts[0].status == Cancelled
  }

  ghost predicate RemindsCancelled(s: Outbox.System) {
    IsCancelled(s.t) && PendingReminder(s.t.events, 0, Reminder())
  }

  lemma RequeueIt(history: seq<Outbox.System>, steps: seq<Outbox.Step>)
    returns (history': seq<Outbox.System>, steps': seq<Outbox.Step>)
    requires Outbox.SystemRun(history, steps) && IsCancelled(Outbox.Last(history).t)
    requires ReminderTheorems.RetriedAt(Outbox.Last(history).t.events, 0, NOW, Reminder())
    ensures Outbox.SystemRun(history', steps') && RemindsCancelled(Outbox.Last(history'))
    ensures history' == history + [Outbox.Last(history')] && steps' == steps + [Outbox.Requeue(NOW)]
  {
    var s := Outbox.After(Outbox.Last(history), Outbox.Requeue(NOW));
    Outbox.StepOn(history, steps, Outbox.Requeue(NOW), s);
    history', steps' := history + [s], steps + [Outbox.Requeue(NOW)];
  }

  // The materialised week, the booking, and both its events claimed.
  lemma FirstClaim() returns (history: seq<Outbox.System>, steps: seq<Outbox.Step>)
    ensures Outbox.SystemRun(history, steps) && |steps| == 3
    ensures Outbox.Last(history).t.appts == map[0 := FirstRow()] && OwesReminder(Outbox.Last(history))
    ensures !ReminderTheorems.Retried(Outbox.Last(history).t.events, 0, NOW)
  {
    var tables, ops, t, s := FirstTwo();
    history, steps := BookAll(tables, ops);
    history, steps := ClaimBoth(history, steps);
  }

  // The reminder is due as soon as the appointment is made; a worker claims it and fails to
  // send it; the appointment is cancelled; the next requeue makes the reminder pending again.
  lemma ReminderAfterCancel()
    ensures exists history, steps :: Outbox.SystemRun(history, steps) && RemindsCancelled(Outbox.Last(history))
  {
    var history, steps := FirstClaim();
    history, steps := FailReminder(history, steps);
    history, steps := CancelIt(history, steps);
    history, steps := RequeueIt(history, steps);
  }

  // The same when no reminder had failed by the time of the cancellation: the worker still has
  // it in hand, and fails only then.
  lemma ClaimedReminderAfterCancel()
    ensures exists history: seq<Outbox.System>, steps: seq<Outbox.Step> ::
              && Outbox.SystemRun(history, steps) && |steps| == 6 && steps[3] == Outbox.Book(Cancellation())
              && !ReminderTheorems.Retried(history[3].t.events, 0, NOW) && RemindsCancelled(Outbox.Last(history))
  {
    var history0, steps0 := FirstClaim();
    var history1, steps1 := CancelIt(history0, steps0);
    var history2, steps2 := FailReminder(history1, steps1);
    var history, steps := RequeueIt(history2, steps2);
    assert history[3] == history0[3] && steps[3] == steps1[3];
  }

  // ---- a stale page ----

  // The page takes its snapshot before the booking and the feed polls for the first time after
  // it: nothing is ever reported, and the page shows a booked slot as available.
  lemma StalePage(viewer: UserId)
    ensures exists history, ops, items, at, view, s ::
              && Run(history, ops) && SlotFeed.ReadFrom(history, viewer, items, at)
              && Stale(history, viewer, items, view, s)
  {
    var history, ops, t, s := FirstTwo();
    var items, at := [SlotFeed.Visible(t, viewer, s)], [2];
    var view := map[s := SlotFeed.Visible(history[1], viewer, s)];
    NothingReported(items);
    assert Run(history, ops) && SlotFeed.ReadFrom(history, viewer, items, at) && Stale(history, viewer, items, view, s);
  }

  lemma NothingReported(items: seq<SlotFeed.Payload>)
    requires |items| == 1
    ensures SlotFeed.News(items) == []
  {
    assert items[..0] == [] && SlotFeed.News(items[..0]) == [] && SlotFeed.Last(items[..0]) == map[];
  }

  ghost predicate Stale(
    history: seq<Tables>, viewer: UserId, items: seq<SlotFeed.Payload>, view: SlotFeed.View, s: SlotId)
  {
    && |items| == 1 && items[0].id == s && items[0].status == SlotStatus.Booked
    && s in view && SlotFeed.SeenAt(history, viewer, view[s], 1) && view[s].status == Available
    && SlotFeed.News(items) == []
    && s in SlotFeed.MergeAll(view, SlotFeed.News(items))
    && SlotFeed.MergeAll(view, SlotFeed.News(items))[s].version < items[0].version
  }

  // ---- a release against an override ----

  lemma {:induction false} Bounds(slots: Slots) returns (lo: int, hi: int)
    ensures lo < hi && forall s :: s in slots ==> Touches(slots[s], lo, hi)
    decreases |slots|
  {
    if slots == map[] {
      lo, hi := 0, 1;
    } else {
      var s :| s in slots;
      var rest := slots - {s};
      assert slots.Keys == rest.Keys + {s};
      lo, hi := Bounds(rest);
      lo, hi := Min(lo, slots[s].end - 1), Max(hi, slots[s].start + 1);
      forall x | x in slots ensures Touches(slots[x], lo, hi) {
        assert x != s ==> x in rest && rest[x] == slots[x];
      }
    }
  }

  ghost predicate Spoiled(t: Tables, t': Tables, s: SlotId) {
    && Inv(t) && AllUpToDate(t.slots, t.overrides)
    && s in t'.slots && t'.slots[s].status == Available
    && CoveredBy(t'.overrides, t'.slots[s], ForceUnavailable)
    && !AllUpToDate(t'.slots, t'.overrides)
  }

  // Two opposite overrides over the whole calendar, then a cancellation: every free slot was as
  // the overrides ask before, and the released slot is available although one forbids it.
  lemma ContestedRelease()
    ensures exists history, ops, s :: Run(history, ops) && |ops| == 5 && Spoiled(history[4], history[5], s)
  {
    var history, ops, t, s, lo, hi := Contested();
    SpoiledByCancel(t, s, lo, hi);
    var cancel := OpCancel(0, 0, NOW, map[s := Available]);
    var t' := CancelledTables(history, ops, t, cancel);
    assert Run(history + [t'], ops + [cancel]) && Spoiled((history + [t'])[4], (history + [t'])[5], s);
  }

  lemma CancelledTables(history: seq<Tables>, ops: seq<Op>, t: Tables, cancel: Op) returns (t': Tables)
    requires Run(history, ops) && t == history[|ops|] && WellFormed(cancel)
    ensures t' == Next(t, cancel) && Run(history + [t'], ops + [cancel])
  {
    t' := Next(t, cancel);
    RunOn(history, ops, cancel, t');
  }

  lemma Contested() returns (history: seq<Tables>, ops: seq<Op>, t: Tables, s: SlotId, lo: int, hi: int)
    ensures Run(history, ops) && |ops| == 4 && history[4] == t && Inv(t) && AllUpToDate(t.slots, t.overrides)
    ensures t.appts == map[0 := FirstRow()]
    ensures s in t.slots && t.slots[s].owner == Some(0) && At(t.slots[s], START)
    ensures lo <= START && START + SLOT <= hi
    ensures t.overrides == map[0 := Override(lo, hi, ForceUnavailable), 1 := Override(lo, hi, ForceAvailable)]
  {
    history, ops, t, s := FirstTwo();
    lo, hi := Bounds(t.slots);
    lo, hi := Min(lo, START), Max(hi, START + APPOINTMENT);
    history, ops, t := OverrideAll(history, ops, t, s, 0, Override(lo, hi, ForceUnavailable));
    history, ops, t := OverrideAll(history, ops, t, s, 1, Override(lo, hi, ForceAvailable));
    RunKeepsInv(history, ops, 4);
  }

  // One more override over every slot; the booked slot stays as it is.
  lemma OverrideAll(history: seq<Tables>, ops: seq<Op>, t: Tables, s: SlotId, id: OverrideId, o: Override)
    returns (history': seq<Tables>, ops': seq<Op>, t': Tables)
    requires Run(history, ops) && t == history[|ops|] && SlotsOk(t.slots) && id !in t.overrides && o.start < o.end
    requires forall x :: x in t.slots ==> Touches(t.slots[x], o.start, o.end)
    requires s in t.slots && t.slots[s].status == SlotStatus.Booked
    ensures |ops'| == |ops| + 1 && Run(history', ops') && t' == history'[|ops'|] && SlotsOk(t'.slots)
    ensures t'.appts == t.appts && t'.overrides == t.overrides[id := o] && AllUpToDate(t'.slots, t'.overrides)
    ensures s in t'.slots && t'.slots[s] == t.slots[s]
    ensures forall x :: x in t'.slots ==> Touches(t'.slots[x], o.start, o.end)
  {
    t' := CreateOverride(t, id, o).t;
    CreateOverrideKeepsUpToDate(t, id, o);
    RunOn(history, ops, OpCreateOverride(id, o), t');
    history', ops' := history + [t'], ops + [OpCreateOverride(id, o)];
    RunKeepsInv(history', ops', |ops'|);
  }

  lemma SpoiledByCancel(t: Tables, s: SlotId, lo: int, hi: int)
    requires Inv(t) && 0 in t.appts && t.appts[0] == FirstRow() && t.appts.Keys == {0}
    requires s in t.slots && t.slots[s].owner == Some(0) && At(t.slots[s], START)
    requires lo <= START && START + SLOT <= hi
    requires t.overrides == map[0 := Override(lo, hi, ForceUnavailable), 1 := Override(lo, hi, ForceAvailable)]
    ensures var t' := Next(t, OpCancel(0, 0, NOW, map[s := Available]));
            && t'.overrides == t.overrides && s in t'.slots && t'.slots[s].status == Available
            && CoveredBy(t'.overrides, t'.slots[s], ForceUnavailable)
            && !AllUpToDate(t'.slots, t'.overrides)
  {
    SweepOfNothing(t, NOW, Some(0));
    FreshKeys(t.appts, t.events, 0);
    var pick := map[s := Available];
    assert Covers(t.overrides[0], t.slots[s]) && Covers(t.overrides[1], t.slots[s]);
    var t' := Next(t, OpCancel(0, 0, NOW, pick));
    assert t'.slots == Released(t.slots, t.overrides, 0, pick);
    assert Covers(t'.overrides[0], t'.slots[s]);
    assert !UpToDate(t'.slots[s], t'.overrides);
  }

  // ---- an override that a release does not see ----

  function Request(s0: SlotId, s1: SlotId, s2: SlotId): RowLocks.Request {
    RowLocks.Creating(0, 0, 0, [s0, s1, s2], 0)
  }

  // The opening and the booking, lock by lock.
  lemma BookedByLocks() returns (t: Tables, s: SlotId)
    ensures LockAnswers.Reachable(RowLocks.System(t, map[])) && Inv(t)
    ensures 0 in t.appts && t.appts[0] == FirstRow() && t.overrides == map[]
    ensures s in t.slots && t.slots[s].owner == Some(0)
  {
    var t1, s0, s1, s2 := Opened();
    OpenedByLocks(t1);
    BookedAsOne(t1, s0, s1, s2);
    t, s := Entered(t1, 0, [s0, s1, s2], NOW, FirstRow()), s0;
    LockAnswers.CreationCommits(RowLocks.System(t1, map[]), 0, Request(s0, s1, s2), NOW);
    LockAnswers.ReachLed(RowLocks.System(t1, map[]), 0, RowLocks.System(t, map[]));
    LockAnswers.ReachableSound(RowLocks.System(t, map[]));
  }

  lemma OpenedByLocks(t1: Tables)
    requires t1 == Next(EMPTY, Opening())
    ensures LockAnswers.Reachable(RowLocks.System(t1, map[]))
  {
    LockAnswers.ReachStart();
    var step := RowLocks.Other(Opening());
    LockAnswers.ReachOn(RowLocks.START, step);
    assert RowLocks.After(RowLocks.START, step) == RowLocks.System(t1, map[]);
  }

  lemma BookedAsOne(t: Tables, s0: SlotId, s1: SlotId, s2: SlotId)
    requires t == EMPTY.(slots := t.slots) && SlotsOk(t.slots) && Bookable(t.slots, [s0, s1, s2], START, s0, s1, s2)
    ensures CreateSwept(t, 0, 0, 0, [s0, s1, s2], 0, NOW) == Committed(Entered(t, 0, [s0, s1, s2], NOW, FirstRow()))
  {
    SortedTriple(t.slots, [s0, s1, s2], START, s0, s1, s2);
    BookableValidates(t.slots, [s0, s1, s2], START, s0, s1, s2);
    assert ExceptionToSpend(t, 0, 0, NOW) == None;
    assert InsertViolations(t.appts, 0, 0, 0, None) == {};
  }

  // A slot is booked and its appointment is being cancelled, the slot already released as available;
  // an override forbids the slot and commits; then the cancellation commits. The slot is free
  // although nothing but that override covers it.
  lemma StaleRelease()
    ensures exists sys, s :: LockAnswers.Reachable(sys) && LockAnswers.FreeAgainst(sys.t, s)
  {
    var t, s := BookedByLocks();
    var sys := RowLocks.System(t, map[]);
    var ready := LockAnswers.CancelReady(sys, 0, RowLocks.Cancelling(0, false), NOW);
    var mid := RowLocks.With(sys, 0, ready);
    LockAnswers.ReachLed(sys, 0, mid);
    assert s in RowLocks.Owned(t.slots, 0) && ready.freed[s] == Available;
    LockAnswers.OverrideMisses(mid, 0, 0, 0, s);
    var o := Override(t.slots[s].start, t.slots[s].end, ForceUnavailable);
    var edit := RowLocks.Other(OpCreateOverride(0, o));
    LockAnswers.ReachOn(mid, edit);
    LockAnswers.ReachOn(RowLocks.After(mid, edit), RowLocks.Commit(0));
  }
}
