// The booking service over its database: each method is one transaction, issued
// statement by statement. A refusal rolls every statement back.
module BookingService {
  import opened Options
  import opened BookingTables
  import opened BookingStatements
  import opened BookingTransactions
  import opened BookingInvariants
  import opened BookingProofs

  datatype Reply = Accepted | Refused(code: Code)

  // How a transaction may answer, and what it leaves behind, for its outcome.
  ghost predicate Answers(out: Outcome, reply: Reply, before: Tables, after: Tables) {
    match out
    case Committed(t) => reply == Accepted && after == t
    case Aborted(codes) => reply.Refused? && reply.code in codes && after == before
  }

  // What the statements after the sweep answer; a refusal is not rolled back yet.
  ghost predicate Issues(out: Outcome, reply: Reply, after: Tables) {
    match out
    case Committed(t) => reply == Accepted && after == t
    case Aborted(codes) => reply.Refused? && reply.code in codes
  }

  class Database {
    var slots: Slots
    var appts: Appts
    var exceptions: Exceptions
    var overrides: Overrides
    var events: Events
    var companies: set<Fingerprint>

    function View(): Tables
      reads this
    {
      Tables(slots, appts, exceptions, overrides, events, companies)
    }

    ghost predicate Valid()
      reads this
    {
      Inv(View())
    }

    constructor ()
      ensures Valid() && View() == EMPTY
    {
      slots, appts, exceptions, overrides, events, companies := map[], map[], map[], map[], map[], {};
    }

    // ---- statements ----

    method Rollback(saved: Tables)
      modifies this
      ensures View() == saved
    {
      slots, appts, exceptions := saved.slots, saved.appts, saved.exceptions;
      overrides, events, companies := saved.overrides, saved.events, saved.companies;
    }

    // Afterwards nothing is expired: each such appointment is completed at its end and announced,
    // its pending reminders are withdrawn, and every other row is as it was.
    method CompleteExpired(now: int, user: Option<UserId>)
      modifies this`appts, this`events
      ensures View() == Sweep(old(View()), now, user)
      ensures appts.Keys == old(appts).Keys && forall a :: a in appts ==> !Expired(appts[a], now, user)
      ensures forall a :: a in appts && !Expired(old(appts)[a], now, user) ==> appts[a] == old(appts)[a]
      ensures forall a :: a in appts && Expired(old(appts)[a], now, user) ==>
                var was := old(appts)[a];
                appts[a] == was.(status := Completed, completedAt := Some(was.end), version := was.version + 1)
      ensures forall a :: a in appts && Expired(old(appts)[a], now, user) ==> CompletionKey(a) in events
      ensures forall k :: k in events && k !in old(events) ==>
                && k == CompletionKey(k.biz) && k.biz in appts && Expired(old(appts)[k.biz], now, user)
                && events[k] == EventRow(None, Pending, None, now)
      ensures forall k :: k in old(events) ==> k in events
      ensures forall k :: k in old(events) ==>
                var was := old(events)[k];
                var withdrawn := k.biz in appts && Expired(old(appts)[k.biz], now, user) && k.kind == ReminderDue
                  && was.status == Pending;
                events[k] == if withdrawn then EventRow(was.scheduled, Withdrawn, Some(now), was.createdAt) else was
    {
      events := SweptEvents(events, appts, now, user);
      appts := SweptAppts(appts, now, user);
    }

    method InsertEvent(key: EventKey, row: EventRow) returns (ok: bool)
      modifies this`events
      ensures ok == (key !in old(events))
      ensures ok ==> events == old(events)[key := row]
    {
      ok := key !in events;
      if ok {
        events := events[key := row];
      }
    }

    // One query and one update for each slot of the appointment; `pick` is what
    // the unordered queries happened to return.
    method ReleaseSlots(a: ApptId) returns (ghost pick: map<SlotId, SlotStatus>)
      modifies this`slots
      ensures slots == Released(old(slots), overrides, a, pick)
    {
      ghost var was := slots;
      pick := map[];
      var todo := set s | s in slots && slots[s].owner == Some(a);
      while todo != {}
        invariant todo <= was.Keys && forall s :: s in todo ==> was[s].owner == Some(a)
        invariant forall s :: s in pick ==> s !in todo && s in was && was[s].owner == Some(a)
        invariant forall s :: s in pick ==> pick[s] in ReleaseTargets(overrides, was[s])
        invariant forall s :: s in was && was[s].owner == Some(a) && s !in todo ==> s in pick
        invariant slots.Keys == was.Keys
        invariant forall s :: s in was ==> slots[s] == if s in pick then Bumped(was[s], pick[s], None) else was[s]
        decreases todo
      {
        var s :| s in todo;
        var row := slots[s];
        var covering := set o | o in overrides && Covers(overrides[o], row);
        var target := Available;
        if covering != {} {
          var o :| o in covering;
          if overrides[o].action == ForceUnavailable {
            target := Unavailable;
          }
          assert CoveredBy(overrides, row, overrides[o].action);
        } else {
          assert forall o :: o in overrides && Covers(overrides[o], row) ==> o in covering;
        }
        assert target in ReleaseTargets(overrides, was[s]);
        slots := slots[s := Bumped(row, target, None)];
        pick := pick[s := target];
        todo := todo - {s};
      }
      assert slots == Released(was, overrides, a, pick);
    }

    // One query and one update for each free slot that meets the window.
    method RematerializeWindow(lo: int, hi: int)
      modifies this`slots
      ensures slots == Rematerialized(old(slots), overrides, lo, hi)
    {
      ghost var was := slots;
      ghost var done: set<SlotId> := {};
      var todo := set s | s in slots && IsFree(slots[s]) && Touches(slots[s], lo, hi);
      ghost var all := todo;
      while todo != {}
        invariant todo + done == all && todo !! done
        invariant all == set s | s in was && IsFree(was[s]) && Touches(was[s], lo, hi)
        invariant slots.Keys == was.Keys
        invariant forall s :: s in was ==>
          slots[s] == if s in done then Bumped(was[s], FreeStatus(overrides, was[s]), was[s].owner) else was[s]
        decreases todo
      {
        var s :| s in todo;
        var row := slots[s];
        // The query puts force_unavailable first, so it is the answer whenever one covers the slot.
        var blocked := exists o ::
          o in overrides && overrides[o].action == ForceUnavailable && Covers(overrides[o], row);
        slots := slots[s := Bumped(row, if blocked then Unavailable else Available, row.owner)];
        done := done + {s};
        todo := todo - {s};
      }
      assert slots == Rematerialized(was, overrides, lo, hi);
    }

    method LockOpenException(user: UserId, company: Fingerprint, now: int) returns (exc: Option<ExcId>)
      ensures exc == ExceptionToSpend(View(), user, company, now)
    {
      exc := None;
      if ActiveAt(appts, company) {
        var usable := UsableExceptions(View(), user, company, now);
        if usable != {} {
          SmallestExists(usable);
          var e :| Smallest(e, usable);
          exc := Some(e);
        }
      }
    }

    // ---- booking ----

    method InsertAppointment(id: ApptId, ids: seq<SlotId>, now: int, row: ApptRow) returns (reply: Reply)
      requires row.exc.Some? ==> row.exc.value in exceptions
      modifies this
      ensures Issues(BookingTransactions.InsertAppointment(old(View()), id, ids, now, row), reply, View())
    {
      var bad := InsertViolations(appts, id, row.user, row.company, row.exc);
      if bad != {} {
        var reported :| reported in bad;
        return Refused(reported);
      }
      appts := appts[id := row];
      if row.exc.Some? {
        exceptions := exceptions[row.exc.value := exceptions[row.exc.value].(consumedAt := Some(now))];
      }
      slots := BookedFor(slots, ids, id);
      companies := companies + {row.company};
      var ok := InsertEvent(CreatedKey(id), NewEvent(None, now));
      if ok {
        ok := InsertEvent(FirstReminderKey(id), NewEvent(Some(row.start - REMINDER_LEAD), now));
      }
      reply := if ok then Accepted else Refused(Internal);
    }

    method CreateAfterSweep(id: ApptId, user: UserId, company: Fingerprint, ids: seq<SlotId>, details: nat, now: int)
      returns (reply: Reply)
      modifies this
      ensures Issues(CreateSwept(old(View()), id, user, company, ids, details, now), reply, View())
    {
      var exc := LockOpenException(user, company, now);
      var ord := InOrder(slots, ids);
      var code := Validate(slots, ord);
      if code.Some? {
        return Refused(code.value);
      }
      reply := InsertAppointment(id, ids, now, NewRow(user, company, exc, slots[ord[0]].start, details));
    }

    method Create(id: ApptId, user: UserId, company: Fingerprint, ids: seq<SlotId>, details: nat, now: int)
      returns (reply: Reply)
      requires Valid()
      modifies this
      ensures Valid()
      ensures Answers(BookingTransactions.Create(old(View()), id, user, company, ids, details, now), reply,
              old(View()), View())
    {
      var saved := View();
      CompleteExpired(now, None);
      reply := CreateAfterSweep(id, user, company, ids, details, now);
      if reply.Refused? {
        Rollback(saved);
      }
      CreateSound(saved, id, user, company, ids, details, now);
    }

    method WriteMove(
      a: ApptId, ids: seq<SlotId>, now: int, row: ApptRow) returns (ok: bool, ghost pick: map<SlotId, SlotStatus>)
      modifies this
      ensures ok <==> RescheduleKey(a, row.version) !in old(events) && ReminderKey(a, row.version) !in old(events)
      ensures ok ==> View() == Moved(old(View()), a, Released(old(slots), old(overrides), a, pick), ids, now, row)
    {
      pick := ReleaseSlots(a);
      slots := BookedFor(slots, ids, a);
      appts := appts[a := row];
      events := CancelReminders(events, a, now);
      ok := InsertEvent(RescheduleKey(a, row.version), NewEvent(None, now));
      if ok {
        ok := InsertEvent(ReminderKey(a, row.version), NewEvent(Some(row.start - REMINDER_LEAD), now));
      }
    }

    // Shared by the owner's and the administrator's reschedule.
    method MoveAppointment(
      a: ApptId, ids: seq<SlotId>, now: int) returns (reply: Reply, ghost pick: map<SlotId, SlotStatus>)
      requires a in appts
      modifies this
      ensures Issues(Reschedule(old(View()), a, ids, now, pick), reply, View())
    {
      pick := map[];
      var ord := InOrder(slots, ids);
      var code := Validate(slots, ord);
      if code.Some? {
        return Refused(code.value), pick;
      }
      var ok;
      ok, pick := WriteMove(a, ids, now, MovedRow(appts[a], slots[ord[0]].start));
      reply := if ok then Accepted else Refused(Internal);
    }

    method PatchAppointment(a: ApptId, details: nat, now: int) returns (reply: Reply)
      requires a in appts
      modifies this
      ensures Issues(Patch(old(View()), a, details, now), reply, View())
    {
      var row := PatchedRow(appts[a], details);
      appts := appts[a := row];
      var ok := InsertEvent(DetailsKey(a, row.version), NewEvent(None, now));
      reply := if ok then Accepted else Refused(Internal);
    }

    method UpdateAfterSweep(user: UserId, a: ApptId, version: nat, change: Change, now: int)
      returns (reply: Reply, ghost pick: map<SlotId, SlotStatus>)
      modifies this
      ensures Issues(UpdateSwept(old(View()), user, a, version, change, now, pick), reply, View())
    {
      pick := map[];
      if a !in appts {
        return Refused(NotFound), pick;
      }
      if appts[a].user != user {
        return Refused(PermDenied), pick;
      }
      if appts[a].status != Active {
        return Refused(TerminalState), pick;
      }
      if appts[a].version != version {
        return Refused(VersionConflict), pick;
      }
      match change {
        case NewSlots(ids) =>
          reply, pick := MoveAppointment(a, ids, now);
        case NewDetails(details) =>
          reply := PatchAppointment(a, details, now);
        case NoChange =>
          reply := Accepted;
      }
    }

    method Update(user: UserId, a: ApptId, version: nat, change: Change, now: int)
      returns (reply: Reply, ghost pick: map<SlotId, SlotStatus>)
      requires Valid()
      modifies this
      ensures Valid()
      ensures Answers(BookingTransactions.Update(old(View()), user, a, version, change, now, pick), reply,
              old(View()), View())
    {
      var saved := View();
      CompleteExpired(now, Some(user));
      reply, pick := UpdateAfterSweep(user, a, version, change, now);
      if reply.Refused? {
        Rollback(saved);
      }
      UpdateSound(saved, user, a, version, change, now, pick);
    }

    method AdminReschedule(
      a: ApptId, ids: seq<SlotId>, now: int) returns (reply: Reply, ghost pick: map<SlotId, SlotStatus>)
      requires Valid()
      modifies this
      ensures Valid()
      ensures Answers(BookingTransactions.AdminReschedule(old(View()), a, ids, now, pick), reply, old(View()), View())
    {
      pick := map[];
      var saved := View();
      if a !in appts {
        return Refused(NotFound), pick;
      }
      if appts[a].status != Active {
        return Refused(TerminalState), pick;
      }
      reply, pick := MoveAppointment(a, ids, now);
      if reply.Refused? {
        Rollback(saved);
      }
      AdminRescheduleSound(saved, a, ids, now, pick);
    }

    // The writes shared by both cancellations, once the slots are dealt with.
    method EndAppointment(a: ApptId, now: int) returns (reply: Reply)
      requires a in appts
      modifies this`appts, this`events
      ensures Issues(Terminate(old(View()), a, slots, now), reply, View())
    {
      appts := appts[a := CancelledRow(appts[a], now)];
      events := CancelReminders(events, a, now);
      var ok := InsertEvent(CancelKey(a), NewEvent(None, now));
      reply := if ok then Accepted else Refused(Internal);
    }

    method CancelAfterSweep(
      user: UserId, a: ApptId, now: int) returns (reply: Reply, ghost pick: map<SlotId, SlotStatus>)
      modifies this
      ensures Issues(CancelSwept(old(View()), user, a, now, pick), reply, View())
    {
      pick := map[];
      if a !in appts {
        return Refused(NotFound), pick;
      }
      if appts[a].user != user {
        return Refused(PermDenied), pick;
      }
      if appts[a].status == Cancelled {
        return Accepted, pick;
      }
      if appts[a].status == Completed {
        return Refused(TerminalState), pick;
      }
      pick := ReleaseSlots(a);
      reply := EndAppointment(a, now);
    }

    method Cancel(user: UserId, a: ApptId, now: int) returns (reply: Reply, ghost pick: map<SlotId, SlotStatus>)
      requires Valid()
      modifies this
      ensures Valid()
      ensures Answers(BookingTransactions.Cancel(old(View()), user, a, now, pick), reply, old(View()), View())
    {
      var saved := View();
      CompleteExpired(now, Some(user));
      reply, pick := CancelAfterSweep(user, a, now);
      if reply.Refused? {
        Rollback(saved);
      }
      CancelSound(saved, user, a, now, pick);
    }

    method ForceCancelAfterSweep(a: ApptId, now: int) returns (reply: Reply)
      modifies this
      ensures Issues(ForceCancelSwept(old(View()), a, now), reply, View())
    {
      if a !in appts {
        return Refused(NotFound);
      }
      if appts[a].status == Cancelled {
        return Accepted;
      }
      if appts[a].status == Completed {
        return Refused(TerminalState);
      }
      slots := HardLocked(slots, a);
      reply := EndAppointment(a, now);
    }

    method ForceCancel(a: ApptId, now: int) returns (reply: Reply)
      requires Valid()
      modifies this
      ensures Valid()
      ensures Answers(BookingTransactions.ForceCancel(old(View()), a, now), reply, old(View()), View())
    {
      var saved := View();
      CompleteExpired(now, None);
      reply := ForceCancelAfterSweep(a, now);
      if reply.Refused? {
        Rollback(saved);
      }
      ForceCancelSound(saved, a, now);
    }

    // The sweep on its own, as the listings run it before they read.
    method SweepExpired(now: int, only: Option<UserId>)
      requires Valid()
      modifies this
      ensures Valid()
      ensures View() == Sweep(old(View()), now, only)
    {
      SweepKeepsInv(View(), now, only);
      CompleteExpired(now, only);
    }

    // ---- administration ----

    method CreateOverride(id: OverrideId, o: Override) returns (reply: Reply)
      requires Valid()
      modifies this
      ensures Valid()
      ensures Answers(BookingTransactions.CreateOverride(old(View()), id, o), reply, old(View()), View())
    {
      CreateOverrideSound(View(), id, o);
      if o.end <= o.start {
        return Refused(InvalidRequest);
      }
      if id in overrides {
        return Refused(Internal);
      }
      overrides := overrides[id := o];
      RematerializeWindow(o.start, o.end);
      reply := Accepted;
    }

    method UpdateOverride(id: OverrideId, o: Override) returns (reply: Reply)
      requires Valid()
      modifies this
      ensures Valid()
      ensures Answers(BookingTransactions.UpdateOverride(old(View()), id, o), reply, old(View()), View())
    {
      UpdateOverrideSound(View(), id, o);
      if o.end <= o.start {
        return Refused(InvalidRequest);
      }
      if id !in overrides {
        return Refused(NotFound);
      }
      var was := overrides[id];
      overrides := overrides[id := o];
      RematerializeWindow(Min(was.start, o.start), Max(was.end, o.end));
      reply := Accepted;
    }

    method DeleteOverride(id: OverrideId) returns (reply: Reply)
      requires Valid()
      modifies this
      ensures Valid()
      ensures Answers(BookingTransactions.DeleteOverride(old(View()), id), reply, old(View()), View())
    {
      DeleteOverrideSound(View(), id);
      if id !in overrides {
        return Refused(NotFound);
      }
      var was := overrides[id];
      overrides := overrides - {id};
      RematerializeWindow(was.start, was.end);
      reply := Accepted;
    }

    method CreateCompanyException(id: ExcId, user: UserId, company: Fingerprint, expiresAt: int, now: int)
      returns (reply: Reply)
      requires Valid()
      modifies this
      ensures Valid()
      ensures Answers(CreateException(old(View()), id, user, company, expiresAt, now), reply, old(View()), View())
    {
      CreateExceptionSound(View(), id, user, company, expiresAt, now);
      if expiresAt <= now {
        return Refused(InvalidRequest);
      }
      if id in exceptions {
        return Refused(Internal);
      }
      if HasOpen(exceptions, user, company) {
        return Refused(DupException);
      }
      exceptions := exceptions[id := ExcRow(user, company, expiresAt, None, None)];
      reply := Accepted;
    }

    // ---- the calendar ----

    // A slot of that half hour takes the row's status unless it is pinned, with a version step if
    // that is a change; without one, the row becomes a slot if its id is free. No other slot changes.
    method UpsertSlot(row: CalendarRow) returns (ok: bool)
      modifies this`slots
      ensures ok == Upsert(old(slots), row).Some?
      ensures ok ==> slots == Upsert(old(slots), row).value
      ensures !ok ==> slots == old(slots)
      ensures ok <==> row.id !in old(slots) || exists s :: s in old(slots) && At(old(slots)[s], row.start)
      ensures forall s :: s in old(slots) ==> s in slots
      ensures forall s :: s in old(slots) && (!At(old(slots)[s], row.start) || Pinned(old(slots)[s])) ==>
                slots[s] == old(slots)[s]
      ensures ok ==> forall s :: s in old(slots) && At(old(slots)[s], row.start) && !Pinned(old(slots)[s]) ==>
                var was := old(slots)[s];
                slots[s] == SlotRow(was.start, was.end, row.status, was.owner,
                                    if was.status == row.status then was.version else was.version + 1)
      ensures forall s :: s in slots && s !in old(slots) ==>
                s == row.id && slots[s] == SlotRow(row.start, row.start + SLOT, row.status, None, 1)
      ensures ok ==> exists s :: s in slots && At(slots[s], row.start)
    {
      var m := Upsert(slots, row);
      ok := m.Some?;
      if ok {
        assert row.id in m.value && row.id !in slots ==> At(m.value[row.id], row.start);
        assert forall s :: s in slots && At(slots[s], row.start) ==> At(m.value[s], row.start);
        slots := m.value;
      }
    }

    // The slots of the d-th day of the window.
    method UpsertDay(
      firstDay: int, weeks: nat, d: nat, today: int, calendar: Calendar, ids: seq<SlotId>, ghost was: Slots)
      returns (ok: bool)
      requires |ids| == weeks * 7 * SLOT_COUNT && d < weeks * 7
      requires UpsertAll(was, WeekRows(overrides, firstDay, weeks, today, calendar, ids)[..d * SLOT_COUNT]) ==
               Some(slots)
      modifies this`slots
      ensures var rows := WeekRows(overrides, firstDay, weeks, today, calendar, ids);
              if ok then UpsertAll(was, rows[..(d + 1) * SLOT_COUNT]) == Some(slots) else UpsertAll(was, rows) == None
    {
      ghost var rows := WeekRows(overrides, firstDay, weeks, today, calendar, ids);
      CalendarIndex(d, 0, weeks);
      CalendarIndex(d, SLOT_COUNT - 1, weeks);
      var window := WindowOverrides(overrides, Midnight(firstDay), Midnight(firstDay + weeks * 7));
      for k := 0 to SLOT_COUNT
        invariant d * SLOT_COUNT + k <= |rows| && UpsertAll(was, rows[..d * SLOT_COUNT + k]) == Some(slots)
      {
        WeekRowAt(overrides, firstDay, weeks, today, calendar, ids, d, k);
        var n := d * SLOT_COUNT + k;
        var row := CalendarRow(ids[n], SlotStart(firstDay + d, k),
          CalendarStatus(firstDay + d, k, today, calendar, window));
        UpsertNext(was, rows, n);
        ok := UpsertSlot(row);
        if !ok {
          UpsertAllFails(was, rows, n + 1);
          return;
        }
      }
      ok := true;
    }

    method UpsertCalendar(
      firstDay: int, weeks: nat, today: int, calendar: Calendar, ids: seq<SlotId>) returns (ok: bool)
      requires |ids| == weeks * 7 * SLOT_COUNT
      modifies this`slots
      ensures var m := UpsertAll(old(slots), WeekRows(overrides, firstDay, weeks, today, calendar, ids));
              ok == m.Some? && (ok ==> slots == m.value)
    {
      ghost var was := slots;
      ghost var rows := WeekRows(overrides, firstDay, weeks, today, calendar, ids);
      for d := 0 to weeks * 7
        invariant UpsertAll(was, rows[..d * SLOT_COUNT]) == Some(slots)
      {
        ok := UpsertDay(firstDay, weeks, d, today, calendar, ids, was);
        if !ok {
          return;
        }
      }
      assert rows[..weeks * 7 * SLOT_COUNT] == rows;
      ok := true;
    }

    method MaterializeSlots(startDay: int, weeks: int, today: int, calendar: Calendar, ids: seq<SlotId>, now: int)
      returns (reply: Reply)
      requires Valid()
      requires 1 <= weeks <= 53 ==> |ids| == weeks * 7 * SLOT_COUNT
      modifies this
      ensures Valid()
      ensures Answers(Materialize(old(View()), startDay, weeks, today, calendar, ids, now), reply, old(View()), View())
    {
      var saved := View();
      if weeks < 1 || weeks > 53 {
        return Refused(InvalidRequest);
      }
      CompleteExpired(now, None);
      var ok := UpsertCalendar(FirstDay(startDay), weeks, today, calendar, ids);
      if !ok {
        Rollback(saved);
      }
      reply := if ok then Accepted else Refused(Internal);
      MaterializeSound(saved, startDay, weeks, today, calendar, ids, now);
    }
  }

  lemma WeekRowAt(
    overrides: Overrides, firstDay: int, weeks: nat, today: int, calendar: Calendar, ids: seq<SlotId>, d: nat, k: nat)
    requires |ids| == weeks * 7 * SLOT_COUNT && d < weeks * 7 && k < SLOT_COUNT
    ensures d * SLOT_COUNT + k < |ids|
    ensures WeekRows(overrides, firstDay, weeks, today, calendar, ids)[d * SLOT_COUNT + k] ==
            CalendarRow(ids[d * SLOT_COUNT + k], SlotStart(firstDay + d, k),
              CalendarStatus(firstDay + d, k, today, calendar,
                             WindowOverrides(overrides, Midnight(firstDay), Midnight(firstDay + weeks * 7))))
  {
    CalendarIndex(d, k, weeks);
  }

  lemma UpsertNext(slots: Slots, rows: seq<CalendarRow>, n: nat)
    requires n < |rows| && UpsertAll(slots, rows[..n]).Some?
    ensures UpsertAll(slots, rows[..n + 1]) == Upsert(UpsertAll(slots, rows[..n]).value, rows[n])
  {
    assert rows[..n + 1][..n] == rows[..n];
  }

  // Once an upsert has failed, so does every longer batch.
  lemma {:induction false} UpsertAllFails(slots: Slots, rows: seq<CalendarRow>, n: nat)
    requires n <= |rows| && UpsertAll(slots, rows[..n]) == None
    ensures UpsertAll(slots, rows) == None
    decreases |rows|
  {
    if n < |rows| {
      var last := |rows| - 1;
      assert rows[..last][..n] == rows[..n];
      UpsertAllFails(slots, rows[..last], n);
    } else {
      assert rows[..n] == rows;
    }
  }
}
