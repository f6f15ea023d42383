// Overrides, release and materialisation: when the status of the free slots is
// the one that the overrides, or the calendar, ask for.
module AvailabilityTheorems {
  import opened Options
  import opened BookingTables
  import opened BookingStatements
  import opened BookingTransactions
  import opened BookingInvariants
  import opened BookingProofs
  import opened BookingTheorems

  ghost predicate UpToDate(r: SlotRow, overrides: Overrides) {
    IsFree(r) ==> r.status == FreeStatus(overrides, r)
  }

  // Every free slot is unavailable exactly when some force_unavailable covers it.
  ghost predicate AllUpToDate(slots: Slots, overrides: Overrides) {
    forall s :: s in slots ==> UpToDate(slots[s], overrides)
  }

  // ---- editing one override ----

  // The edit changes coverage only inside the window that is recomputed.
  ghost predicate SameOutside(slots: Slots, before: Overrides, after: Overrides, lo: int, hi: int) {
    forall s :: s in slots && !Touches(slots[s], lo, hi) ==>
      FreeStatus(after, slots[s]) == FreeStatus(before, slots[s])
  }

  lemma EditIsLocal(slots: Slots, before: Overrides, after: Overrides, id: OverrideId, lo: int, hi: int)
    requires SlotsOk(slots)
    requires before - {id} == after - {id}
    requires id in before ==> lo <= before[id].start && before[id].end <= hi
    requires id in after ==> lo <= after[id].start && after[id].end <= hi
    ensures SameOutside(slots, before, after, lo, hi)
  {
    forall s | s in slots && !Touches(slots[s], lo, hi)
      ensures FreeStatus(after, slots[s]) == FreeStatus(before, slots[s])
    {
      var r := slots[s];
      assert SlotOk(r);
      forall o, x: Overrides, y: Overrides | x - {id} == y - {id} && o in x && o != id ensures o in y && x[o] == y[o] {
        assert o in x - {id};
        assert (x - {id})[o] == (y - {id})[o];
      }
      assert forall o :: o in before && o != id ==> o in after && after[o] == before[o];
      assert forall o :: o in after && o != id ==> o in before && before[o] == after[o];
    }
  }

  // Recomputing the window brings everything up to date exactly when the free
  // slots outside it were up to date before.
  lemma WindowRecomputeIff(slots: Slots, before: Overrides, after: Overrides, lo: int, hi: int)
    requires SameOutside(slots, before, after, lo, hi)
    ensures AllUpToDate(Rematerialized(slots, after, lo, hi), after) <==>
              (forall s :: s in slots && !Touches(slots[s], lo, hi) ==> UpToDate(slots[s], before))
  {
    var slots' := Rematerialized(slots, after, lo, hi);
    forall s | s in slots && !Touches(slots[s], lo, hi)
      ensures UpToDate(slots'[s], after) <==> UpToDate(slots[s], before)
    {}
    forall s | s in slots && Touches(slots[s], lo, hi) ensures UpToDate(slots'[s], after) {
      CoverageReadsTimes(after, slots[s], slots'[s]);
    }
  }

  lemma CoverageReadsTimes(overrides: Overrides, r: SlotRow, r': SlotRow)
    requires r'.start == r.start && r'.end == r.end
    ensures FreeStatus(overrides, r') == FreeStatus(overrides, r)
    ensures ReleaseTargets(overrides, r') == ReleaseTargets(overrides, r)
    ensures forall action :: CoveredBy(overrides, r', action) <==> CoveredBy(overrides, r, action)
  {
    assert forall o :: Covers(o, r') <==> Covers(o, r);
    assert forall action :: CoveredBy(overrides, r', action) <==> CoveredBy(overrides, r, action);
  }

  lemma CreateOverrideKeepsUpToDate(t: Tables, id: OverrideId, o: Override)
    requires SlotsOk(t.slots) && CreateOverride(t, id, o).Committed?
    ensures var t' := CreateOverride(t, id, o).t;
            AllUpToDate(t'.slots, t'.overrides) <==>
              (forall s :: s in t.slots && !Touches(t.slots[s], o.start, o.end) ==> UpToDate(t.slots[s], t.overrides))
  {
    EditIsLocal(t.slots, t.overrides, t.overrides[id := o], id, o.start, o.end);
    WindowRecomputeIff(t.slots, t.overrides, t.overrides[id := o], o.start, o.end);
  }

  lemma UpdateOverrideKeepsUpToDate(t: Tables, id: OverrideId, o: Override)
    requires SlotsOk(t.slots) && UpdateOverride(t, id, o).Committed?
    ensures var t' := UpdateOverride(t, id, o).t;
            var lo, hi := Min(t.overrides[id].start, o.start), Max(t.overrides[id].end, o.end);
            AllUpToDate(t'.slots, t'.overrides) <==>
              (forall s :: s in t.slots && !Touches(t.slots[s], lo, hi) ==> UpToDate(t.slots[s], t.overrides))
  {
    var lo, hi := Min(t.overrides[id].start, o.start), Max(t.overrides[id].end, o.end);
    EditIsLocal(t.slots, t.overrides, t.overrides[id := o], id, lo, hi);
    WindowRecomputeIff(t.slots, t.overrides, t.overrides[id := o], lo, hi);
  }

  lemma DeleteOverrideKeepsUpToDate(t: Tables, id: OverrideId)
    requires SlotsOk(t.slots) && DeleteOverride(t, id).Committed?
    ensures var t' := DeleteOverride(t, id).t;
            var was := t.overrides[id];
            AllUpToDate(t'.slots, t'.overrides) <==>
              (forall s :: s in t.slots && !Touches(t.slots[s], was.start, was.end) ==>
                UpToDate(t.slots[s], t.overrides))
  {
    var was := t.overrides[id];
    EditIsLocal(t.slots, t.overrides, t.overrides - {id}, id, was.start, was.end);
    WindowRecomputeIff(t.slots, t.overrides, t.overrides - {id}, was.start, was.end);
  }

  // ---- release ----

  ghost predicate Contested(overrides: Overrides, r: SlotRow) {
    CoveredBy(overrides, r, ForceUnavailable) && CoveredBy(overrides, r, ForceAvailable)
  }

  ghost predicate ReleasedUpToDate(slots: Slots, overrides: Overrides, a: ApptId, pick: map<SlotId, SlotStatus>) {
    forall s :: s in slots && slots[s].owner == Some(a) ==>
      UpToDate(Released(slots, overrides, a, pick)[s], overrides)
  }

  ghost predicate Uncontested(slots: Slots, overrides: Overrides, a: ApptId) {
    forall s :: s in slots && slots[s].owner == Some(a) ==> !Contested(overrides, slots[s])
  }

  // The release query has no order: the released slots are as the overrides ask, whatever comes
  // back, exactly when none of them has opposite covering overrides.
  lemma ReleaseUpToDateIff(slots: Slots, overrides: Overrides, a: ApptId)
    ensures (forall pick :: ReleasedUpToDate(slots, overrides, a, pick)) <==> Uncontested(slots, overrides, a)
  {
    if Uncontested(slots, overrides, a) {
      forall pick ensures ReleasedUpToDate(slots, overrides, a, pick) {
        ReleaseUncontested(slots, overrides, a, pick);
      }
    } else {
      var s :| s in slots && slots[s].owner == Some(a) && Contested(overrides, slots[s]);
      var pick := map[s := Available];
      var slots' := Released(slots, overrides, a, pick);
      CoverageReadsTimes(overrides, slots[s], slots'[s]);
      assert !UpToDate(slots'[s], overrides);
      assert !ReleasedUpToDate(slots, overrides, a, pick);
    }
  }

  lemma ReleaseUncontested(slots: Slots, overrides: Overrides, a: ApptId, pick: map<SlotId, SlotStatus>)
    requires Uncontested(slots, overrides, a)
    ensures ReleasedUpToDate(slots, overrides, a, pick)
  {
    var slots' := Released(slots, overrides, a, pick);
    forall s | s in slots && slots[s].owner == Some(a) ensures UpToDate(slots'[s], overrides) {
      CoverageReadsTimes(overrides, slots[s], slots'[s]);
    }
  }

  ghost predicate OthersUpToDate(slots: Slots, overrides: Overrides, a: ApptId) {
    forall s :: s in slots && slots[s].owner != Some(a) ==> UpToDate(slots[s], overrides)
  }

  // And the whole table is then up to date exactly when its other slots were before, too.
  lemma ReleaseKeepsUpToDateIff(slots: Slots, overrides: Overrides, a: ApptId)
    ensures (forall pick :: AllUpToDate(Released(slots, overrides, a, pick), overrides)) <==>
              Uncontested(slots, overrides, a) && OthersUpToDate(slots, overrides, a)
  {
    ReleaseUpToDateIff(slots, overrides, a);
    if Uncontested(slots, overrides, a) && OthersUpToDate(slots, overrides, a) {
      forall pick ensures AllUpToDate(Released(slots, overrides, a, pick), overrides) {
        TableAfterRelease(slots, overrides, a, pick);
      }
    } else if OthersUpToDate(slots, overrides, a) {
      var pick :| !ReleasedUpToDate(slots, overrides, a, pick);
      TableAfterRelease(slots, overrides, a, pick);
      assert !AllUpToDate(Released(slots, overrides, a, pick), overrides);
    } else {
      TableAfterRelease(slots, overrides, a, map[]);
      assert !AllUpToDate(Released(slots, overrides, a, map[]), overrides);
    }
  }

  lemma TableAfterRelease(slots: Slots, overrides: Overrides, a: ApptId, pick: map<SlotId, SlotStatus>)
    ensures AllUpToDate(Released(slots, overrides, a, pick), overrides) <==>
              ReleasedUpToDate(slots, overrides, a, pick) && OthersUpToDate(slots, overrides, a)
  {
    var slots' := Released(slots, overrides, a, pick);
    assert forall s :: s in slots && slots[s].owner != Some(a) ==> slots'[s] == slots[s];
  }

  ghost predicate Restored(slots: Slots, overrides: Overrides, ids: seq<SlotId>, a: ApptId,
                           pick: map<SlotId, SlotStatus>)
  {
    Released(BookedFor(slots, ids, a), overrides, a, pick) ==
    map s | s in slots :: if s in ids then slots[s].(version := slots[s].version + 2) else slots[s]
  }

  // Cancelling a booking just made gives back exactly the availability there was, whatever the
  // query returns, exactly when the three booked slots were as the overrides ask.
  lemma CancelUndoesCreateIff(slots: Slots, overrides: Overrides, ids: seq<SlotId>, a: ApptId,
                              start: int, s0: SlotId, s1: SlotId, s2: SlotId)
    requires OwnsNone(slots, a) && SlotsOk(slots) && Bookable(slots, ids, start, s0, s1, s2)
    ensures (forall pick :: Restored(slots, overrides, ids, a, pick)) <==>
              UpToDate(slots[s0], overrides) && UpToDate(slots[s1], overrides) && UpToDate(slots[s2], overrides)
  {
    forall s | s in ids && s in slots ensures slots[s].status == Available && slots[s].owner == None {
      assert SlotOk(slots[s]);
    }
    if forall s :: s in ids && s in slots ==> UpToDate(slots[s], overrides) {
      forall pick ensures Restored(slots, overrides, ids, a, pick) {
        BookingUndone(slots, overrides, ids, a, pick);
      }
    } else {
      var s :| s in ids && s in slots && !UpToDate(slots[s], overrides);
      var pick := map[s := Unavailable];
      var mid := BookedFor(slots, ids, a);
      CoverageReadsTimes(overrides, slots[s], mid[s]);
      assert Released(mid, overrides, a, pick)[s].status == Unavailable;
      assert !Restored(slots, overrides, ids, a, pick);
    }
  }

  lemma BookingUndone(slots: Slots, overrides: Overrides, ids: seq<SlotId>, a: ApptId, pick: map<SlotId, SlotStatus>)
    requires OwnsNone(slots, a)
    requires forall s :: s in ids && s in slots ==>
               slots[s].status == Available && slots[s].owner == None && UpToDate(slots[s], overrides)
    ensures Restored(slots, overrides, ids, a, pick)
  {
    var mid := BookedFor(slots, ids, a);
    forall s | s in ids && s in slots ensures ReleaseStatus(overrides, mid[s], s, pick) == Available {
      CoverageReadsTimes(overrides, slots[s], mid[s]);
    }
  }

  // ---- an override that comes and goes ----

  ghost predicate SameStatuses(slots: Slots, slots': Slots) {
    slots'.Keys == slots.Keys && forall s :: s in slots ==> slots'[s].status == slots[s].status
  }

  function CameAndWent(t: Tables, id: OverrideId, o: Override): Tables
    requires id !in t.overrides && o.start < o.end
  {
    DeleteOverride(CreateOverride(t, id, o).t, id).t
  }

  // One slot afterwards: recomputed from the overrides alone if it is free and was touched.
  lemma SlotAfterwards(t: Tables, id: OverrideId, o: Override, s: SlotId)
    requires id !in t.overrides && o.start < o.end && s in t.slots
    ensures var t' := CameAndWent(t, id, o);
            && t'.overrides == t.overrides && s in t'.slots
            && t'.slots[s].status == (if IsFree(t.slots[s]) && Touches(t.slots[s], o.start, o.end)
                                      then FreeStatus(t.overrides, t.slots[s]) else t.slots[s].status)
  {
    var t1 := CreateOverride(t, id, o).t;
    assert t1.overrides - {id} == t.overrides;
    CoverageReadsTimes(t.overrides, t.slots[s], t1.slots[s]);
  }

  // Adding an override and deleting it again restores the status of every slot exactly when
  // each free slot in its window had the status that the other overrides ask for.
  lemma CameAndWentIff(t: Tables, id: OverrideId, o: Override)
    requires id !in t.overrides && o.start < o.end
    ensures CreateOverride(t, id, o).Committed? && DeleteOverride(CreateOverride(t, id, o).t, id).Committed?
    ensures SameStatuses(t.slots, CameAndWent(t, id, o).slots) <==>
              (forall s :: s in t.slots && Touches(t.slots[s], o.start, o.end) ==> UpToDate(t.slots[s], t.overrides))
  {
    forall s | s in t.slots
      ensures CameAndWent(t, id, o).slots[s].status == t.slots[s].status <==>
                (Touches(t.slots[s], o.start, o.end) ==> UpToDate(t.slots[s], t.overrides))
    {
      SlotAfterwards(t, id, o, s);
    }
  }

  ghost predicate Covered(overrides: Overrides, r: SlotRow) {
    exists o :: o in overrides && Covers(overrides[o], r)
  }

  // A recomputed free slot has its calendar status exactly when an override covers it or the
  // calendar itself makes it available.
  lemma RecomputedCalendarIff(slots: Slots, overrides: Overrides, lo: int, hi: int, s: SlotId,
                              day: int, k: nat, today: int, calendar: Calendar)
    requires s in slots && IsFree(slots[s]) && At(slots[s], SlotStart(day, k)) && Touches(slots[s], lo, hi)
    ensures Rematerialized(slots, overrides, lo, hi)[s].status ==
            CalendarStatus(day, k, today, calendar, overrides) <==>
              Covered(overrides, slots[s]) || BaseAvailable(day, SlotMinute(k), today, calendar)
  {
    var r := SlotRow(SlotStart(day, k), SlotStart(day, k) + SLOT, Available, None, 0);
    CoverageReadsTimes(overrides, r, slots[s]);
    if Covered(overrides, slots[s]) {
      var c :| c in overrides && Covers(overrides[c], slots[s]);
      assert CoveredBy(overrides, slots[s], overrides[c].action);
      assert overrides[c].action == ForceUnavailable || overrides[c].action == ForceAvailable;
    }
  }

  predicate IsEdit(op: Op) {
    op.OpCreateOverride? || op.OpUpdateOverride? || op.OpDeleteOverride?
  }

  // The window that a committed edit recomputes.
  ghost function EditWindow(t: Tables, op: Op): (w: (int, int))
    requires IsEdit(op) && Execute(t, op).Committed?
  {
    match op
    case OpCreateOverride(_, o) => (o.start, o.end)
    case OpUpdateOverride(oid, o) => (Min(t.overrides[oid].start, o.start), Max(t.overrides[oid].end, o.end))
    case OpDeleteOverride(oid) => (t.overrides[oid].start, t.overrides[oid].end)
  }

  // Whichever edit it is: a free slot in its window afterwards has the calendar's status under
  // the overrides there now are exactly when one of them covers it or the calendar offers it.
  lemma EditKeepsCalendarIff(t: Tables, op: Op, s: SlotId, day: int, k: nat, today: int, calendar: Calendar)
    requires IsEdit(op) && Execute(t, op).Committed? && s in t.slots
    requires IsFree(t.slots[s]) && At(t.slots[s], SlotStart(day, k))
    requires Touches(t.slots[s], EditWindow(t, op).0, EditWindow(t, op).1)
    ensures var t' := Next(t, op);
            && s in t'.slots
            && (t'.slots[s].status == CalendarStatus(day, k, today, calendar, t'.overrides) <==>
                  Covered(t'.overrides, t.slots[s]) || BaseAvailable(day, SlotMinute(k), today, calendar))
  {
    var w := EditWindow(t, op);
    RecomputedCalendarIff(t.slots, Next(t, op).overrides, w.0, w.1, s, day, k, today, calendar);
  }

  // The same for adding an override and deleting it again.
  lemma CalendarSlotKeptIff(
    t: Tables, id: OverrideId, o: Override, s: SlotId, day: int, k: nat, today: int, calendar: Calendar)
    requires id !in t.overrides && o.start < o.end && s in t.slots
    requires IsFree(t.slots[s]) && At(t.slots[s], SlotStart(day, k)) && Touches(t.slots[s], o.start, o.end)
    ensures s in CameAndWent(t, id, o).slots
    ensures CameAndWent(t, id, o).slots[s].status == CalendarStatus(day, k, today, calendar, t.overrides) <==>
              Covered(t.overrides, t.slots[s]) || BaseAvailable(day, SlotMinute(k), today, calendar)
  {
    SlotAfterwards(t, id, o, s);
    RecomputedCalendarIff(t.slots, t.overrides, o.start, o.end, s, day, k, today, calendar);
  }

  // One edit is enough: whatever it asks for, an override that meets a free half hour but does
  // not cover it makes it available, if no other override covers it.
  lemma PartialOverrideOpens(t: Tables, id: OverrideId, o: Override, s: SlotId)
    requires id !in t.overrides && o.start < o.end && s in t.slots && IsFree(t.slots[s])
    requires Touches(t.slots[s], o.start, o.end) && !Covers(o, t.slots[s]) && !Covered(t.overrides, t.slots[s])
    ensures var t' := Next(t, OpCreateOverride(id, o));
            s in t'.slots && t'.slots[s].status == Available
  {
    var overrides := t.overrides[id := o];
    forall action ensures !CoveredBy(overrides, t.slots[s], action) {}
  }

  // A run that does it: the weeks are materialised, then an override over one half hour of a
  // day on which the calendar offers nothing is added and deleted.
  lemma HolidayForgotten(startDay: int, weeks: int, today: int, calendar: Calendar, ids: seq<SlotId>, now: int,
                         day: int, k: nat, id: OverrideId, action: Action)
    requires 1 <= weeks <= 53 && |ids| == weeks * 7 * SLOT_COUNT && FreshIds(map[], ids)
    requires FirstDay(startDay) <= day < FirstDay(startDay) + weeks * 7 && k < SLOT_COUNT
    requires day in calendar.holidays && day !in calendar.adjustedWorkdays
    ensures var o := Override(SlotStart(day, k), SlotStart(day, k) + SLOT, action);
            var ops := [OpMaterialize(startDay, weeks, today, calendar, ids, now), OpCreateOverride(id, o),
              OpDeleteOverride(id)];
            exists history, s :: Run(history, ops) && Forgotten(history, s, SlotStart(day, k))
  {
    var o := Override(SlotStart(day, k), SlotStart(day, k) + SLOT, action);
    var first := OpMaterialize(startDay, weeks, today, calendar, ids, now);
    var ops := [first, OpCreateOverride(id, o), OpDeleteOverride(id)];
    var t1, s := HolidayMade(startDay, weeks, today, calendar, ids, now, day, k);
    var t2 := Next(t1, ops[1]);
    var t3 := Next(t2, ops[2]);
    var history := [EMPTY, t1, t2, t3];
    HolidayLost(t1, id, o, s, day, k, today, calendar);
    assert Run(history, ops) && Forgotten(history, s, SlotStart(day, k));
  }

  lemma HolidayLost(t: Tables, id: OverrideId, o: Override, s: SlotId, day: int, k: nat, today: int, calendar: Calendar)
    requires t.overrides == map[] && o.start < o.end && s in t.slots
    requires At(t.slots[s], SlotStart(day, k)) && Touches(t.slots[s], o.start, o.end)
    requires t.slots[s].status == Unavailable == CalendarStatus(day, k, today, calendar, map[])
    ensures var t' := Next(Next(t, OpCreateOverride(id, o)), OpDeleteOverride(id));
            Opened(t, t', s, SlotStart(day, k)) && t'.overrides == map[]
  {
    CameAndWentIff(t, id, o);
    CalendarSlotKeptIff(t, id, o, s, day, k, today, calendar);
    SlotAfterwards(t, id, o, s);
    var t1 := Next(t, OpCreateOverride(id, o));
    assert t1 == CreateOverride(t, id, o).t;
    assert Next(t1, OpDeleteOverride(id)) == CameAndWent(t, id, o);
  }

  ghost predicate Forgotten(history: seq<Tables>, s: SlotId, start: int) {
    && |history| == 4 && Opened(history[1], history[3], s, start)
    && history[1].overrides == map[] && history[3].overrides == map[]
  }

  ghost predicate Opened(t: Tables, t': Tables, s: SlotId, start: int) {
    && s in t.slots && At(t.slots[s], start) && t.slots[s].status == Unavailable
    && s in t'.slots && t'.slots[s].status == Available
  }

  // And one that only adds an override: it forbids the second half of the half hour.
  lemma HolidayOpened(startDay: int, weeks: int, today: int, calendar: Calendar, ids: seq<SlotId>, now: int,
                      day: int, k: nat, id: OverrideId)
    requires 1 <= weeks <= 53 && |ids| == weeks * 7 * SLOT_COUNT && FreshIds(map[], ids)
    requires FirstDay(startDay) <= day < FirstDay(startDay) + weeks * 7 && k < SLOT_COUNT
    requires day in calendar.holidays && day !in calendar.adjustedWorkdays
    ensures var o := Override(SlotStart(day, k) + SLOT / 2, SlotStart(day, k) + SLOT, ForceUnavailable);
            var ops := [OpMaterialize(startDay, weeks, today, calendar, ids, now), OpCreateOverride(id, o)];
            exists history, s :: Run(history, ops) && Opened(history[1], history[2], s, SlotStart(day, k))
  {
    var o := Override(SlotStart(day, k) + SLOT / 2, SlotStart(day, k) + SLOT, ForceUnavailable);
    var ops := [OpMaterialize(startDay, weeks, today, calendar, ids, now), OpCreateOverride(id, o)];
    var t1, s := HolidayMade(startDay, weeks, today, calendar, ids, now, day, k);
    var history := [EMPTY, t1, Next(t1, ops[1])];
    PartialOverrideOpens(t1, id, o, s);
    assert Run(history, ops) && Opened(history[1], history[2], s, SlotStart(day, k));
  }

  lemma HolidayMade(
    startDay: int, weeks: int, today: int, calendar: Calendar, ids: seq<SlotId>, now: int, day: int, k: nat)
    returns (t: Tables, s: SlotId)
    requires 1 <= weeks <= 53 && |ids| == weeks * 7 * SLOT_COUNT && FreshIds(map[], ids)
    requires FirstDay(startDay) <= day < FirstDay(startDay) + weeks * 7 && k < SLOT_COUNT
    requires day in calendar.holidays && day !in calendar.adjustedWorkdays
    ensures t == Next(EMPTY, OpMaterialize(startDay, weeks, today, calendar, ids, now)) && t.overrides == map[]
    ensures s in t.slots && At(t.slots[s], SlotStart(day, k)) && t.slots[s].status == Unavailable
    ensures t.slots[s].status == CalendarStatus(day, k, today, calendar, map[])
  {
    t := FirstMaterialized(startDay, weeks, today, calendar, ids, now);
    MaterializeSettles(EMPTY, startDay, weeks, today, calendar, ids, now);
    assert DaySettled(t.slots, EMPTY.overrides, day, k, today, calendar);
    s :| s in t.slots && At(t.slots[s], SlotStart(day, k));
    HolidayStatus(day, k, today, calendar);
  }

  lemma HolidayStatus(day: int, k: nat, today: int, calendar: Calendar)
    requires day in calendar.holidays && day !in calendar.adjustedWorkdays
    ensures CalendarStatus(day, k, today, calendar, map[]) == Unavailable
  {}

  lemma FirstMaterialized(
    startDay: int, weeks: int, today: int, calendar: Calendar, ids: seq<SlotId>, now: int) returns (t: Tables)
    requires 1 <= weeks <= 53 && |ids| == weeks * 7 * SLOT_COUNT && FreshIds(map[], ids)
    ensures Materialize(EMPTY, startDay, weeks, today, calendar, ids, now) == Committed(t) && t.overrides == map[]
    ensures forall s :: s in t.slots ==> IsFree(t.slots[s])
  {
    var rows := WeekRows(map[], FirstDay(startDay), weeks, today, calendar, ids);
    UpsertAllSucceeds(map[], rows);
    WeekRowsFree(map[], FirstDay(startDay), weeks, today, calendar, ids);
    MadeFree(rows);
    t := Materialize(EMPTY, startDay, weeks, today, calendar, ids, now).t;
  }

  lemma {:induction false} MadeFree(rows: seq<CalendarRow>)
    requires FreeRows(rows) && UpsertAll(map[], rows).Some?
    ensures forall s :: s in UpsertAll(map[], rows).value ==> IsFree(UpsertAll(map[], rows).value[s])
    decreases |rows|
  {
    if rows != [] {
      MadeFree(rows[..|rows| - 1]);
    }
  }

  // ---- materialisation ----

  // The slot of a calendar row is there and, unless it is pinned, has its status.
  ghost predicate Settled(slots: Slots, row: CalendarRow) {
    && (exists s :: s in slots && At(slots[s], row.start))
    && (forall s :: s in slots && At(slots[s], row.start) ==> Pinned(slots[s]) || slots[s].status == row.status)
  }

  ghost predicate AllSettled(slots: Slots, rows: seq<CalendarRow>) {
    forall i :: 0 <= i < |rows| ==> Settled(slots, rows[i])
  }

  ghost predicate OneStatusPerStart(rows: seq<CalendarRow>) {
    forall i, j :: 0 <= i < |rows| && 0 <= j < |rows| && rows[i].start == rows[j].start ==>
      rows[i].status == rows[j].status
  }

  lemma UpsertSettles(slots: Slots, row: CalendarRow)
    requires Upsert(slots, row).Some?
    ensures Settled(Upsert(slots, row).value, row)
    ensures forall s :: s in slots && Pinned(slots[s]) ==>
              s in Upsert(slots, row).value && Upsert(slots, row).value[s] == slots[s]
  {
    var m := Upsert(slots, row).value;
    if s :| s in slots && At(slots[s], row.start) {
      assert At(m[s], row.start);
    } else {
      assert At(m[row.id], row.start);
    }
  }

  lemma UpsertKeepsSettled(slots: Slots, row: CalendarRow, other: CalendarRow)
    requires Upsert(slots, row).Some? && Settled(slots, other)
    requires other.start == row.start ==> other.status == row.status
    ensures Settled(Upsert(slots, row).value, other)
  {
    var m := Upsert(slots, row).value;
    var s :| s in slots && At(slots[s], other.start);
    assert At(m[s], other.start);
  }

  lemma UpsertSettledIsNoOp(slots: Slots, row: CalendarRow)
    requires Settled(slots, row)
    ensures Upsert(slots, row) == Some(slots)
  {
    var s :| s in slots && At(slots[s], row.start);
    assert Upsert(slots, row).Some?;
    assert Upsert(slots, row).value == slots;
  }

  lemma {:induction false} UpsertAllSettles(slots: Slots, rows: seq<CalendarRow>)
    requires OneStatusPerStart(rows) && UpsertAll(slots, rows).Some?
    ensures AllSettled(UpsertAll(slots, rows).value, rows)
    ensures forall s :: s in slots && Pinned(slots[s]) ==>
              s in UpsertAll(slots, rows).value && UpsertAll(slots, rows).value[s] == slots[s]
    decreases |rows|
  {
    if rows != [] {
      var n := |rows| - 1;
      UpsertAllSettles(slots, rows[..n]);
      var m := UpsertAll(slots, rows[..n]).value;
      UpsertSettles(m, rows[n]);
      forall i | 0 <= i < n ensures Settled(UpsertAll(slots, rows).value, rows[i]) {
        assert rows[..n][i] == rows[i];
        UpsertKeepsSettled(m, rows[n], rows[i]);
      }
    }
  }

  lemma {:induction false} SettledRowsNoOp(slots: Slots, rows: seq<CalendarRow>)
    requires AllSettled(slots, rows)
    ensures UpsertAll(slots, rows) == Some(slots)
    decreases |rows|
  {
    if rows != [] {
      var n := |rows| - 1;
      assert forall i :: 0 <= i < n ==> rows[..n][i] == rows[i];
      SettledRowsNoOp(slots, rows[..n]);
      UpsertSettledIsNoOp(slots, rows[n]);
    }
  }

  lemma SlotStartInjective(day: int, k: nat, day': int, k': nat)
    requires k < SLOT_COUNT && k' < SLOT_COUNT && SlotStart(day, k) == SlotStart(day', k')
    ensures day == day' && k == k'
  {}

  lemma CalendarRowsConsistent(
    firstDay: int, n: nat, today: int, calendar: Calendar, overrides: Overrides, ids: seq<SlotId>)
    requires n <= |ids|
    ensures OneStatusPerStart(CalendarRows(firstDay, n, today, calendar, overrides, ids))
  {
    forall i, j | 0 <= i < n && 0 <= j < n
        && SlotStart(firstDay + i / SLOT_COUNT, i % SLOT_COUNT) == SlotStart(firstDay + j / SLOT_COUNT, j % SLOT_COUNT)
      ensures i / SLOT_COUNT == j / SLOT_COUNT && i % SLOT_COUNT == j % SLOT_COUNT
    {
      SlotStartInjective(firstDay + i / SLOT_COUNT, i % SLOT_COUNT, firstDay + j / SLOT_COUNT, j % SLOT_COUNT);
    }
  }

  // Reading only the overrides that meet the window loses nothing.
  lemma WindowOverridesSuffice(day: int, k: nat, today: int, calendar: Calendar, overrides: Overrides, lo: int, hi: int)
    requires lo <= SlotStart(day, k) && SlotStart(day, k) + SLOT <= hi
    ensures CalendarStatus(day, k, today, calendar, WindowOverrides(overrides, lo, hi)) ==
            CalendarStatus(day, k, today, calendar, overrides)
  {
    var r := SlotRow(SlotStart(day, k), SlotStart(day, k) + SLOT, Available, None, 0);
    var w := WindowOverrides(overrides, lo, hi);
    forall action ensures CoveredBy(w, r, action) <==> CoveredBy(overrides, r, action) {
      if o :| o in overrides && overrides[o].action == action && Covers(overrides[o], r) {
        assert o in w && w[o] == overrides[o];
      }
    }
  }

  // The status that the calendar and the overrides give the k-th slot of a day.
  ghost predicate DaySettled(slots: Slots, overrides: Overrides, day: int, k: nat, today: int, calendar: Calendar) {
    Settled(slots, CalendarRow(0, SlotStart(day, k), CalendarStatus(day, k, today, calendar, overrides)))
  }

  lemma RowOfDay(overrides: Overrides, firstDay: int, weeks: nat, today: int, calendar: Calendar, ids: seq<SlotId>,
                 day: int, k: nat) returns (i: nat)
    requires |ids| == weeks * 7 * SLOT_COUNT
    requires firstDay <= day < firstDay + weeks * 7 && k < SLOT_COUNT
    ensures i < |ids|
    ensures var row := WeekRows(overrides, firstDay, weeks, today, calendar, ids)[i];
            row.start == SlotStart(day, k) && row.status == CalendarStatus(day, k, today, calendar, overrides)
  {
    i := (day - firstDay) * SLOT_COUNT + k;
    CalendarIndex(day - firstDay, k, weeks);
    WindowOverridesSuffice(day, k, today, calendar, overrides, Midnight(firstDay), Midnight(firstDay + weeks * 7));
  }

  lemma WeekRowsConsistent(
    overrides: Overrides, firstDay: int, weeks: nat, today: int, calendar: Calendar, ids: seq<SlotId>)
    requires |ids| == weeks * 7 * SLOT_COUNT
    ensures OneStatusPerStart(WeekRows(overrides, firstDay, weeks, today, calendar, ids))
  {
    CalendarRowsConsistent(firstDay, weeks * 7 * SLOT_COUNT, today, calendar,
                           WindowOverrides(overrides, Midnight(firstDay), Midnight(firstDay + weeks * 7)), ids);
  }

  // A materialisation leaves every calendar slot of its weeks in place with the
  // calendar's status, and booked and owner-locked slots exactly as they were.
  lemma MaterializeSettles(
    t: Tables, startDay: int, weeks: int, today: int, calendar: Calendar, ids: seq<SlotId>, now: int)
    requires 1 <= weeks <= 53 ==> |ids| == weeks * 7 * SLOT_COUNT
    requires Materialize(t, startDay, weeks, today, calendar, ids, now).Committed?
    ensures var slots := Materialize(t, startDay, weeks, today, calendar, ids, now).t.slots;
            && (forall day: int, k: nat ::
              FirstDay(startDay) <= day < FirstDay(startDay) + weeks * 7 && k < SLOT_COUNT ==>
                  DaySettled(slots, t.overrides, day, k, today, calendar))
            && (forall s :: s in t.slots && Pinned(t.slots[s]) ==> s in slots && slots[s] == t.slots[s])
  {
    var rows := WeekRows(t.overrides, FirstDay(startDay), weeks, today, calendar, ids);
    var slots := UpsertAll(t.slots, rows).value;
    WeekRowsConsistent(t.overrides, FirstDay(startDay), weeks, today, calendar, ids);
    UpsertAllSettles(t.slots, rows);
    forall day: int, k: nat | FirstDay(startDay) <= day < FirstDay(startDay) + weeks * 7 && k < SLOT_COUNT
      ensures DaySettled(slots, t.overrides, day, k, today, calendar)
    {
      var i := RowOfDay(t.overrides, FirstDay(startDay), weeks, today, calendar, ids, day, k);
      assert Settled(slots, rows[i]);
    }
  }

  // Running it again with the same calendar, whatever ids it would use, changes nothing.
  lemma MaterializeIdempotent(t: Tables, startDay: int, weeks: int, today: int, calendar: Calendar,
                              ids: seq<SlotId>, ids': seq<SlotId>, now: int)
    requires 1 <= weeks <= 53 ==> |ids| == |ids'| == weeks * 7 * SLOT_COUNT
    requires Materialize(t, startDay, weeks, today, calendar, ids, now).Committed?
    ensures var t' := Materialize(t, startDay, weeks, today, calendar, ids, now).t;
            Materialize(t', startDay, weeks, today, calendar, ids', now) == Committed(t')
  {
    var t' := Materialize(t, startDay, weeks, today, calendar, ids, now).t;
    SameRowsNoOp(t.slots, t.overrides, FirstDay(startDay), weeks, today, calendar, ids, ids');
    SweepTwice(t, now, None, t'.slots);
  }

  lemma SameRowsNoOp(slots: Slots, overrides: Overrides, firstDay: int, weeks: nat, today: int, calendar: Calendar,
                     ids: seq<SlotId>, ids': seq<SlotId>)
    requires |ids| == |ids'| == weeks * 7 * SLOT_COUNT
    requires UpsertAll(slots, WeekRows(overrides, firstDay, weeks, today, calendar, ids)).Some?
    ensures var m := UpsertAll(slots, WeekRows(overrides, firstDay, weeks, today, calendar, ids)).value;
            UpsertAll(m, WeekRows(overrides, firstDay, weeks, today, calendar, ids')) == Some(m)
  {
    var rows := WeekRows(overrides, firstDay, weeks, today, calendar, ids);
    var rows' := WeekRows(overrides, firstDay, weeks, today, calendar, ids');
    var m := UpsertAll(slots, rows).value;
    WeekRowsConsistent(overrides, firstDay, weeks, today, calendar, ids);
    UpsertAllSettles(slots, rows);
    forall i | 0 <= i < |rows'| ensures Settled(m, rows'[i]) {
      assert Settled(m, rows[i]);
      assert rows'[i].start == rows[i].start && rows'[i].status == rows[i].status;
    }
    SettledRowsNoOp(m, rows');
  }

  lemma SweptApptsTwice(appts: Appts, now: int, user: Option<UserId>)
    ensures SweptAppts(SweptAppts(appts, now, user), now, user) == SweptAppts(appts, now, user)
  {}

  lemma NothingToSweep(appts: Appts, events: Events, now: int, user: Option<UserId>)
    requires forall a :: a in appts ==> !Expired(appts[a], now, user)
    ensures SweptEvents(events, appts, now, user) == events
  {}

  lemma SweepTwice(t: Tables, now: int, user: Option<UserId>, slots: Slots)
    ensures Sweep(Sweep(t, now, user).(slots := slots), now, user) == Sweep(t, now, user).(slots := slots)
  {
    SweptApptsTwice(t.appts, now, user);
    NothingToSweep(SweptAppts(t.appts, now, user), SweptEvents(t.events, t.appts, now, user), now, user);
  }
}
