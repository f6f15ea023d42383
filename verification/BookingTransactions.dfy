// Each booking transaction as a function from the tables before it to its
// outcome. An abort leaves nothing behind, not even the completion sweep that
// the transaction had already issued.
module BookingTransactions {
  import opened Options
  import opened BookingTables
  import opened BookingStatements

  // When several unique indexes are violated at once the server may report any
  // of them, so an abort carries the set of possible codes.
  datatype Outcome = Committed(t: Tables) | Aborted(codes: set<Code>)

  // ---- create ----

  predicate ActiveFor(appts: Appts, user: UserId) {
    exists a :: a in appts && appts[a].status == Active && appts[a].user == user
  }

  predicate ActiveAt(appts: Appts, company: Fingerprint) {
    exists a :: a in appts && appts[a].status == Active && appts[a].exc == None && appts[a].company == company
  }

  predicate Usable(r: ExcRow, user: UserId, company: Fingerprint, now: int) {
    && r.user == user && r.company == company
    && r.consumedAt == None && r.revokedAt == None && now < r.expiresAt
  }

  predicate Smallest(e: ExcId, s: set<ExcId>) {
    e in s && forall x :: x in s ==> e <= x
  }

  function UsableExceptions(t: Tables, user: UserId, company: Fingerprint, now: int): set<ExcId> {
    set e | e in t.exceptions && Usable(t.exceptions[e], user, company, now)
  }

  lemma {:induction false} SmallestExists(s: set<ExcId>)
    requires s != {}
    ensures exists e :: Smallest(e, s)
  {
    var x :| x in s;
    if s == {x} {
      assert Smallest(x, s);
    } else {
      SmallestExists(s - {x});
      var y :| Smallest(y, s - {x});
      assert forall z :: z in s ==> z == x || z in s - {x};
      assert Smallest(if x <= y then x else y, s);
    }
  }

  // Only a company that is already booked makes the caller spend an exception.
  ghost function ExceptionToSpend(t: Tables, user: UserId, company: Fingerprint, now: int): (r: Option<ExcId>)
    ensures r.Some? ==> r.value in t.exceptions && Usable(t.exceptions[r.value], user, company, now)
    ensures r.Some? ==> ActiveAt(t.appts, company)
    ensures r.None? && ActiveAt(t.appts, company) ==>
      forall e :: e in t.exceptions ==> !Usable(t.exceptions[e], user, company, now)
  {
    var s := UsableExceptions(t, user, company, now);
    if ActiveAt(t.appts, company) && s != {} then
      SmallestExists(s);
      var e :| Smallest(e, s);
      Some(e)
    else
      assert forall e :: e in t.exceptions && Usable(t.exceptions[e], user, company, now) ==> e in s;
      None
  }

  function InsertViolations(
    appts: Appts, id: ApptId, user: UserId, company: Fingerprint, exc: Option<ExcId>): set<Code>
  {
    (if id in appts then {Internal} else {}) +
    (if ActiveFor(appts, user) then {DupAccount} else {}) +
    (if exc == None && ActiveAt(appts, company) then {DupCompany} else {}) +
    (if exc.Some? && exists a :: a in appts && appts[a].exc == exc then {DupCompany} else {})
  }

  function Consume(exceptions: Exceptions, exc: Option<ExcId>, now: int): Exceptions {
    if exc.Some? && exc.value in exceptions
    then exceptions[exc.value := exceptions[exc.value].(consumedAt := Some(now))]
    else exceptions
  }

  function CreatedKey(a: ApptId): EventKey {
    EventKey(a, AppointmentCreated, None)
  }

  function FirstReminderKey(a: ApptId): EventKey {
    EventKey(a, ReminderDue, None)
  }

  // The writes of a creation that passed every check.
  function Entered(t: Tables, id: ApptId, ids: seq<SlotId>, now: int, r: ApptRow): Tables {
    Tables(
      BookedFor(t.slots, ids, id),
      t.appts[id := r],
      Consume(t.exceptions, r.exc, now),
      t.overrides,
      t.events[CreatedKey(id) := NewEvent(None, now)]
              [FirstReminderKey(id) := NewEvent(Some(r.start - REMINDER_LEAD), now)],
      t.companies + {r.company})
  }

  ghost function Create(t: Tables, id: ApptId, user: UserId, company: Fingerprint,
                        ids: seq<SlotId>, details: nat, now: int): Outcome
  {
    CreateSwept(Sweep(t, now, None), id, user, company, ids, details, now)
  }

  ghost function CreateSwept(t1: Tables, id: ApptId, user: UserId, company: Fingerprint,
                             ids: seq<SlotId>, details: nat, now: int): Outcome
  {
    var ord := InOrder(t1.slots, ids);
    match Validate(t1.slots, ord)
    case Some(code) => Aborted({code})
    case None =>
      InsertAppointment(t1, id, ids, now,
        NewRow(user, company, ExceptionToSpend(t1, user, company, now), t1.slots[ord[0]].start, details))
  }

  function NewRow(user: UserId, company: Fingerprint, exc: Option<ExcId>, start: int, details: nat): ApptRow {
    ApptRow(user, company, exc, start, start + APPOINTMENT, Active, details, 1, None, None)
  }

  function InsertAppointment(t: Tables, id: ApptId, ids: seq<SlotId>, now: int, r: ApptRow): Outcome {
    var bad := InsertViolations(t.appts, id, r.user, r.company, r.exc);
    if bad != {} then Aborted(bad)
    else if CreatedKey(id) in t.events || FirstReminderKey(id) in t.events then Aborted({Internal})
    else Committed(Entered(t, id, ids, now, r))
  }

  // ---- change, cancel ----

  function RescheduleKey(a: ApptId, v: nat): EventKey {
    EventKey(a, Rescheduled, Some(v))
  }

  function ReminderKey(a: ApptId, v: nat): EventKey {
    EventKey(a, ReminderDue, Some(v))
  }

  function DetailsKey(a: ApptId, v: nat): EventKey {
    EventKey(a, DetailsUpdated, Some(v))
  }

  function CancelKey(a: ApptId): EventKey {
    EventKey(a, AppointmentCancelled, None)
  }

  function MovedRow(r: ApptRow, start: int): ApptRow {
    r.(start := start, end := start + APPOINTMENT, version := r.version + 1)
  }

  // The writes of a reschedule; `freed` is the slot table once the old slots are released.
  function Moved(t: Tables, a: ApptId, freed: Slots, ids: seq<SlotId>, now: int, r: ApptRow): Tables {
    t.(slots := BookedFor(freed, ids, a),
       appts := t.appts[a := r],
       events := CancelReminders(t.events, a, now)
                   [RescheduleKey(a, r.version) := NewEvent(None, now)]
                   [ReminderKey(a, r.version) := NewEvent(Some(r.start - REMINDER_LEAD), now)])
  }

  function Reschedule(t: Tables, a: ApptId, ids: seq<SlotId>, now: int, pick: map<SlotId, SlotStatus>): Outcome
    requires a in t.appts
  {
    var ord := InOrder(t.slots, ids);
    match Validate(t.slots, ord)
    case Some(code) => Aborted({code})
    case None =>
      var start := t.slots[ord[0]].start;
      var v := t.appts[a].version + 1;
      if RescheduleKey(a, v) in t.events || ReminderKey(a, v) in t.events then Aborted({Internal})
      else Committed(Moved(t, a, Released(t.slots, t.overrides, a, pick), ids, now, MovedRow(t.appts[a], start)))
  }

  function PatchedRow(r: ApptRow, details: nat): ApptRow {
    r.(details := details, version := r.version + 1)
  }

  function Patched(t: Tables, a: ApptId, now: int, r: ApptRow): Tables {
    t.(appts := t.appts[a := r],
       events := t.events[DetailsKey(a, r.version) := NewEvent(None, now)])
  }

  function Patch(t: Tables, a: ApptId, details: nat, now: int): Outcome
    requires a in t.appts
  {
    var v := t.appts[a].version + 1;
    if DetailsKey(a, v) in t.events then Aborted({Internal})
    else Committed(Patched(t, a, now, PatchedRow(t.appts[a], details)))
  }

  datatype Change = NewSlots(ids: seq<SlotId>) | NewDetails(details: nat) | NoChange

  function Update(t: Tables, user: UserId, a: ApptId, version: nat, change: Change, now: int,
                  pick: map<SlotId, SlotStatus>): Outcome
  {
    UpdateSwept(Sweep(t, now, Some(user)), user, a, version, change, now, pick)
  }

  function UpdateSwept(t1: Tables, user: UserId, a: ApptId, version: nat, change: Change, now: int,
                       pick: map<SlotId, SlotStatus>): Outcome
  {
    if a !in t1.appts then Aborted({NotFound})
    else if t1.appts[a].user != user then Aborted({PermDenied})
    else if t1.appts[a].status != Active then Aborted({TerminalState})
    else if t1.appts[a].version != version then Aborted({VersionConflict})
    else match change
      case NewSlots(ids) => Reschedule(t1, a, ids, now, pick)
      case NewDetails(details) => Patch(t1, a, details, now)
      case NoChange => Committed(t1)
  }

  function AdminReschedule(t: Tables, a: ApptId, ids: seq<SlotId>, now: int, pick: map<SlotId, SlotStatus>): Outcome {
    if a !in t.appts then Aborted({NotFound})
    else if t.appts[a].status != Active then Aborted({TerminalState})
    else Reschedule(t, a, ids, now, pick)
  }

  function CancelledRow(r: ApptRow, now: int): ApptRow {
    r.(status := Cancelled, cancelledAt := Some(now), version := r.version + 1)
  }

  function Ended(t: Tables, a: ApptId, slots: Slots, now: int, r: ApptRow): Tables {
    t.(slots := slots,
       appts := t.appts[a := r],
       events := CancelReminders(t.events, a, now)[CancelKey(a) := NewEvent(None, now)])
  }

  // Both ways of cancelling end like this; they differ in what happens to the slots.
  function Terminate(t: Tables, a: ApptId, slots: Slots, now: int): Outcome
    requires a in t.appts
  {
    if CancelKey(a) in t.events then Aborted({Internal})
    else Committed(Ended(t, a, slots, now, CancelledRow(t.appts[a], now)))
  }

  function Cancel(t: Tables, user: UserId, a: ApptId, now: int, pick: map<SlotId, SlotStatus>): Outcome {
    CancelSwept(Sweep(t, now, Some(user)), user, a, now, pick)
  }

  function CancelSwept(t1: Tables, user: UserId, a: ApptId, now: int, pick: map<SlotId, SlotStatus>): Outcome {
    if a !in t1.appts then Aborted({NotFound})
    else if t1.appts[a].user != user then Aborted({PermDenied})
    else if t1.appts[a].status == Cancelled then Committed(t1)
    else if t1.appts[a].status == Completed then Aborted({TerminalState})
    else Terminate(t1, a, Released(t1.slots, t1.overrides, a, pick), now)
  }

  function ForceCancel(t: Tables, a: ApptId, now: int): Outcome {
    ForceCancelSwept(Sweep(t, now, None), a, now)
  }

  function ForceCancelSwept(t1: Tables, a: ApptId, now: int): Outcome {
    if a !in t1.appts then Aborted({NotFound})
    else if t1.appts[a].status == Cancelled then Committed(t1)
    else if t1.appts[a].status == Completed then Aborted({TerminalState})
    else Terminate(t1, a, HardLocked(t1.slots, a), now)
  }

  // ---- availability overrides ----

  function Min(x: int, y: int): int { if x < y then x else y }
  function Max(x: int, y: int): int { if x < y then y else x }

  function CreateOverride(t: Tables, id: OverrideId, o: Override): Outcome {
    if o.end <= o.start then Aborted({InvalidRequest})
    else if id in t.overrides then Aborted({Internal})
    else
      var overrides := t.overrides[id := o];
      Committed(t.(overrides := overrides, slots := Rematerialized(t.slots, overrides, o.start, o.end)))
  }

  function UpdateOverride(t: Tables, id: OverrideId, o: Override): Outcome {
    if o.end <= o.start then Aborted({InvalidRequest})
    else if id !in t.overrides then Aborted({NotFound})
    else
      var was := t.overrides[id];
      var overrides := t.overrides[id := o];
      Committed(t.(overrides := overrides,
        slots := Rematerialized(t.slots, overrides, Min(was.start, o.start), Max(was.end, o.end))))
  }

  function DeleteOverride(t: Tables, id: OverrideId): Outcome {
    if id !in t.overrides then Aborted({NotFound})
    else
      var was := t.overrides[id];
      var overrides := t.overrides - {id};
      Committed(t.(overrides := overrides, slots := Rematerialized(t.slots, overrides, was.start, was.end)))
  }

  // ---- company exceptions ----

  predicate HasOpen(exceptions: Exceptions, user: UserId, company: Fingerprint) {
    exists e :: e in exceptions && exceptions[e].user == user
             && exceptions[e].company == company && exceptions[e].consumedAt == None
  }

  function CreateException(
    t: Tables, id: ExcId, user: UserId, company: Fingerprint, expiresAt: int, now: int): Outcome
  {
    if expiresAt <= now then Aborted({InvalidRequest})
    else if id in t.exceptions || HasOpen(t.exceptions, user, company) then
      Aborted((if id in t.exceptions then {Internal} else {}) +
              (if HasOpen(t.exceptions, user, company) then {DupException} else {}))
    else Committed(t.(exceptions := t.exceptions[id := ExcRow(user, company, expiresAt, None, None)]))
  }

  // ---- materialisation ----

  function FirstDay(startDay: int): int {
    startDay - Weekday(startDay)
  }

  // Midnight in Shanghai at the start of a day.
  function Midnight(day: int): int {
    day * DAY - SHANGHAI
  }

  lemma CalendarIndex(d: nat, k: nat, weeks: nat)
    requires d < weeks * 7 && k < SLOT_COUNT
    ensures var n := d * SLOT_COUNT + k; n < weeks * 7 * SLOT_COUNT && n / SLOT_COUNT == d && n % SLOT_COUNT == k
    ensures d * SLOT_COUNT + SLOT_COUNT == (d + 1) * SLOT_COUNT
  {}

  function WeekRows(overrides: Overrides, firstDay: int, weeks: nat, today: int, calendar: Calendar,
                    ids: seq<SlotId>): (rows: seq<CalendarRow>)
    requires |ids| == weeks * 7 * SLOT_COUNT
    ensures |rows| == |ids|
  {
    CalendarRows(firstDay, weeks * 7 * SLOT_COUNT, today, calendar,
                 WindowOverrides(overrides, Midnight(firstDay), Midnight(firstDay + weeks * 7)), ids)
  }

  function Materialize(t: Tables, startDay: int, weeks: int, today: int, calendar: Calendar,
                       ids: seq<SlotId>, now: int): Outcome
    requires 1 <= weeks <= 53 ==> |ids| == weeks * 7 * SLOT_COUNT
  {
    if weeks < 1 || weeks > 53 then Aborted({InvalidRequest})
    else match UpsertAll(t.slots, WeekRows(t.overrides, FirstDay(startDay), weeks, today, calendar, ids))
      case None => Aborted({Internal})
      case Some(slots) => Committed(Sweep(t, now, None).(slots := slots))
  }

  // ---- runs ----

  datatype Op =
    | OpCreate(id: ApptId, user: UserId, company: Fingerprint, ids: seq<SlotId>, details: nat, now: int)
    | OpUpdate(user: UserId, a: ApptId, version: nat, change: Change, now: int, pick: map<SlotId, SlotStatus>)
    | OpCancel(user: UserId, a: ApptId, now: int, pick: map<SlotId, SlotStatus>)
    | OpForceCancel(a: ApptId, now: int)
    | OpAdminReschedule(a: ApptId, ids: seq<SlotId>, now: int, pick: map<SlotId, SlotStatus>)
    | OpSweep(now: int, only: Option<UserId>)
    | OpCreateOverride(oid: OverrideId, o: Override)
    | OpUpdateOverride(oid: OverrideId, o: Override)
    | OpDeleteOverride(oid: OverrideId)
    | OpCreateException(eid: ExcId, user: UserId, company: Fingerprint, expiresAt: int, now: int)
    | OpMaterialize(startDay: int, weeks: int, today: int, calendar: Calendar, slotIds: seq<SlotId>, now: int)

  // A materialisation brings one id for each slot of its weeks.
  predicate WellFormed(op: Op) {
    match op
    case OpMaterialize(_, weeks, _, _, slotIds, _) => 1 <= weeks <= 53 ==> |slotIds| == weeks * 7 * SLOT_COUNT
    case _ => true
  }

  ghost function Execute(t: Tables, op: Op): Outcome
    requires WellFormed(op)
  {
    match op
    case OpCreate(id, user, company, ids, details, now) => Create(t, id, user, company, ids, details, now)
    case OpUpdate(user, a, version, change, now, pick) => Update(t, user, a, version, change, now, pick)
    case OpCancel(user, a, now, pick) => Cancel(t, user, a, now, pick)
    case OpForceCancel(a, now) => ForceCancel(t, a, now)
    case OpAdminReschedule(a, ids, now, pick) => AdminReschedule(t, a, ids, now, pick)
    case OpSweep(now, only) => Committed(Sweep(t, now, only))
    case OpCreateOverride(oid, o) => CreateOverride(t, oid, o)
    case OpUpdateOverride(oid, o) => UpdateOverride(t, oid, o)
    case OpDeleteOverride(oid) => DeleteOverride(t, oid)
    case OpCreateException(eid, user, company, expiresAt, now) => CreateException(t, eid, user, company, expiresAt, now)
    case OpMaterialize(startDay, weeks, today, calendar, slotIds, now) =>
      Materialize(t, startDay, weeks, today, calendar, slotIds, now)
  }

  ghost function Next(t: Tables, op: Op): Tables
    requires WellFormed(op)
  {
    match Execute(t, op)
    case Committed(t') => t'
    case Aborted(_) => t
  }

  // The tables after each operation of a run that starts from the empty schema.
  ghost predicate Run(history: seq<Tables>, ops: seq<Op>) {
    && |history| == |ops| + 1
    && history[0] == EMPTY
    && (forall i :: 0 <= i < |ops| ==> WellFormed(ops[i]) && history[i + 1] == Next(history[i], ops[i]))
  }
}
