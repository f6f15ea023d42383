// What one SQL statement, or one loop of statements, does to a table.
module BookingStatements {
  import opened Options
  import opened BookingTables

  // ---- slots ----

  predicate Covers(o: Override, r: SlotRow) {
    o.start <= r.start && r.end <= o.end
  }

  predicate CoveredBy(overrides: Overrides, r: SlotRow, action: Action) {
    exists o :: o in overrides && overrides[o].action == action && Covers(overrides[o], r)
  }

  // The status of a free slot once every covering override is taken into account.
  function FreeStatus(overrides: Overrides, r: SlotRow): SlotStatus {
    if CoveredBy(overrides, r, ForceUnavailable) then Unavailable else Available
  }

  // `SELECT action ... LIMIT 1` has no order, so with opposite covering
  // overrides either may come back: every status a released slot can take.
  function ReleaseTargets(overrides: Overrides, r: SlotRow): set<SlotStatus> {
    (if CoveredBy(overrides, r, ForceUnavailable) then {Unavailable} else {}) +
    (if CoveredBy(overrides, r, ForceAvailable) || !CoveredBy(overrides, r, ForceUnavailable)
     then {Available} else {})
  }

  // `pick` records the answers of the unordered query; where it names no
  // possible answer the status is forced, or the first one is taken.
  function ReleaseStatus(overrides: Overrides, r: SlotRow, s: SlotId, pick: map<SlotId, SlotStatus>): SlotStatus {
    if s in pick && pick[s] in ReleaseTargets(overrides, r) then pick[s] else FreeStatus(overrides, r)
  }

  function Bumped(r: SlotRow, status: SlotStatus, owner: Option<ApptId>): SlotRow {
    SlotRow(r.start, r.end, status, owner, r.version + 1)
  }

  function Released(slots: Slots, overrides: Overrides, a: ApptId, pick: map<SlotId, SlotStatus>): Slots {
    map s | s in slots ::
      if slots[s].owner == Some(a) then Bumped(slots[s], ReleaseStatus(overrides, slots[s], s, pick), None)
      else slots[s]
  }

  function HardLocked(slots: Slots, a: ApptId): Slots {
    map s | s in slots ::
      if slots[s].owner == Some(a) then Bumped(slots[s], OwnerLocked, None) else slots[s]
  }

  function BookedFor(slots: Slots, ids: seq<SlotId>, a: ApptId): Slots {
    map s | s in slots :: if s in ids then Bumped(slots[s], Booked, Some(a)) else slots[s]
  }

  predicate IsFree(r: SlotRow) {
    r.status == Available || r.status == Unavailable
  }

  predicate Touches(r: SlotRow, lo: int, hi: int) {
    r.start < hi && lo < r.end
  }

  function Rematerialized(slots: Slots, overrides: Overrides, lo: int, hi: int): Slots {
    map s | s in slots ::
      if IsFree(slots[s]) && Touches(slots[s], lo, hi)
      then Bumped(slots[s], FreeStatus(overrides, slots[s]), slots[s].owner)
      else slots[s]
  }

  // ---- selecting and validating slots ----

  predicate Before(slots: Slots, x: SlotId, y: SlotId)
    requires x in slots && y in slots
  {
    slots[x].start < slots[y].start || (slots[x].start == slots[y].start && x <= y)
  }

  // Existing slots in lock order, each once.
  ghost predicate Sorted(slots: Slots, ids: seq<SlotId>) {
    && (forall y :: y in ids ==> y in slots)
    && (forall i, j :: 0 <= i < j < |ids| ==> ids[i] != ids[j] && Before(slots, ids[i], ids[j]))
  }

  lemma HeadFirst(slots: Slots, sorted: seq<SlotId>, x: SlotId)
    requires sorted != [] && Sorted(slots, sorted) && x in slots
    ensures Sorted(slots, sorted[1..]) && forall y :: y in sorted[1..] ==> y != sorted[0] && Before(slots, sorted[0], y)
    ensures Before(slots, x, sorted[0]) ==> forall y :: y in sorted ==> Before(slots, x, y)
  {
    forall i | 1 <= i < |sorted| ensures sorted[i] != sorted[0] && Before(slots, sorted[0], sorted[i]) {}
  }

  lemma InFront(slots: Slots, x: SlotId, sorted: seq<SlotId>)
    requires x in slots && Sorted(slots, sorted) && forall y :: y in sorted ==> y != x && Before(slots, x, y)
    ensures Sorted(slots, [x] + sorted)
  {
    var longer := [x] + sorted;
    forall y | y in longer ensures y in slots {
      assert y == x || y in sorted;
    }
    forall i, j | 0 <= i < j < |longer| ensures longer[i] != longer[j] && Before(slots, longer[i], longer[j]) {
      assert longer[j] == sorted[j - 1] && sorted[j - 1] in sorted;
      assert i > 0 ==> longer[i] == sorted[i - 1];
    }
  }

  function Insert(slots: Slots, x: SlotId, sorted: seq<SlotId>): (r: seq<SlotId>)
    requires x in slots && x !in sorted && Sorted(slots, sorted)
    ensures forall y :: y in r <==> y == x || y in sorted
    ensures Sorted(slots, r)
  {
    if sorted == [] then [x]
    else
      assert sorted == [sorted[0]] + sorted[1..];
      HeadFirst(slots, sorted, x);
      if Before(slots, x, sorted[0]) then
        InFront(slots, x, sorted);
        [x] + sorted
      else
        var rest := Insert(slots, x, sorted[1..]);
        InFront(slots, sorted[0], rest);
        [sorted[0]] + rest
  }

  // SELECT ... WHERE id = ANY(ids) ORDER BY start_at, id: an unknown id gives no row, a
  // repeated one gives its row once.
  function InOrder(slots: Slots, ids: seq<SlotId>): (r: seq<SlotId>)
    ensures forall y :: y in r <==> y in ids && y in slots
    ensures Sorted(slots, r)
  {
    if ids == [] then []
    else
      assert ids == [ids[0]] + ids[1..];
      var rest := InOrder(slots, ids[1..]);
      if ids[0] in slots && ids[0] !in rest then Insert(slots, ids[0], rest) else rest
  }

  function Validate(slots: Slots, ord: seq<SlotId>): Option<Code>
    requires forall s :: s in ord ==> s in slots
  {
    if |ord| != 3 || exists s :: s in ord && slots[s].status != Available then
      if exists s :: s in ord && slots[s].status == OwnerLocked then Some(OwnerLockedError) else Some(SlotTaken)
    else if exists s :: s in ord && slots[s].end - slots[s].start != SLOT then Some(SlotTaken)
    else if LocalDay(slots[ord[0]].start) != LocalDay(slots[ord[1]].start)
         || LocalDay(slots[ord[0]].start) != LocalDay(slots[ord[2]].start)
         || slots[ord[1]].start != slots[ord[0]].end
         || slots[ord[2]].start != slots[ord[1]].end then Some(SlotTaken)
    else None
  }

  // ---- the outbox ----

  function CancelReminders(events: Events, a: ApptId, now: int): Events {
    map k | k in events ::
      if k.biz == a && k.kind == ReminderDue && events[k].status == Pending
      then events[k].(status := Withdrawn, cancelledAt := Some(now))
      else events[k]
  }

  function NewEvent(scheduled: Option<int>, now: int): EventRow {
    EventRow(scheduled, Pending, None, now)
  }

  // ---- expiry ----

  predicate Expired(r: ApptRow, now: int, user: Option<UserId>) {
    r.status == Active && r.end <= now && (user.None? || r.user == user.value)
  }

  function CompletedRow(r: ApptRow): ApptRow {
    r.(status := Completed, completedAt := Some(r.end), version := r.version + 1)
  }

  function CompletionKey(a: ApptId): EventKey {
    EventKey(a, AppointmentCompleted, None)
  }

  // The completion event of an appointment that is expiring now.
  predicate Completes(appts: Appts, k: EventKey, now: int, user: Option<UserId>) {
    k.biz in appts && Expired(appts[k.biz], now, user) && k == CompletionKey(k.biz)
  }

  function SweptAppts(appts: Appts, now: int, user: Option<UserId>): Appts {
    map a | a in appts :: if Expired(appts[a], now, user) then CompletedRow(appts[a]) else appts[a]
  }

  function SweptEvents(events: Events, appts: Appts, now: int, user: Option<UserId>): (r: Events)
    ensures forall k :: k in r <==> k in events || Completes(appts, k, now, user)
    ensures forall k :: k in r && k !in events ==> r[k] == NewEvent(None, now)
  {
    var added := set a | a in appts && Expired(appts[a], now, user) :: CompletionKey(a);
    assert forall k :: Completes(appts, k, now, user) ==> CompletionKey(k.biz) in added;
    map k | k in added + events.Keys ::
      if k !in events then NewEvent(None, now)
      else if k.biz in appts && Expired(appts[k.biz], now, user) && k.kind == ReminderDue && events[k].status == Pending
      then events[k].(status := Withdrawn, cancelledAt := Some(now))
      else events[k]
  }

  // One statement with three data-modifying CTEs: all of them read the tables as
  // they were before it, and an event key already present is left alone.
  function Sweep(t: Tables, now: int, user: Option<UserId>): Tables {
    t.(appts := SweptAppts(t.appts, now, user), events := SweptEvents(t.events, t.appts, now, user))
  }

  // ---- materialisation ----

  datatype CalendarRow = CalendarRow(id: SlotId, start: int, status: SlotStatus)

  predicate Pinned(r: SlotRow) {
    r.status == Booked || r.status == OwnerLocked
  }

  function Refreshed(r: SlotRow, status: SlotStatus): SlotRow {
    if Pinned(r) || r.status == status then r else r.(status := status, version := r.version + 1)
  }

  predicate At(r: SlotRow, start: int) {
    r.start == start && r.end == start + SLOT
  }

  // INSERT ... ON CONFLICT (start_at, end_at) DO UPDATE; None is a primary-key clash.
  function Upsert(slots: Slots, row: CalendarRow): Option<Slots> {
    if exists s :: s in slots && At(slots[s], row.start) then
      Some(map s | s in slots ::
             if At(slots[s], row.start) then Refreshed(slots[s], row.status) else slots[s])
    else if row.id in slots then None
    else Some(slots[row.id := SlotRow(row.start, row.start + SLOT, row.status, None, 1)])
  }

  function UpsertAll(slots: Slots, rows: seq<CalendarRow>): Option<Slots>
    decreases |rows|
  {
    if rows == [] then Some(slots)
    else
      match UpsertAll(slots, rows[..|rows| - 1])
      case None => None
      case Some(m) => Upsert(m, rows[|rows| - 1])
  }

  datatype Calendar = Calendar(holidays: set<int>, adjustedWorkdays: set<int>)

  const DAY_START_MINUTE := 570
  const SLOT_COUNT := 25

  // Days are numbered from 1 January 1970, a Thursday; Monday is weekday 0.
  function Weekday(day: int): int {
    (day + 3) % 7
  }

  predicate AtMeal(minute: int) {
    720 <= minute < 840 || 1080 <= minute < 1200
  }

  predicate BaseAvailable(day: int, minute: int, today: int, calendar: Calendar) {
    && today < day
    && (day in calendar.adjustedWorkdays || (Weekday(day) < 5 && day !in calendar.holidays))
    && !AtMeal(minute)
  }

  function SlotMinute(k: nat): int {
    DAY_START_MINUTE + 30 * k
  }

  function SlotStart(day: int, k: nat): int {
    day * DAY + SlotMinute(k) * 60 - SHANGHAI
  }

  function CalendarStatus(day: int, k: nat, today: int, calendar: Calendar, overrides: Overrides): SlotStatus {
    var r := SlotRow(SlotStart(day, k), SlotStart(day, k) + SLOT, Available, None, 0);
    if CoveredBy(overrides, r, ForceUnavailable) then Unavailable
    else if CoveredBy(overrides, r, ForceAvailable) then Available
    else if BaseAvailable(day, SlotMinute(k), today, calendar) then Available
    else Unavailable
  }

  // The rows of the first n slots of the window, 25 a day, with the ids the
  // inserts would use.
  function CalendarRows(firstDay: int, n: nat, today: int, calendar: Calendar, overrides: Overrides,
                        ids: seq<SlotId>): (rows: seq<CalendarRow>)
    requires n <= |ids|
    ensures |rows| == n
  {
    seq(n, i requires 0 <= i < n =>
      CalendarRow(ids[i], SlotStart(firstDay + i / SLOT_COUNT, i % SLOT_COUNT),
        CalendarStatus(firstDay + i / SLOT_COUNT, i % SLOT_COUNT, today, calendar, overrides)))
  }

  function WindowOverrides(overrides: Overrides, lo: int, hi: int): Overrides {
    map o | o in overrides && overrides[o].start < hi && overrides[o].end > lo :: overrides[o]
  }
}
