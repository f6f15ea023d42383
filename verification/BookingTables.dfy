// The tables of the booking schema. Instants are whole seconds of UTC; Shanghai
// has no daylight saving, so local time is UTC plus eight hours.
module BookingTables {
  import opened Options

  const SLOT := 1800
  const APPOINTMENT := 5400
  const REMINDER_LEAD := 600
  const DAY := 86400
  const SHANGHAI := 28800

  type UserId = nat
  type SlotId = nat
  type ApptId = nat
  type ExcId = nat
  type OverrideId = nat
  type Fingerprint = nat

  datatype SlotStatus = Available | Booked | OwnerLocked | Unavailable
  datatype SlotRow = SlotRow(start: int, end: int, status: SlotStatus, owner: Option<ApptId>, version: nat)

  datatype ApptStatus = Active | Cancelled | Completed

  // `details` stands for the encrypted meeting, contact and notes columns.
  datatype ApptRow = ApptRow(
    user: UserId, company: Fingerprint, exc: Option<ExcId>,
    start: int, end: int, status: ApptStatus, details: nat, version: nat,
    cancelledAt: Option<int>, completedAt: Option<int>)

  datatype ExcRow = ExcRow(
    user: UserId, company: Fingerprint, expiresAt: int,
    consumedAt: Option<int>, revokedAt: Option<int>)

  datatype Action = ForceUnavailable | ForceAvailable
  datatype Override = Override(start: int, end: int, action: Action)

  datatype EventKind =
    | AppointmentCreated | DetailsUpdated | Rescheduled
    | AppointmentCancelled | ReminderDue | AppointmentCompleted

  // `appointment:<biz>:<kind>` with an optional `:<version>` suffix. The unique
  // index on it makes it the key of the outbox; `type` and `biz_id` repeat it.
  datatype EventKey = EventKey(biz: ApptId, kind: EventKind, suffix: Option<nat>)

  datatype EventStatus = Pending | Processing | Processed | Withdrawn | Failed
  datatype EventRow = EventRow(scheduled: Option<int>, status: EventStatus, cancelledAt: Option<int>, createdAt: int)

  type Slots = map<SlotId, SlotRow>
  type Appts = map<ApptId, ApptRow>
  type Exceptions = map<ExcId, ExcRow>
  type Overrides = map<OverrideId, Override>
  type Events = map<EventKey, EventRow>

  datatype Tables = Tables(
    slots: Slots, appts: Appts, exceptions: Exceptions,
    overrides: Overrides, events: Events, companies: set<Fingerprint>)

  const EMPTY := Tables(map[], map[], map[], map[], map[], {})

  datatype Code =
    | OwnerLockedError | SlotTaken | DupAccount | DupCompany | NotFound | PermDenied
    | TerminalState | VersionConflict | InvalidRequest | DupException | Internal

  function LocalDay(t: int): int {
    (t + SHANGHAI) / DAY
  }

  predicate Live(r: ApptRow) {
    r.status == Active || r.status == Completed
  }
}
