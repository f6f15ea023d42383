// What holds of the booking tables between transactions.
module BookingInvariants {
  import opened Options
  import opened BookingTables
  import opened BookingStatements
  import opened BookingTransactions

  // ---- slots and the appointments that own them ----

  ghost predicate SlotOk(r: SlotRow) {
    && r.end == r.start + SLOT
    && r.start % SLOT == 0
    && (r.status == Booked <==> r.owner.Some?)
  }

  ghost predicate SlotsOk(slots: Slots) {
    && (forall s :: s in slots ==> SlotOk(slots[s]))
    && (forall s, s' :: s in slots && s' in slots && slots[s].start == slots[s'].start ==> s == s')
  }

  ghost predicate OwnersLive(slots: Slots, appts: Appts) {
    forall s :: s in slots && slots[s].owner.Some? ==>
      slots[s].owner.value in appts && Live(appts[slots[s].owner.value])
  }

  ghost predicate OwnsExactly(slots: Slots, a: ApptId, s0: SlotId, s1: SlotId, s2: SlotId) {
    && s0 in slots && s1 in slots && s2 in slots
    && (forall s :: s in slots ==> (slots[s].owner == Some(a) <==> s == s0 || s == s1 || s == s2))
  }

  ghost predicate Consecutive(slots: Slots, start: int, s0: SlotId, s1: SlotId, s2: SlotId)
    requires s0 in slots && s1 in slots && s2 in slots
  {
    && slots[s0].start == start && slots[s1].start == start + SLOT && slots[s2].start == start + 2 * SLOT
    && LocalDay(start) == LocalDay(start + 2 * SLOT)
  }

  // The slots of `a` are exactly three, tile [start, start + 90 minutes) and lie on one local day.
  ghost predicate Tiled(slots: Slots, a: ApptId, start: int) {
    exists s0, s1, s2 :: OwnsExactly(slots, a, s0, s1, s2) && Consecutive(slots, start, s0, s1, s2)
  }

  ghost predicate OwnsNone(slots: Slots, a: ApptId) {
    forall s :: s in slots ==> slots[s].owner != Some(a)
  }

  ghost predicate ApptsTiled(slots: Slots, appts: Appts) {
    forall a :: a in appts ==>
      && appts[a].end == appts[a].start + APPOINTMENT
      && appts[a].version >= 1
      && (if Live(appts[a]) then Tiled(slots, a, appts[a].start) else OwnsNone(slots, a))
  }

  ghost predicate OwnershipInv(t: Tables) {
    SlotsOk(t.slots) && OwnersLive(t.slots, t.appts) && ApptsTiled(t.slots, t.appts)
  }

  // ---- uniqueness of active appointments, and exceptions ----

  ghost predicate UniqueInv(appts: Appts) {
    forall a, b :: a in appts && b in appts && a != b ==>
      && (appts[a].status == Active && appts[b].status == Active ==>
            && appts[a].user != appts[b].user
            && (appts[a].exc == None && appts[b].exc == None ==> appts[a].company != appts[b].company))
      && (appts[a].exc.Some? ==> appts[a].exc != appts[b].exc)
  }

  ghost predicate Names(appts: Appts, a: ApptId, e: ExcId) {
    a in appts && appts[a].exc == Some(e)
  }

  predicate SameOpen(e: ExcRow, f: ExcRow) {
    e.user == f.user && e.company == f.company && e.consumedAt == None && f.consumedAt == None
  }

  ghost predicate ExceptionInv(appts: Appts, exceptions: Exceptions) {
    && (forall a :: a in appts && appts[a].exc.Some? ==>
          && appts[a].exc.value in exceptions
          && exceptions[appts[a].exc.value].consumedAt.Some?
          && exceptions[appts[a].exc.value].user == appts[a].user
          && exceptions[appts[a].exc.value].company == appts[a].company)
    && (forall e :: e in exceptions && exceptions[e].consumedAt.Some? ==> exists a :: Names(appts, a, e))
    && (forall e, f :: e in exceptions && f in exceptions && e != f ==> !SameOpen(exceptions[e], exceptions[f]))
  }

  // ---- the outbox ----

  // The keys an appointment can have written by the time it is in this state.
  ghost predicate KeyOk(appts: Appts, k: EventKey) {
    && k.biz in appts
    && match k.kind
       case AppointmentCreated => k.suffix == None
       case ReminderDue => k.suffix == None || k.suffix.value <= appts[k.biz].version
       case Rescheduled => k.suffix.Some? && k.suffix.value <= appts[k.biz].version
       case DetailsUpdated => k.suffix.Some? && k.suffix.value <= appts[k.biz].version
       case AppointmentCancelled => k.suffix == None && appts[k.biz].status == Cancelled
       case AppointmentCompleted => k.suffix == None && appts[k.biz].status == Completed
  }

  ghost predicate KeyInv(appts: Appts, events: Events) {
    forall k :: k in events ==> KeyOk(appts, k)
  }

  ghost predicate PendingReminder(events: Events, a: ApptId, k: EventKey) {
    k in events && k.biz == a && k.kind == ReminderDue && events[k].status == Pending
  }

  ghost predicate SoleReminder(events: Events, a: ApptId, k: EventKey, at: int) {
    && PendingReminder(events, a, k)
    && events[k].scheduled == Some(at)
    && (forall k' :: PendingReminder(events, a, k') ==> k' == k)
  }

  ghost predicate HasSoleReminder(events: Events, a: ApptId, at: int) {
    exists k :: SoleReminder(events, a, k, at)
  }

  ghost predicate NoReminder(events: Events, a: ApptId) {
    forall k :: !PendingReminder(events, a, k)
  }

  // Holds of runs of booking transactions alone: workers claim reminders.
  ghost predicate ReminderInv(appts: Appts, events: Events) {
    forall a :: a in appts ==>
      if appts[a].status == Active
      then HasSoleReminder(events, a, appts[a].start - REMINDER_LEAD)
      else NoReminder(events, a)
  }

  ghost predicate Inv(t: Tables) {
    && OwnershipInv(t)
    && UniqueInv(t.appts)
    && ExceptionInv(t.appts, t.exceptions)
    && KeyInv(t.appts, t.events)
  }

  // ---- change from one committed state to the next ----

  // Slots are never deleted or moved, and any visible change bumps the version.
  ghost predicate SlotsAdvance(slots: Slots, slots': Slots) {
    forall s :: s in slots ==>
      && s in slots'
      && slots'[s].start == slots[s].start && slots'[s].end == slots[s].end
      && slots'[s].version >= slots[s].version
      && (slots'[s].version == slots[s].version ==> slots'[s] == slots[s])
  }

  // Appointments are never deleted, their owner and company never change, their
  // versions never fall and a terminal state is final.
  ghost predicate ApptsAdvance(appts: Appts, appts': Appts) {
    forall a :: a in appts ==>
      && a in appts'
      && appts'[a].user == appts[a].user && appts'[a].company == appts[a].company
      && appts'[a].exc == appts[a].exc
      && appts'[a].version >= appts[a].version
      && (appts'[a].version == appts[a].version ==> appts'[a] == appts[a])
      && (appts[a].status != Active ==> appts'[a] == appts[a])
  }

  // A booking transaction adds pending events and withdraws pending ones; it
  // does not touch an event that a worker has claimed.
  ghost predicate EventsAdvance(events: Events, events': Events) {
    && (forall k :: k in events ==>
          && k in events'
          && (events'[k] == events[k]
              || (events[k].status == Pending && events'[k].status == Withdrawn && k.kind == ReminderDue)))
    && (forall k :: k in events' && k !in events ==> events'[k].status == Pending || events'[k].status == Withdrawn)
  }

  ghost predicate Advance(t: Tables, t': Tables) {
    SlotsAdvance(t.slots, t'.slots) && ApptsAdvance(t.appts, t'.appts) && EventsAdvance(t.events, t'.events)
  }
}
