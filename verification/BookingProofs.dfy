// Every booking transaction keeps the invariants of the tables.
module BookingProofs {
  import opened Options
  import opened BookingTables
  import opened BookingStatements
  import opened BookingTransactions
  import opened BookingInvariants

  // ---- slots ----

  // What a validated selection is: three available slots in a row on one day.
  ghost predicate Bookable(slots: Slots, ids: seq<SlotId>, start: int, s0: SlotId, s1: SlotId, s2: SlotId) {
    && s0 in slots && s1 in slots && s2 in slots
    && slots[s0].status == Available && slots[s1].status == Available && slots[s2].status == Available
    && Consecutive(slots, start, s0, s1, s2)
    && (forall s :: s in slots ==> (s in ids <==> s == s0 || s == s1 || s == s2))
  }

  lemma TripleAccepted(slots: Slots, ids: seq<SlotId>, ord: seq<SlotId>)
    requires SlotsOk(slots) && (forall s :: s in ord ==> s in slots)
    requires Validate(slots, ord) == None
    requires forall s :: s in ord <==> s in ids && s in slots
    ensures |ord| == 3 && Bookable(slots, ids, slots[ord[0]].start, ord[0], ord[1], ord[2])
  {
    assert ord[0] in ord && ord[1] in ord && ord[2] in ord;
    assert forall s :: s in ord <==> s == ord[0] || s == ord[1] || s == ord[2];
  }

  // A selection that passes validation is three available slots in a row on one day.
  lemma ValidateAccepts(slots: Slots, ids: seq<SlotId>)
    requires SlotsOk(slots)
    ensures var ord := InOrder(slots, ids);
            Validate(slots, ord) == None ==>
              |ord| == 3 && Bookable(slots, ids, slots[ord[0]].start, ord[0], ord[1], ord[2])
  {
    var ord := InOrder(slots, ids);
    if Validate(slots, ord) == None {
      TripleAccepted(slots, ids, ord);
    }
  }

  lemma BookingTiles(slots: Slots, ids: seq<SlotId>, a: ApptId, start: int, s0: SlotId, s1: SlotId, s2: SlotId)
    requires SlotsOk(slots) && OwnsNone(slots, a)
    requires Bookable(slots, ids, start, s0, s1, s2)
    ensures var slots' := BookedFor(slots, ids, a);
            && SlotsOk(slots')
            && Tiled(slots', a, start)
            && (forall b, at :: b != a && Tiled(slots, b, at) ==> Tiled(slots', b, at))
            && (forall b :: b != a && OwnsNone(slots, b) ==> OwnsNone(slots', b))
  {
    var slots' := BookedFor(slots, ids, a);
    assert OwnsExactly(slots', a, s0, s1, s2) && Consecutive(slots', start, s0, s1, s2);
    forall b, at | b != a && Tiled(slots, b, at) ensures Tiled(slots', b, at) {
      TiledFrame(slots, slots', b, at);
    }
  }

  ghost predicate SameTimes(slots: Slots, slots': Slots) {
    forall s :: s in slots ==> s in slots' && slots'[s].start == slots[s].start && slots'[s].end == slots[s].end
  }

  ghost predicate SameSlotsOf(slots: Slots, slots': Slots, b: ApptId) {
    forall s :: s in slots' && slots'[s].owner == Some(b) <==> s in slots && slots[s].owner == Some(b)
  }

  lemma TiledFrame(slots: Slots, slots': Slots, b: ApptId, at: int)
    requires Tiled(slots, b, at)
    requires SameTimes(slots, slots') && SameSlotsOf(slots, slots', b)
    ensures Tiled(slots', b, at)
  {
    var s0, s1, s2 :| OwnsExactly(slots, b, s0, s1, s2) && Consecutive(slots, at, s0, s1, s2);
    assert OwnsExactly(slots', b, s0, s1, s2) && Consecutive(slots', at, s0, s1, s2);
  }

  // Freeing the slots of one appointment, to any status but booked, leaves the others alone.
  ghost predicate Freed(slots: Slots, slots': Slots, a: ApptId) {
    && slots'.Keys == slots.Keys
    && (forall s :: s in slots ==>
          if slots[s].owner == Some(a)
          then slots'[s].start == slots[s].start && slots'[s].end == slots[s].end
            && slots'[s].status != Booked && slots'[s].owner == None && slots'[s].version == slots[s].version + 1
          else slots'[s] == slots[s])
  }

  lemma FreeingKeepsOthers(slots: Slots, slots': Slots, a: ApptId)
    requires SlotsOk(slots) && Freed(slots, slots', a)
    ensures SlotsOk(slots') && OwnsNone(slots', a)
    ensures forall b, at :: b != a && Tiled(slots, b, at) ==> Tiled(slots', b, at)
    ensures forall b :: OwnsNone(slots, b) ==> OwnsNone(slots', b)
  {
    forall b, at | b != a && Tiled(slots, b, at) ensures Tiled(slots', b, at) {
      TiledFrame(slots, slots', b, at);
    }
  }

  // Recomputing free slots and adding new free ones leaves every ownership alone.
  ghost predicate OnlyFreeChange(slots: Slots, slots': Slots) {
    && SameTimes(slots, slots')
    && (forall s :: s in slots ==>
          slots'[s].owner == slots[s].owner && (slots'[s].status == Booked <==> slots[s].status == Booked))
    && (forall s :: s in slots' && s !in slots ==> slots'[s].owner == None && slots'[s].status != Booked)
  }

  lemma FreeChangeKeepsOwnership(slots: Slots, slots': Slots, appts: Appts)
    requires OnlyFreeChange(slots, slots') && SlotsOk(slots')
    requires OwnersLive(slots, appts) && ApptsTiled(slots, appts)
    ensures OwnersLive(slots', appts) && ApptsTiled(slots', appts)
  {
    forall a | a in appts && Live(appts[a]) ensures Tiled(slots', a, appts[a].start) {
      TiledFrame(slots, slots', a, appts[a].start);
    }
  }

  // ---- the completion sweep ----

  lemma SweepAdvances(t: Tables, now: int, user: Option<UserId>)
    ensures Advance(t, Sweep(t, now, user))
  {}

  lemma SweepKeepsOwnership(t: Tables, now: int, user: Option<UserId>)
    requires OwnershipInv(t)
    ensures OwnershipInv(Sweep(t, now, user))
  {
    var appts' := SweptAppts(t.appts, now, user);
    assert forall a :: a in t.appts ==> (Live(appts'[a]) <==> Live(t.appts[a]));
  }

  lemma SweepKeepsUnique(appts: Appts, now: int, user: Option<UserId>)
    requires UniqueInv(appts)
    ensures UniqueInv(SweptAppts(appts, now, user))
  {}

  lemma SweepKeepsExceptions(appts: Appts, exceptions: Exceptions, now: int, user: Option<UserId>)
    requires ExceptionInv(appts, exceptions)
    ensures ExceptionInv(SweptAppts(appts, now, user), exceptions)
  {
    var appts' := SweptAppts(appts, now, user);
    forall e | e in exceptions && exceptions[e].consumedAt.Some? ensures exists a :: Names(appts', a, e) {
      var a :| Names(appts, a, e);
      assert Names(appts', a, e);
    }
  }

  lemma SweepKeepsKeys(t: Tables, now: int, user: Option<UserId>)
    requires KeyInv(t.appts, t.events)
    ensures KeyInv(Sweep(t, now, user).appts, Sweep(t, now, user).events)
  {
    var t' := Sweep(t, now, user);
    forall k | k in t'.events ensures KeyOk(t'.appts, k) {
      if k in t.events {
        assert KeyOk(t.appts, k);
      }
    }
  }

  lemma SweepKeepsInv(t: Tables, now: int, user: Option<UserId>)
    requires Inv(t)
    ensures Inv(Sweep(t, now, user))
  {
    SweepKeepsOwnership(t, now, user);
    SweepKeepsUnique(t.appts, now, user);
    SweepKeepsExceptions(t.appts, t.exceptions, now, user);
    SweepKeepsKeys(t, now, user);
  }

  lemma SweepKeepsReminders(appts: Appts, events: Events, now: int, user: Option<UserId>)
    requires ReminderInv(appts, events)
    ensures ReminderInv(SweptAppts(appts, now, user), SweptEvents(events, appts, now, user))
  {
    var appts', events' := SweptAppts(appts, now, user), SweptEvents(events, appts, now, user);
    assert forall a, k :: PendingReminder(events', a, k) ==> PendingReminder(events, a, k) && events'[k] == events[k];
    forall a | a in appts' && appts'[a].status == Active
      ensures HasSoleReminder(events', a, appts'[a].start - REMINDER_LEAD)
    {
      var k :| SoleReminder(events, a, k, appts[a].start - REMINDER_LEAD);
      assert SoleReminder(events', a, k, appts[a].start - REMINDER_LEAD);
    }
  }

  // ---- one appointment row changes ----

  ghost predicate RowAdvances(r: ApptRow, r': ApptRow) {
    && r.status == Active
    && r'.user == r.user && r'.company == r.company && r'.exc == r.exc
    && r'.version == r.version + 1
  }

  lemma RowKeepsUnique(appts: Appts, a: ApptId, r: ApptRow)
    requires UniqueInv(appts) && a in appts && RowAdvances(appts[a], r)
    ensures UniqueInv(appts[a := r])
  {}

  lemma RowKeepsExceptions(appts: Appts, exceptions: Exceptions, a: ApptId, r: ApptRow)
    requires ExceptionInv(appts, exceptions) && a in appts && RowAdvances(appts[a], r)
    ensures ExceptionInv(appts[a := r], exceptions)
  {
    var appts' := appts[a := r];
    forall e | e in exceptions && exceptions[e].consumedAt.Some? ensures exists b :: Names(appts', b, e) {
      var b :| Names(appts, b, e);
      assert Names(appts', b, e);
    }
  }

  lemma KeysKept(appts: Appts, events: Events, appts': Appts, events': Events)
    requires KeyInv(appts, events) && ApptsAdvance(appts, appts')
    requires forall k :: k in events' ==> k in events || KeyOk(appts', k)
    ensures KeyInv(appts', events')
  {
    forall k | k in events' ensures KeyOk(appts', k) {
      if k in events {
        assert KeyOk(appts, k);
      }
    }
  }

  // What the outbox writes of one transaction do to the reminders of its
  // appointment: they withdraw the old one and add at most one.
  lemma ReminderReplaced(appts: Appts, events: Events, events': Events, a: ApptId, r: ApptRow, k: EventKey)
    requires ReminderInv(appts, events)
    requires r.status == Active && SoleReminder(events', a, k, r.start - REMINDER_LEAD)
    requires forall b, k' :: b != a ==> (PendingReminder(events', b, k') <==> PendingReminder(events, b, k'))
    requires forall k' :: k' in events && k'.biz != a ==> k' in events' && events'[k'] == events[k']
    ensures ReminderInv(appts[a := r], events')
  {
    RemindersOfOthers(appts, events, events', a);
    assert HasSoleReminder(events', a, r.start - REMINDER_LEAD);
  }

  lemma ReminderDropped(appts: Appts, events: Events, events': Events, a: ApptId, r: ApptRow)
    requires ReminderInv(appts, events)
    requires r.status != Active && NoReminder(events', a)
    requires forall b, k' :: b != a ==> (PendingReminder(events', b, k') <==> PendingReminder(events, b, k'))
    requires forall k' :: k' in events && k'.biz != a ==> k' in events' && events'[k'] == events[k']
    ensures ReminderInv(appts[a := r], events')
  {
    RemindersOfOthers(appts, events, events', a);
  }

  lemma RemindersOfOthers(appts: Appts, events: Events, events': Events, a: ApptId)
    requires ReminderInv(appts, events)
    requires forall b, k' :: b != a ==> (PendingReminder(events', b, k') <==> PendingReminder(events, b, k'))
    requires forall k' :: k' in events && k'.biz != a ==> k' in events' && events'[k'] == events[k']
    ensures forall b :: b in appts && b != a ==>
              if appts[b].status == Active then HasSoleReminder(events', b, appts[b].start - REMINDER_LEAD)
              else NoReminder(events', b)
  {
    forall b | b in appts && b != a && appts[b].status == Active
      ensures HasSoleReminder(events', b, appts[b].start - REMINDER_LEAD)
    {
      var k :| SoleReminder(events, b, k, appts[b].start - REMINDER_LEAD);
      assert PendingReminder(events, b, k);
      assert SoleReminder(events', b, k, appts[b].start - REMINDER_LEAD);
    }
  }

  // ---- create ----

  lemma FreshKeys(appts: Appts, events: Events, a: ApptId)
    requires KeyInv(appts, events)
    ensures a !in appts ==> forall k :: k in events ==> k.biz != a
    ensures a in appts ==> forall v: nat :: appts[a].version < v ==>
              RescheduleKey(a, v) !in events && ReminderKey(a, v) !in events && DetailsKey(a, v) !in events
    ensures a in appts && appts[a].status == Active ==> CancelKey(a) !in events && CompletionKey(a) !in events
  {
    if a in appts {
      forall v: nat | appts[a].version < v
        ensures RescheduleKey(a, v) !in events && ReminderKey(a, v) !in events && DetailsKey(a, v) !in events
      {
        assert !KeyOk(appts, RescheduleKey(a, v)) && !KeyOk(appts, ReminderKey(a, v))
               && !KeyOk(appts, DetailsKey(a, v));
      }
      assert appts[a].status == Active ==> !KeyOk(appts, CancelKey(a)) && !KeyOk(appts, CompletionKey(a));
    }
  }

  lemma BookingKeepsOwnership(t: Tables, slots: Slots, ids: seq<SlotId>, a: ApptId, r: ApptRow,
                              s0: SlotId, s1: SlotId, s2: SlotId)
    requires SlotsOk(slots) && OwnersLive(slots, t.appts) && OwnsNone(slots, a)
    requires forall b :: b in t.appts && b != a ==>
      && t.appts[b].end == t.appts[b].start + APPOINTMENT && t.appts[b].version >= 1
      && (if Live(t.appts[b]) then Tiled(slots, b, t.appts[b].start) else OwnsNone(slots, b))
    requires r.status == Active && r.end == r.start + APPOINTMENT && r.version >= 1
    requires Bookable(slots, ids, r.start, s0, s1, s2)
    ensures OwnershipInv(t.(slots := BookedFor(slots, ids, a), appts := t.appts[a := r]))
  {
    BookingTiles(slots, ids, a, r.start, s0, s1, s2);
  }

  lemma ConsumeKeepsExceptions(appts: Appts, exceptions: Exceptions, id: ApptId, r: ApptRow, now: int)
    requires ExceptionInv(appts, exceptions) && id !in appts
    requires r.exc.Some? ==>
      && r.exc.value in exceptions && exceptions[r.exc.value].consumedAt == None
      && exceptions[r.exc.value].user == r.user && exceptions[r.exc.value].company == r.company
    ensures ExceptionInv(appts[id := r], Consume(exceptions, r.exc, now))
  {
    var appts', exceptions' := appts[id := r], Consume(exceptions, r.exc, now);
    forall e | e in exceptions' && exceptions'[e].consumedAt.Some? ensures exists a :: Names(appts', a, e) {
      if r.exc == Some(e) {
        assert Names(appts', id, e);
      } else {
        var a :| Names(appts, a, e);
        assert Names(appts', a, e);
      }
    }
    forall e, f | e in exceptions' && f in exceptions' && e != f ensures !SameOpen(exceptions'[e], exceptions'[f]) {
      assert !SameOpen(exceptions[e], exceptions[f]);
    }
  }

  // What a committed creation has checked and written.
  lemma CreatedFacts(
    t: Tables, id: ApptId, user: UserId, company: Fingerprint, ids: seq<SlotId>, details: nat, now: int)
    returns (r: ApptRow, s0: SlotId, s1: SlotId, s2: SlotId)
    requires Inv(t)
    requires CreateSwept(t, id, user, company, ids, details, now).Committed?
    ensures r == NewRow(user, company, ExceptionToSpend(t, user, company, now), r.start, details)
    ensures Bookable(t.slots, ids, r.start, s0, s1, s2)
    ensures InsertViolations(t.appts, id, r.user, r.company, r.exc) == {} && id !in t.appts
    ensures CreateSwept(t, id, user, company, ids, details, now).t == Entered(t, id, ids, now, r)
  {
    var ord := InOrder(t.slots, ids);
    ValidateAccepts(t.slots, ids);
    s0, s1, s2 := ord[0], ord[1], ord[2];
    r := NewRow(user, company, ExceptionToSpend(t, user, company, now), t.slots[s0].start, details);
    InsertedFacts(t, id, ids, now, r);
  }

  lemma InsertedFacts(t: Tables, id: ApptId, ids: seq<SlotId>, now: int, r: ApptRow)
    requires InsertAppointment(t, id, ids, now, r).Committed?
    ensures InsertViolations(t.appts, id, r.user, r.company, r.exc) == {} && id !in t.appts
    ensures InsertAppointment(t, id, ids, now, r).t == Entered(t, id, ids, now, r)
  {
    assert Internal !in InsertViolations(t.appts, id, r.user, r.company, r.exc);
  }

  lemma InsertKeepsUnique(appts: Appts, id: ApptId, r: ApptRow)
    requires UniqueInv(appts) && InsertViolations(appts, id, r.user, r.company, r.exc) == {}
    ensures UniqueInv(appts[id := r])
  {
    var bad := InsertViolations(appts, id, r.user, r.company, r.exc);
    assert Internal !in bad && DupAccount !in bad && DupCompany !in bad;
  }

  lemma BookedAdvances(slots: Slots, ids: seq<SlotId>, a: ApptId)
    ensures SlotsAdvance(slots, BookedFor(slots, ids, a))
  {}

  lemma EnteredAdvances(t: Tables, id: ApptId, ids: seq<SlotId>, now: int, r: ApptRow)
    requires id !in t.appts && KeyInv(t.appts, t.events)
    ensures Advance(t, Entered(t, id, ids, now, r))
  {
    FreshKeys(t.appts, t.events, id);
    BookedAdvances(t.slots, ids, id);
  }

  lemma EnteredKeepsKeys(t: Tables, id: ApptId, ids: seq<SlotId>, now: int, r: ApptRow)
    requires id !in t.appts && KeyInv(t.appts, t.events)
    ensures KeyInv(Entered(t, id, ids, now, r).appts, Entered(t, id, ids, now, r).events)
  {
    KeysKept(t.appts, t.events, Entered(t, id, ids, now, r).appts, Entered(t, id, ids, now, r).events);
  }

  lemma EnteredKeepsOwnership(t: Tables, id: ApptId, ids: seq<SlotId>, now: int, r: ApptRow,
                              s0: SlotId, s1: SlotId, s2: SlotId)
    requires OwnershipInv(t) && id !in t.appts
    requires r.status == Active && r.end == r.start + APPOINTMENT && r.version == 1
    requires Bookable(t.slots, ids, r.start, s0, s1, s2)
    ensures OwnershipInv(Entered(t, id, ids, now, r))
  {
    assert OwnsNone(t.slots, id);
    BookingKeepsOwnership(t, t.slots, ids, id, r, s0, s1, s2);
  }

  lemma EnteredKeepsReminders(t: Tables, id: ApptId, ids: seq<SlotId>, now: int, r: ApptRow)
    requires KeyInv(t.appts, t.events) && id !in t.appts && ReminderInv(t.appts, t.events) && r.status == Active
    ensures ReminderInv(Entered(t, id, ids, now, r).appts, Entered(t, id, ids, now, r).events)
  {
    var events' := Entered(t, id, ids, now, r).events;
    FreshKeys(t.appts, t.events, id);
    assert SoleReminder(events', id, FirstReminderKey(id), r.start - REMINDER_LEAD);
    ReminderReplaced(t.appts, t.events, events', id, r, FirstReminderKey(id));
  }

  // ---- reschedule ----

  lemma MovedKeepsOwnership(t: Tables, a: ApptId, freed: Slots, ids: seq<SlotId>, now: int, r: ApptRow,
                            s0: SlotId, s1: SlotId, s2: SlotId)
    requires OwnershipInv(t) && a in t.appts && Freed(t.slots, freed, a)
    requires r.status == Active && r.end == r.start + APPOINTMENT && r.version >= 1
    requires Bookable(t.slots, ids, r.start, s0, s1, s2)
    ensures OwnershipInv(Moved(t, a, freed, ids, now, r))
  {
    FreeingKeepsOthers(t.slots, freed, a);
    OwnersAfterFreeing(t.slots, freed, t.appts, a);
    BookableAfterFreeing(t.slots, freed, a, ids, r.start, s0, s1, s2);
    BookingKeepsOwnership(t, freed, ids, a, r, s0, s1, s2);
  }

  lemma OwnersAfterFreeing(slots: Slots, freed: Slots, appts: Appts, a: ApptId)
    requires OwnersLive(slots, appts) && Freed(slots, freed, a)
    ensures OwnersLive(freed, appts)
  {}

  lemma BookableAfterFreeing(slots: Slots, freed: Slots, a: ApptId, ids: seq<SlotId>, start: int,
                             s0: SlotId, s1: SlotId, s2: SlotId)
    requires SlotsOk(slots) && Freed(slots, freed, a) && Bookable(slots, ids, start, s0, s1, s2)
    ensures Bookable(freed, ids, start, s0, s1, s2)
  {
    assert SlotOk(slots[s0]) && SlotOk(slots[s1]) && SlotOk(slots[s2]);
  }

  lemma MovedAdvances(t: Tables, a: ApptId, freed: Slots, ids: seq<SlotId>, now: int, r: ApptRow)
    requires KeyInv(t.appts, t.events) && a in t.appts && RowAdvances(t.appts[a], r) && Freed(t.slots, freed, a)
    ensures Advance(t, Moved(t, a, freed, ids, now, r))
  {
    FreshKeys(t.appts, t.events, a);
    BookedAdvances(freed, ids, a);
  }

  lemma MovedKeepsKeys(t: Tables, a: ApptId, freed: Slots, ids: seq<SlotId>, now: int, r: ApptRow)
    requires KeyInv(t.appts, t.events) && a in t.appts && RowAdvances(t.appts[a], r)
    ensures KeyInv(Moved(t, a, freed, ids, now, r).appts, Moved(t, a, freed, ids, now, r).events)
  {
    KeysKept(t.appts, t.events, t.appts[a := r], Moved(t, a, freed, ids, now, r).events);
  }

  lemma MovedKeepsReminders(t: Tables, a: ApptId, freed: Slots, ids: seq<SlotId>, now: int, r: ApptRow)
    requires KeyInv(t.appts, t.events) && a in t.appts && RowAdvances(t.appts[a], r)
    requires ReminderInv(t.appts, t.events) && r.status == Active
    ensures ReminderInv(Moved(t, a, freed, ids, now, r).appts, Moved(t, a, freed, ids, now, r).events)
  {
    var events' := Moved(t, a, freed, ids, now, r).events;
    FreshKeys(t.appts, t.events, a);
    assert SoleReminder(events', a, ReminderKey(a, r.version), r.start - REMINDER_LEAD);
    ReminderReplaced(t.appts, t.events, events', a, r, ReminderKey(a, r.version));
  }

  lemma MovedSound(t: Tables, a: ApptId, freed: Slots, ids: seq<SlotId>, now: int, r: ApptRow,
                   s0: SlotId, s1: SlotId, s2: SlotId)
    requires Inv(t) && a in t.appts && Freed(t.slots, freed, a) && RowAdvances(t.appts[a], r)
    requires r.status == Active && r.end == r.start + APPOINTMENT
    requires Bookable(t.slots, ids, r.start, s0, s1, s2)
    ensures Sound(t, Committed(Moved(t, a, freed, ids, now, r)))
  {
    MovedKeepsOwnership(t, a, freed, ids, now, r, s0, s1, s2);
    MovedKeepsKeys(t, a, freed, ids, now, r);
    MovedAdvances(t, a, freed, ids, now, r);
    RowKeepsUnique(t.appts, a, r);
    RowKeepsExceptions(t.appts, t.exceptions, a, r);
    if ReminderInv(t.appts, t.events) {
      MovedKeepsReminders(t, a, freed, ids, now, r);
    }
  }

  lemma RescheduledFacts(t: Tables, a: ApptId, ids: seq<SlotId>, now: int, pick: map<SlotId, SlotStatus>)
    returns (r: ApptRow, s0: SlotId, s1: SlotId, s2: SlotId)
    requires OwnershipInv(t) && a in t.appts && t.appts[a].status == Active
    requires Reschedule(t, a, ids, now, pick).Committed?
    ensures RowAdvances(t.appts[a], r) && r.status == Active && r.end == r.start + APPOINTMENT && r.version >= 1
    ensures Bookable(t.slots, ids, r.start, s0, s1, s2)
    ensures Reschedule(t, a, ids, now, pick).t == Moved(t, a, Released(t.slots, t.overrides, a, pick), ids, now, r)
  {
    var ord := InOrder(t.slots, ids);
    ValidateAccepts(t.slots, ids);
    s0, s1, s2 := ord[0], ord[1], ord[2];
    r := MovedRow(t.appts[a], t.slots[s0].start);
  }

  // ---- every transaction ----

  // What each transaction is proved to do with the tables it commits.
  ghost predicate Sound(t: Tables, out: Outcome) {
    out.Committed? ==>
      && Inv(out.t)
      && Advance(t, out.t)
      && (ReminderInv(t.appts, t.events) ==> ReminderInv(out.t.appts, out.t.events))
  }

  lemma SlotsAdvanceTrans(a: Slots, b: Slots, c: Slots)
    requires SlotsAdvance(a, b) && SlotsAdvance(b, c)
    ensures SlotsAdvance(a, c)
  {}

  lemma ApptsAdvanceTrans(a: Appts, b: Appts, c: Appts)
    requires ApptsAdvance(a, b) && ApptsAdvance(b, c)
    ensures ApptsAdvance(a, c)
  {}

  lemma EventsAdvanceTrans(a: Events, b: Events, c: Events)
    requires EventsAdvance(a, b) && EventsAdvance(b, c)
    ensures EventsAdvance(a, c)
  {}

  lemma AdvanceTrans(a: Tables, b: Tables, c: Tables)
    requires Advance(a, b) && Advance(b, c)
    ensures Advance(a, c)
  {
    SlotsAdvanceTrans(a.slots, b.slots, c.slots);
    ApptsAdvanceTrans(a.appts, b.appts, c.appts);
    EventsAdvanceTrans(a.events, b.events, c.events);
  }

  lemma RescheduleSound(t: Tables, a: ApptId, ids: seq<SlotId>, now: int, pick: map<SlotId, SlotStatus>)
    requires Inv(t) && a in t.appts && t.appts[a].status == Active
    ensures Sound(t, Reschedule(t, a, ids, now, pick))
  {
    if Reschedule(t, a, ids, now, pick).Committed? {
      var r, s0, s1, s2 := RescheduledFacts(t, a, ids, now, pick);
      ReleasedFreed(t.slots, t.overrides, a, pick);
      MovedSound(t, a, Released(t.slots, t.overrides, a, pick), ids, now, r, s0, s1, s2);
    }
  }

  lemma AdminRescheduleSound(t: Tables, a: ApptId, ids: seq<SlotId>, now: int, pick: map<SlotId, SlotStatus>)
    requires Inv(t)
    ensures Sound(t, AdminReschedule(t, a, ids, now, pick))
  {
    if a in t.appts && t.appts[a].status == Active {
      RescheduleSound(t, a, ids, now, pick);
    }
  }

  lemma PatchSound(t: Tables, a: ApptId, details: nat, now: int)
    requires Inv(t) && a in t.appts && t.appts[a].status == Active
    ensures Sound(t, Patch(t, a, details, now))
  {
    if Patch(t, a, details, now).Committed? {
      PatchedSound(t, a, now, PatchedRow(t.appts[a], details));
    }
  }

  lemma PatchedSound(t: Tables, a: ApptId, now: int, r: ApptRow)
    requires Inv(t) && a in t.appts && RowAdvances(t.appts[a], r)
    requires r.status == Active && r.start == t.appts[a].start && r.end == t.appts[a].end
    ensures Sound(t, Committed(Patched(t, a, now, r)))
  {
    PatchedAdvances(t, a, now, r);
    KeysKept(t.appts, t.events, t.appts[a := r], Patched(t, a, now, r).events);
    RowKeepsUnique(t.appts, a, r);
    RowKeepsExceptions(t.appts, t.exceptions, a, r);
    if ReminderInv(t.appts, t.events) {
      PatchedKeepsReminders(t, a, now, r);
    }
  }

  lemma PatchedAdvances(t: Tables, a: ApptId, now: int, r: ApptRow)
    requires OwnershipInv(t) && KeyInv(t.appts, t.events) && a in t.appts && RowAdvances(t.appts[a], r)
    requires r.status == Active && r.start == t.appts[a].start && r.end == t.appts[a].end
    ensures Advance(t, Patched(t, a, now, r))
    ensures OwnershipInv(Patched(t, a, now, r))
  {
    FreshKeys(t.appts, t.events, a);
  }

  lemma PatchedKeepsReminders(t: Tables, a: ApptId, now: int, r: ApptRow)
    requires ReminderInv(t.appts, t.events) && a in t.appts && RowAdvances(t.appts[a], r)
    requires r.status == Active && r.start == t.appts[a].start
    ensures ReminderInv(Patched(t, a, now, r).appts, Patched(t, a, now, r).events)
  {
    var events' := Patched(t, a, now, r).events;
    var k :| SoleReminder(t.events, a, k, r.start - REMINDER_LEAD);
    assert forall k' :: PendingReminder(events', a, k') ==> PendingReminder(t.events, a, k');
    assert SoleReminder(events', a, k, r.start - REMINDER_LEAD);
    ReminderReplaced(t.appts, t.events, events', a, r, k);
  }

  lemma EndedKeepsOwnership(t: Tables, a: ApptId, slots: Slots, now: int, r: ApptRow)
    requires OwnershipInv(t) && a in t.appts && Freed(t.slots, slots, a)
    requires r.status == Cancelled && r.end == r.start + APPOINTMENT && r.version >= 1
    ensures OwnershipInv(Ended(t, a, slots, now, r))
  {
    FreeingKeepsOthers(t.slots, slots, a);
    EndedOwners(t.slots, slots, t.appts, a, r);
    EndedTiled(t.slots, slots, t.appts, a, r);
  }

  lemma EndedOwners(slots: Slots, slots': Slots, appts: Appts, a: ApptId, r: ApptRow)
    requires OwnersLive(slots, appts) && Freed(slots, slots', a)
    ensures OwnersLive(slots', appts[a := r])
  {}

  lemma EndedTiled(slots: Slots, slots': Slots, appts: Appts, a: ApptId, r: ApptRow)
    requires ApptsTiled(slots, appts) && OwnsNone(slots', a)
    requires r.status == Cancelled && r.end == r.start + APPOINTMENT && r.version >= 1
    requires forall b, at :: b != a && Tiled(slots, b, at) ==> Tiled(slots', b, at)
    requires forall b :: OwnsNone(slots, b) ==> OwnsNone(slots', b)
    ensures ApptsTiled(slots', appts[a := r])
  {}

  lemma EndedKeepsKeys(t: Tables, a: ApptId, slots: Slots, now: int, r: ApptRow)
    requires KeyInv(t.appts, t.events) && a in t.appts && RowAdvances(t.appts[a], r) && r.status == Cancelled
    ensures KeyInv(Ended(t, a, slots, now, r).appts, Ended(t, a, slots, now, r).events)
  {
    KeysKept(t.appts, t.events, t.appts[a := r], Ended(t, a, slots, now, r).events);
  }

  lemma EndedAdvances(t: Tables, a: ApptId, slots: Slots, now: int, r: ApptRow)
    requires KeyInv(t.appts, t.events) && a in t.appts && RowAdvances(t.appts[a], r) && Freed(t.slots, slots, a)
    ensures Advance(t, Ended(t, a, slots, now, r))
  {
    FreshKeys(t.appts, t.events, a);
  }

  lemma EndedKeepsReminders(t: Tables, a: ApptId, slots: Slots, now: int, r: ApptRow)
    requires ReminderInv(t.appts, t.events) && r.status == Cancelled
    ensures ReminderInv(Ended(t, a, slots, now, r).appts, Ended(t, a, slots, now, r).events)
  {
    ReminderDropped(t.appts, t.events, Ended(t, a, slots, now, r).events, a, r);
  }

  lemma EndedSound(t: Tables, a: ApptId, slots: Slots, now: int, r: ApptRow)
    requires Inv(t) && a in t.appts && RowAdvances(t.appts[a], r) && Freed(t.slots, slots, a)
    requires r.status == Cancelled && r.end == r.start + APPOINTMENT && r.version >= 1
    ensures Sound(t, Committed(Ended(t, a, slots, now, r)))
  {
    EndedKeepsOwnership(t, a, slots, now, r);
    EndedAdvances(t, a, slots, now, r);
    EndedKeepsKeys(t, a, slots, now, r);
    RowKeepsUnique(t.appts, a, r);
    RowKeepsExceptions(t.appts, t.exceptions, a, r);
    if ReminderInv(t.appts, t.events) {
      EndedKeepsReminders(t, a, slots, now, r);
    }
  }

  lemma TerminateSound(t: Tables, a: ApptId, slots: Slots, now: int)
    requires Inv(t) && a in t.appts && t.appts[a].status == Active && Freed(t.slots, slots, a)
    ensures Sound(t, Terminate(t, a, slots, now))
  {
    if Terminate(t, a, slots, now).Committed? {
      EndedSound(t, a, slots, now, CancelledRow(t.appts[a], now));
    }
  }

  lemma SweepSound(t: Tables, now: int, user: Option<UserId>)
    requires Inv(t)
    ensures Sound(t, Committed(Sweep(t, now, user)))
  {
    SweepKeepsInv(t, now, user);
    SweepAdvances(t, now, user);
    if ReminderInv(t.appts, t.events) {
      SweepKeepsReminders(t.appts, t.events, now, user);
    }
  }

  // A transaction that sweeps first and then does something sound is sound.
  lemma AfterSweep(t: Tables, now: int, user: Option<UserId>, out: Outcome)
    requires Inv(t)
    requires Sound(Sweep(t, now, user), out)
    ensures Sound(t, out)
  {
    SweepSound(t, now, user);
    if out.Committed? {
      AdvanceTrans(t, Sweep(t, now, user), out.t);
    }
  }

  lemma EnteredSound(t: Tables, id: ApptId, ids: seq<SlotId>, now: int, r: ApptRow, s0: SlotId, s1: SlotId, s2: SlotId)
    requires Inv(t) && id !in t.appts && InsertViolations(t.appts, id, r.user, r.company, r.exc) == {}
    requires r.status == Active && r.end == r.start + APPOINTMENT && r.version == 1
    requires Bookable(t.slots, ids, r.start, s0, s1, s2)
    requires r.exc.Some? ==>
      && r.exc.value in t.exceptions && t.exceptions[r.exc.value].consumedAt == None
      && t.exceptions[r.exc.value].user == r.user && t.exceptions[r.exc.value].company == r.company
    ensures Sound(t, Committed(Entered(t, id, ids, now, r)))
  {
    EnteredKeepsOwnership(t, id, ids, now, r, s0, s1, s2);
    EnteredKeepsKeys(t, id, ids, now, r);
    EnteredAdvances(t, id, ids, now, r);
    InsertKeepsUnique(t.appts, id, r);
    ConsumeKeepsExceptions(t.appts, t.exceptions, id, r, now);
    if ReminderInv(t.appts, t.events) {
      EnteredKeepsReminders(t, id, ids, now, r);
    }
  }

  lemma CreateSweptSound(
    t: Tables, id: ApptId, user: UserId, company: Fingerprint, ids: seq<SlotId>, details: nat, now: int)
    requires Inv(t)
    ensures Sound(t, CreateSwept(t, id, user, company, ids, details, now))
  {
    if CreateSwept(t, id, user, company, ids, details, now).Committed? {
      var r, s0, s1, s2 := CreatedFacts(t, id, user, company, ids, details, now);
      EnteredSound(t, id, ids, now, r, s0, s1, s2);
    }
  }

  lemma CreateSound(t: Tables, id: ApptId, user: UserId, company: Fingerprint, ids: seq<SlotId>, details: nat, now: int)
    requires Inv(t)
    ensures Sound(t, Create(t, id, user, company, ids, details, now))
  {
    SweepKeepsInv(t, now, None);
    CreateSweptSound(Sweep(t, now, None), id, user, company, ids, details, now);
    AfterSweep(t, now, None, Create(t, id, user, company, ids, details, now));
  }

  lemma UpdateSweptSound(
    t: Tables, user: UserId, a: ApptId, version: nat, change: Change, now: int, pick: map<SlotId, SlotStatus>)
    requires Inv(t)
    ensures Sound(t, UpdateSwept(t, user, a, version, change, now, pick))
  {
    if a in t.appts && t.appts[a].status == Active {
      match change
      case NewSlots(ids) => RescheduleSound(t, a, ids, now, pick);
      case NewDetails(details) => PatchSound(t, a, details, now);
      case NoChange =>
    }
  }

  lemma UpdateSound(
    t: Tables, user: UserId, a: ApptId, version: nat, change: Change, now: int, pick: map<SlotId, SlotStatus>)
    requires Inv(t)
    ensures Sound(t, Update(t, user, a, version, change, now, pick))
  {
    SweepKeepsInv(t, now, Some(user));
    UpdateSweptSound(Sweep(t, now, Some(user)), user, a, version, change, now, pick);
    AfterSweep(t, now, Some(user), Update(t, user, a, version, change, now, pick));
  }

  lemma ReleasedFreed(slots: Slots, overrides: Overrides, a: ApptId, pick: map<SlotId, SlotStatus>)
    ensures Freed(slots, Released(slots, overrides, a, pick), a)
  {}

  lemma HardLockedFreed(slots: Slots, a: ApptId)
    ensures Freed(slots, HardLocked(slots, a), a)
  {}

  lemma CancelSweptSound(t: Tables, user: UserId, a: ApptId, now: int, pick: map<SlotId, SlotStatus>)
    requires Inv(t)
    ensures Sound(t, CancelSwept(t, user, a, now, pick))
  {
    var out := CancelSwept(t, user, a, now, pick);
    if a in t.appts && t.appts[a].user == user && t.appts[a].status == Active {
      var slots := Released(t.slots, t.overrides, a, pick);
      ReleasedFreed(t.slots, t.overrides, a, pick);
      TerminateSound(t, a, slots, now);
      assert out == Terminate(t, a, slots, now);
    } else {
      assert out == Committed(t) || out.Aborted?;
    }
  }

  lemma CancelSound(t: Tables, user: UserId, a: ApptId, now: int, pick: map<SlotId, SlotStatus>)
    requires Inv(t)
    ensures Sound(t, Cancel(t, user, a, now, pick))
  {
    SweepKeepsInv(t, now, Some(user));
    CancelSweptSound(Sweep(t, now, Some(user)), user, a, now, pick);
    AfterSweep(t, now, Some(user), Cancel(t, user, a, now, pick));
  }

  lemma ForceCancelSweptSound(t: Tables, a: ApptId, now: int)
    requires Inv(t)
    ensures Sound(t, ForceCancelSwept(t, a, now))
  {
    var out := ForceCancelSwept(t, a, now);
    if a in t.appts && t.appts[a].status == Active {
      var slots := HardLocked(t.slots, a);
      HardLockedFreed(t.slots, a);
      TerminateSound(t, a, slots, now);
      assert out == Terminate(t, a, slots, now);
    } else {
      assert out == Committed(t) || out.Aborted?;
    }
  }

  lemma ForceCancelSound(t: Tables, a: ApptId, now: int)
    requires Inv(t)
    ensures Sound(t, ForceCancel(t, a, now))
  {
    SweepKeepsInv(t, now, None);
    ForceCancelSweptSound(Sweep(t, now, None), a, now);
    AfterSweep(t, now, None, ForceCancel(t, a, now));
  }

  // ---- transactions that touch only free slots, or only exceptions ----

  lemma FreeChangeSound(t: Tables, slots: Slots, overrides: Overrides)
    requires Inv(t) && OnlyFreeChange(t.slots, slots) && SlotsOk(slots) && SlotsAdvance(t.slots, slots)
    ensures Sound(t, Committed(t.(slots := slots, overrides := overrides)))
  {
    FreeChangeKeepsOwnership(t.slots, slots, t.appts);
  }

  lemma RematerializeSound(t: Tables, overrides: Overrides, lo: int, hi: int)
    requires Inv(t)
    ensures Sound(t, Committed(t.(slots := Rematerialized(t.slots, overrides, lo, hi), overrides := overrides)))
  {
    RematerializedFree(t.slots, overrides, lo, hi);
    FreeChangeSound(t, Rematerialized(t.slots, overrides, lo, hi), overrides);
  }

  lemma RematerializedFree(slots: Slots, overrides: Overrides, lo: int, hi: int)
    requires SlotsOk(slots)
    ensures var slots' := Rematerialized(slots, overrides, lo, hi);
            SlotsOk(slots') && OnlyFreeChange(slots, slots') && SlotsAdvance(slots, slots')
  {}

  lemma CreateOverrideSound(t: Tables, id: OverrideId, o: Override)
    requires Inv(t)
    ensures Sound(t, CreateOverride(t, id, o))
  {
    RematerializeSound(t, t.overrides[id := o], o.start, o.end);
  }

  lemma UpdateOverrideSound(t: Tables, id: OverrideId, o: Override)
    requires Inv(t)
    ensures Sound(t, UpdateOverride(t, id, o))
  {
    if id in t.overrides {
      var was := t.overrides[id];
      RematerializeSound(t, t.overrides[id := o], Min(was.start, o.start), Max(was.end, o.end));
    }
  }

  lemma DeleteOverrideSound(t: Tables, id: OverrideId)
    requires Inv(t)
    ensures Sound(t, DeleteOverride(t, id))
  {
    if id in t.overrides {
      RematerializeSound(t, t.overrides - {id}, t.overrides[id].start, t.overrides[id].end);
    }
  }

  lemma CreateExceptionSound(t: Tables, id: ExcId, user: UserId, company: Fingerprint, expiresAt: int, now: int)
    requires Inv(t)
    ensures Sound(t, CreateException(t, id, user, company, expiresAt, now))
  {
    var out := CreateException(t, id, user, company, expiresAt, now);
    if out.Committed? {
      forall e | e in out.t.exceptions && out.t.exceptions[e].consumedAt.Some?
        ensures exists a :: Names(t.appts, a, e)
      {
        assert e in t.exceptions;
      }
    }
  }

  lemma UpsertFree(slots: Slots, row: CalendarRow)
    requires SlotsOk(slots) && row.start % SLOT == 0 && IsFreeStatus(row.status)
    ensures var m := Upsert(slots, row);
            m.Some? ==> SlotsOk(m.value) && OnlyFreeChange(slots, m.value) && SlotsAdvance(slots, m.value)
  {
    UpsertKeepsShape(slots, row);
  }

  lemma UpsertKeepsShape(slots: Slots, row: CalendarRow)
    requires SlotsOk(slots) && row.start % SLOT == 0 && IsFreeStatus(row.status)
    ensures Upsert(slots, row).Some? ==> SlotsOk(Upsert(slots, row).value)
  {
    if Upsert(slots, row).Some? {
      var m := Upsert(slots, row).value;
      forall s | s in m ensures SlotOk(m[s]) {
        assert s in slots ==> SlotOk(slots[s]);
      }
      forall s, s' | s in m && s' in m && m[s].start == m[s'].start ensures s == s' {
        assert s in slots ==> SlotOk(slots[s]);
        assert s' in slots ==> SlotOk(slots[s']);
      }
    }
  }

  predicate IsFreeStatus(status: SlotStatus) {
    status == Available || status == Unavailable
  }

  predicate FreeRows(rows: seq<CalendarRow>) {
    forall i :: 0 <= i < |rows| ==> rows[i].start % SLOT == 0 && IsFreeStatus(rows[i].status)
  }

  lemma {:induction false} UpsertAllFree(slots: Slots, rows: seq<CalendarRow>)
    requires SlotsOk(slots) && FreeRows(rows)
    ensures var m := UpsertAll(slots, rows);
            m.Some? ==> SlotsOk(m.value) && OnlyFreeChange(slots, m.value) && SlotsAdvance(slots, m.value)
    decreases |rows|
  {
    if rows != [] {
      var n := |rows| - 1;
      UpsertAllFree(slots, rows[..n]);
      var m := UpsertAll(slots, rows[..n]);
      if m.Some? && Upsert(m.value, rows[n]).Some? {
        UpsertFree(m.value, rows[n]);
        SlotsAdvanceTrans(slots, m.value, Upsert(m.value, rows[n]).value);
      }
    }
  }

  lemma SlotStartOnGrid(day: int, k: nat)
    ensures SlotStart(day, k) % SLOT == 0
  {
    assert SlotStart(day, k) == SLOT * (day * 48 + 19 + k - 16);
  }

  lemma CalendarRowsFree(firstDay: int, n: nat, today: int, calendar: Calendar, overrides: Overrides, ids: seq<SlotId>)
    requires n <= |ids|
    ensures FreeRows(CalendarRows(firstDay, n, today, calendar, overrides, ids))
  {
    forall i | 0 <= i < n ensures SlotStart(firstDay + i / SLOT_COUNT, i % SLOT_COUNT) % SLOT == 0 {
      SlotStartOnGrid(firstDay + i / SLOT_COUNT, i % SLOT_COUNT);
    }
  }

  lemma MaterializeSound(
    t: Tables, startDay: int, weeks: int, today: int, calendar: Calendar, ids: seq<SlotId>, now: int)
    requires Inv(t) && (1 <= weeks <= 53 ==> |ids| == weeks * 7 * SLOT_COUNT)
    ensures Sound(t, Materialize(t, startDay, weeks, today, calendar, ids, now))
  {
    var out := Materialize(t, startDay, weeks, today, calendar, ids, now);
    if out.Committed? {
      var t1 := Sweep(t, now, None);
      SweepKeepsInv(t, now, None);
      WeekRowsFree(t.overrides, FirstDay(startDay), weeks, today, calendar, ids);
      UpsertAllFree(t1.slots, WeekRows(t.overrides, FirstDay(startDay), weeks, today, calendar, ids));
      FreeChangeSound(t1, out.t.slots, t1.overrides);
      AfterSweep(t, now, None, out);
    }
  }

  lemma WeekRowsFree(overrides: Overrides, firstDay: int, weeks: nat, today: int, calendar: Calendar, ids: seq<SlotId>)
    requires |ids| == weeks * 7 * SLOT_COUNT
    ensures FreeRows(WeekRows(overrides, firstDay, weeks, today, calendar, ids))
  {
    CalendarRowsFree(firstDay, weeks * 7 * SLOT_COUNT, today, calendar,
                     WindowOverrides(overrides, Midnight(firstDay), Midnight(firstDay + weeks * 7)), ids);
  }

  // ---- every step, every run ----

  lemma StepSound(t: Tables, op: Op)
    requires Inv(t) && WellFormed(op)
    ensures Sound(t, Execute(t, op))
  {
    match op
    case OpCreate(id, user, company, ids, details, now) => CreateSound(t, id, user, company, ids, details, now);
    case OpUpdate(user, a, version, change, now, pick) => UpdateSound(t, user, a, version, change, now, pick);
    case OpCancel(user, a, now, pick) => CancelSound(t, user, a, now, pick);
    case OpForceCancel(a, now) => ForceCancelSound(t, a, now);
    case OpAdminReschedule(a, ids, now, pick) => AdminRescheduleSound(t, a, ids, now, pick);
    case OpSweep(now, only) => SweepSound(t, now, only);
    case OpCreateOverride(oid, o) => CreateOverrideSound(t, oid, o);
    case OpUpdateOverride(oid, o) => UpdateOverrideSound(t, oid, o);
    case OpDeleteOverride(oid) => DeleteOverrideSound(t, oid);
    case OpCreateException(eid, user, company, expiresAt, now) =>
      CreateExceptionSound(t, eid, user, company, expiresAt, now);
    case OpMaterialize(startDay, weeks, today, calendar, slotIds, now) =>
      MaterializeSound(t, startDay, weeks, today, calendar, slotIds, now);
  }
}
