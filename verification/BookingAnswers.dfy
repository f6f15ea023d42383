// What each booking transaction answers and what it leaves behind, told row by row: when it
// commits, which code any other call gets, and every row that a commit writes.
module BookingAnswers {
  import opened Options
  import opened BookingTables
  import opened BookingStatements
  import opened BookingTransactions
  import opened BookingInvariants
  import opened BookingProofs
  import opened BookingTheorems

  // ---- the sweep ----

  predicate Running(r: ApptRow, now: int) {
    r.status == Active && now < r.end
  }

  predicate Over(r: ApptRow, now: int, only: Option<UserId>) {
    r.status == Active && r.end <= now && (only == None || only == Some(r.user))
  }

  ghost predicate Completion(appts: Appts, k: EventKey, now: int, only: Option<UserId>) {
    k.biz in appts && Over(appts[k.biz], now, only) && k == EventKey(k.biz, AppointmentCompleted, None)
  }

  // Pending reminders of these appointments are withdrawn; every other event stays.
  ghost predicate Withdraws(events: Events, events': Events, ended: set<ApptId>, now: int) {
    forall k :: k in events ==>
      && k in events'
      && events'[k] == if k.biz in ended && k.kind == ReminderDue && events[k].status == Pending
                       then EventRow(events[k].scheduled, Withdrawn, Some(now), events[k].createdAt) else events[k]
  }

  function OverIds(appts: Appts, now: int, only: Option<UserId>): set<ApptId> {
    set a | a in appts && Over(appts[a], now, only)
  }

  // Appointments of the scope that are over are completed at their end, and announced.
  ghost predicate SweepLeaves(t: Tables, t': Tables, now: int, only: Option<UserId>) {
    && t'.slots == t.slots && t'.exceptions == t.exceptions
    && t'.overrides == t.overrides && t'.companies == t.companies
    && t'.appts.Keys == t.appts.Keys
    && (forall a :: a in t.appts ==>
          var r := t.appts[a];
          t'.appts[a] == if Over(r, now, only)
                         then ApptRow(r.user, r.company, r.exc, r.start, r.end, Completed, r.details, r.version + 1,
                                      r.cancelledAt, Some(r.end))
                         else r)
    && Withdraws(t.events, t'.events, OverIds(t.appts, now, only), now)
    && (forall k :: k in t'.events && k !in t.events ==> Completion(t.appts, k, now, only))
    && (forall k :: Completion(t.appts, k, now, only) ==>
          k !in t.events && k in t'.events && t'.events[k] == EventRow(None, Pending, None, now))
  }

  lemma SweepAnswers(t: Tables, now: int, only: Option<UserId>)
    requires KeyInv(t.appts, t.events)
    ensures SweepLeaves(t, Sweep(t, now, only), now, only)
  {
    SweepWithdraws(t, now, only);
    forall k | Completion(t.appts, k, now, only) ensures k !in t.events {
      FreshKeys(t.appts, t.events, k.biz);
    }
  }

  lemma SweepWithdraws(t: Tables, now: int, only: Option<UserId>)
    ensures Withdraws(t.events, Sweep(t, now, only).events, OverIds(t.appts, now, only), now)
  {}

  // No appointment but these is over: the sweep does nothing.
  lemma IdleSweep(t: Tables, now: int, only: Option<UserId>)
    requires forall a :: a in t.appts ==> !Over(t.appts[a], now, only)
    ensures Sweep(t, now, only) == t
  {
    assert SweptEvents(t.events, t.appts, now, only) == t.events;
  }

  // An account has one active appointment, so while that runs its own sweep does nothing.
  lemma OwnSweepIdle(t: Tables, a: ApptId, now: int)
    requires UniqueInv(t.appts) && a in t.appts && Running(t.appts[a], now)
    ensures Sweep(t, now, Some(t.appts[a].user)) == t
  {
    IdleSweep(t, now, Some(t.appts[a].user));
  }

  // ---- slots ----

  ghost predicate Forbidden(overrides: Overrides, r: SlotRow) {
    exists o :: o in overrides && overrides[o].action == ForceUnavailable
                && overrides[o].start <= r.start && r.end <= overrides[o].end
  }

  ghost predicate Allowed(overrides: Overrides, r: SlotRow) {
    exists o :: o in overrides && overrides[o].action == ForceAvailable
                && overrides[o].start <= r.start && r.end <= overrides[o].end
  }

  lemma CoveredIff(overrides: Overrides, r: SlotRow)
    ensures CoveredBy(overrides, r, ForceUnavailable) <==> Forbidden(overrides, r)
    ensures CoveredBy(overrides, r, ForceAvailable) <==> Allowed(overrides, r)
  {}

  // A released slot is free again with the status of some covering override, or available.
  ghost predicate GivenBack(overrides: Overrides, r: SlotRow, r': SlotRow) {
    && r' == SlotRow(r.start, r.end, r'.status, None, r.version + 1)
    && ((r'.status == Unavailable && Forbidden(overrides, r)) ||
        (r'.status == Available && (Allowed(overrides, r) || !Forbidden(overrides, r))))
  }

  ghost predicate Releases(slots: Slots, slots': Slots, overrides: Overrides, a: ApptId) {
    && slots'.Keys == slots.Keys
    && forall s :: s in slots ==>
         if slots[s].owner == Some(a) then GivenBack(overrides, slots[s], slots'[s]) else slots'[s] == slots[s]
  }

  lemma ReleaseAnswers(slots: Slots, overrides: Overrides, a: ApptId, pick: map<SlotId, SlotStatus>)
    ensures Releases(slots, Released(slots, overrides, a, pick), overrides, a)
  {
    forall s | s in slots && slots[s].owner == Some(a)
      ensures GivenBack(overrides, slots[s], Released(slots, overrides, a, pick)[s])
    {
      CoveredIff(overrides, slots[s]);
    }
  }

  // Which code a selection gets that cannot be booked.
  ghost predicate SomeLocked(slots: Slots, ids: seq<SlotId>) {
    exists s :: s in ids && s in slots && slots[s].status == OwnerLocked
  }

  ghost function SlotCode(slots: Slots, ids: seq<SlotId>): Code {
    if SomeLocked(slots, ids) then OwnerLockedError else SlotTaken
  }

  lemma ValidateAnswers(slots: Slots, ids: seq<SlotId>)
    requires SlotsOk(slots)
    ensures Validate(slots, InOrder(slots, ids)) ==
            if Selectable(slots, ids) then None else Some(SlotCode(slots, ids))
  {
    ValidateIff(slots, ids);
    var ord := InOrder(slots, ids);
    assert forall s :: s in ord <==> s in ids && s in slots;
    assert (exists s :: s in ord && slots[s].status == OwnerLocked) <==> SomeLocked(slots, ids);
  }

  // ---- creating ----

  ghost predicate Spendable(r: ExcRow, user: UserId, company: Fingerprint, now: int) {
    r.user == user && r.company == company && r.consumedAt == None && r.revokedAt == None && now < r.expiresAt
  }

  ghost predicate Busy(appts: Appts, user: UserId, now: int) {
    exists b :: b in appts && appts[b].user == user && Running(appts[b], now)
  }

  // The company has a running appointment that did not spend an exception.
  ghost predicate Taken(appts: Appts, company: Fingerprint, now: int) {
    exists b :: b in appts && appts[b].company == company && appts[b].exc == None && Running(appts[b], now)
  }

  ghost predicate CanSpend(t: Tables, user: UserId, company: Fingerprint, now: int) {
    exists e :: e in t.exceptions && Spendable(t.exceptions[e], user, company, now)
  }

  // The checks run in this order: first the slots, then the indexes, of which any may be reported.
  lemma CreateAnswers(
    t: Tables, id: ApptId, user: UserId, company: Fingerprint, ids: seq<SlotId>, details: nat, now: int)
    requires Inv(t)
    ensures var out := Create(t, id, user, company, ids, details, now);
            if !Selectable(t.slots, ids) then out == Aborted({SlotCode(t.slots, ids)})
            else if id !in t.appts && !Busy(t.appts, user, now)
                    && (Taken(t.appts, company, now) ==> CanSpend(t, user, company, now))
            then out.Committed?
            else out.Aborted? && forall code :: code in out.codes <==>
              || (code == Internal && id in t.appts)
              || (code == DupAccount && Busy(t.appts, user, now))
              || (code == DupCompany && Taken(t.appts, company, now) && !CanSpend(t, user, company, now))
  {
    var t1 := Sweep(t, now, None);
    SweepKeepsInv(t, now, None);
    SweptActive(t, user, company, now);
    CreateSweptAnswers(t1, id, user, company, ids, details, now);
  }

  lemma CreateSweptAnswers(
    t: Tables, id: ApptId, user: UserId, company: Fingerprint, ids: seq<SlotId>, details: nat, now: int)
    requires Inv(t)
    ensures var out := CreateSwept(t, id, user, company, ids, details, now);
            if !Selectable(t.slots, ids) then out == Aborted({SlotCode(t.slots, ids)})
            else if id !in t.appts && !ActiveFor(t.appts, user)
                    && (ActiveAt(t.appts, company) ==> CanSpend(t, user, company, now))
            then out.Committed?
            else out.Aborted? && forall code :: code in out.codes <==>
              || (code == Internal && id in t.appts)
              || (code == DupAccount && ActiveFor(t.appts, user))
              || (code == DupCompany && ActiveAt(t.appts, company) && !CanSpend(t, user, company, now))
  {
    ValidateAnswers(t.slots, ids);
    if Selectable(t.slots, ids) {
      var ord := InOrder(t.slots, ids);
      var exc := ExceptionToSpend(t, user, company, now);
      InsertAnswers(t, id, user, company, exc, now);
      InsertsUnlessBad(t, id, ids, now, NewRow(user, company, exc, t.slots[ord[0]].start, details));
    }
  }

  lemma InsertsUnlessBad(t: Tables, id: ApptId, ids: seq<SlotId>, now: int, r: ApptRow)
    requires KeyInv(t.appts, t.events)
    ensures var bad := InsertViolations(t.appts, id, r.user, r.company, r.exc);
            && (id in t.appts ==> Internal in bad)
            && InsertAppointment(t, id, ids, now, r) ==
               if bad != {} then Aborted(bad) else Committed(Entered(t, id, ids, now, r))
  {
    FreshKeys(t.appts, t.events, id);
  }

  lemma SweptActive(t: Tables, user: UserId, company: Fingerprint, now: int)
    ensures var t1 := Sweep(t, now, None);
            && (ActiveFor(t1.appts, user) <==> Busy(t.appts, user, now))
            && (ActiveAt(t1.appts, company) <==> Taken(t.appts, company, now))
  {
    var t1 := Sweep(t, now, None);
    assert forall a :: a in t.appts ==> (t1.appts[a].status == Active <==> Running(t.appts[a], now));
    assert forall a :: a in t.appts && Running(t.appts[a], now) ==> t1.appts[a] == t.appts[a];
  }

  lemma InsertAnswers(t: Tables, id: ApptId, user: UserId, company: Fingerprint, exc: Option<ExcId>, now: int)
    requires ExceptionInv(t.appts, t.exceptions) && exc == ExceptionToSpend(t, user, company, now)
    ensures forall code :: code in InsertViolations(t.appts, id, user, company, exc) <==>
              || (code == Internal && id in t.appts)
              || (code == DupAccount && ActiveFor(t.appts, user))
              || (code == DupCompany && ActiveAt(t.appts, company) && !CanSpend(t, user, company, now))
  {
    assert exc.Some? ==> !exists a :: a in t.appts && t.appts[a].exc == exc;
    assert exc.Some? ==> Spendable(t.exceptions[exc.value], user, company, now);
    assert CanSpend(t, user, company, now) <==>
           exists e :: e in t.exceptions && Usable(t.exceptions[e], user, company, now);
  }

  // The lowest exception the account may spend.
  ghost predicate LowestSpendable(t: Tables, e: ExcId, user: UserId, company: Fingerprint, now: int) {
    && e in t.exceptions && Spendable(t.exceptions[e], user, company, now)
    && forall x :: x in t.exceptions && Spendable(t.exceptions[x], user, company, now) ==> e <= x
  }

  ghost predicate SpendsOne(t: Tables, t': Tables, exc: Option<ExcId>, user: UserId, company: Fingerprint,
                            taken: bool, now: int)
  {
    if !taken then exc == None && t'.exceptions == t.exceptions
    else
      && exc.Some? && LowestSpendable(t, exc.value, user, company, now)
      && var r := t.exceptions[exc.value];
         t'.exceptions == t.exceptions[exc.value := ExcRow(r.user, r.company, r.expiresAt, Some(now), r.revokedAt)]
  }

  ghost predicate Books(slots: Slots, slots': Slots, a: ApptId, s0: SlotId, s1: SlotId, s2: SlotId) {
    && slots'.Keys == slots.Keys
    && forall s :: s in slots ==>
         var r := slots[s];
         slots'[s] ==
           if s == s0 || s == s1 || s == s2 then SlotRow(r.start, r.end, Booked, Some(a), r.version + 1) else r
  }

  // What a creation adds to the tables as the sweep leaves them.
  ghost predicate CreateLeaves(t: Tables, t': Tables, id: ApptId, user: UserId, company: Fingerprint, details: nat,
                               start: int, s0: SlotId, s1: SlotId, s2: SlotId, taken: bool, now: int)
  {
    && id !in t.appts && id in t'.appts
    && var exc := t'.appts[id].exc;
    && t'.appts == t.appts[id := ApptRow(user, company, exc, start, start + 3 * SLOT, Active, details, 1, None, None)]
    && SpendsOne(t, t', exc, user, company, taken, now)
    && Books(t.slots, t'.slots, id, s0, s1, s2)
    && t'.overrides == t.overrides && t'.companies == t.companies + {company}
    && t'.events == t.events[EventKey(id, AppointmentCreated, None) := EventRow(None, Pending, None, now)]
                            [EventKey(id, ReminderDue, None) :=
                              EventRow(Some(start - REMINDER_LEAD), Pending, None, now)]
  }

  lemma CreateLeft(t: Tables, id: ApptId, user: UserId, company: Fingerprint, ids: seq<SlotId>, details: nat, now: int,
                   start: int, s0: SlotId, s1: SlotId, s2: SlotId)
    requires Inv(t) && Bookable(t.slots, ids, start, s0, s1, s2)
    requires Create(t, id, user, company, ids, details, now).Committed?
    ensures var t1 := Sweep(t, now, None);
            && SweepLeaves(t, t1, now, None)
            && CreateLeaves(t1, Create(t, id, user, company, ids, details, now).t, id, user, company, details,
                            start, s0, s1, s2, Taken(t.appts, company, now), now)
  {
    var t1 := Sweep(t, now, None);
    SweepAnswers(t, now, None);
    SweepKeepsInv(t, now, None);
    SweptActive(t, user, company, now);
    CreateSweptLeft(t1, id, user, company, ids, details, now, start, s0, s1, s2);
  }

  lemma CreateSweptLeft(
    t: Tables, id: ApptId, user: UserId, company: Fingerprint, ids: seq<SlotId>, details: nat, now: int,
    start: int, s0: SlotId, s1: SlotId, s2: SlotId)
    requires Inv(t) && Bookable(t.slots, ids, start, s0, s1, s2)
    requires CreateSwept(t, id, user, company, ids, details, now).Committed?
    ensures CreateLeaves(t, CreateSwept(t, id, user, company, ids, details, now).t, id, user, company, details,
                         start, s0, s1, s2, ActiveAt(t.appts, company), now)
  {
    SortedTriple(t.slots, ids, start, s0, s1, s2);
    BookableValidates(t.slots, ids, start, s0, s1, s2);
    var exc := ExceptionToSpend(t, user, company, now);
    var r := NewRow(user, company, exc, start, details);
    InsertAnswers(t, id, user, company, exc, now);
    InsertsUnlessBad(t, id, ids, now, r);
    ToSpend(t, user, company, now);
    EnteredAnswers(t, id, ids, now, r, start, s0, s1, s2);
  }

  lemma EnteredAnswers(t: Tables, id: ApptId, ids: seq<SlotId>, now: int, r: ApptRow,
                       start: int, s0: SlotId, s1: SlotId, s2: SlotId)
    requires id !in t.appts && Bookable(t.slots, ids, start, s0, s1, s2)
    requires r == NewRow(r.user, r.company, r.exc, start, r.details)
    requires r.exc.Some? ==> LowestSpendable(t, r.exc.value, r.user, r.company, now)
    requires r.exc == None ==> !ActiveAt(t.appts, r.company)
    requires r.exc.Some? ==> ActiveAt(t.appts, r.company)
    ensures CreateLeaves(t, Entered(t, id, ids, now, r), id, r.user, r.company, r.details, start, s0, s1, s2,
                         ActiveAt(t.appts, r.company), now)
  {
    BookedAnswers(t.slots, ids, id, start, s0, s1, s2);
  }

  lemma BookedAnswers(slots: Slots, ids: seq<SlotId>, a: ApptId, start: int, s0: SlotId, s1: SlotId, s2: SlotId)
    requires Bookable(slots, ids, start, s0, s1, s2)
    ensures Books(slots, BookedFor(slots, ids, a), a, s0, s1, s2)
  {}

  lemma ToSpend(t: Tables, user: UserId, company: Fingerprint, now: int)
    ensures var exc := ExceptionToSpend(t, user, company, now);
            && (exc.Some? ==> LowestSpendable(t, exc.value, user, company, now))
            && (exc.Some? <==> ActiveAt(t.appts, company) && CanSpend(t, user, company, now))
  {
    var s := UsableExceptions(t, user, company, now);
    assert forall e :: e in s <==> e in t.exceptions && Spendable(t.exceptions[e], user, company, now);
  }

  // ---- changing ----

  // The appointment moves to three slots: its old ones are given back, the reminder is replaced,
  // and the move is announced.
  ghost predicate MoveLeaves(t: Tables, t': Tables, a: ApptId, start: int, s0: SlotId, s1: SlotId, s2: SlotId, now: int)
    requires a in t.appts
  {
    MoveWrites(t, t', a, start, now) && MovesSlots(t.slots, t'.slots, t.overrides, a, s0, s1, s2)
  }

  ghost predicate MoveWrites(t: Tables, t': Tables, a: ApptId, start: int, now: int)
    requires a in t.appts
  {
    var r := t.appts[a];
    var moved, reminder := EventKey(a, Rescheduled, Some(r.version + 1)), EventKey(a, ReminderDue, Some(r.version + 1));
    && t'.appts == t.appts[a := ApptRow(r.user, r.company, r.exc, start, start + 3 * SLOT, Active, r.details,
                                        r.version + 1, r.cancelledAt, r.completedAt)]
    && t'.exceptions == t.exceptions && t'.overrides == t.overrides && t'.companies == t.companies
    && Withdraws(t.events, t'.events, {a}, now)
    && moved !in t.events && reminder !in t.events && t'.events.Keys == t.events.Keys + {moved, reminder}
    && t'.events[moved] == EventRow(None, Pending, None, now)
    && t'.events[reminder] == EventRow(Some(start - REMINDER_LEAD), Pending, None, now)
  }

  ghost predicate MovesSlots(slots: Slots, slots': Slots, overrides: Overrides, a: ApptId,
                             s0: SlotId, s1: SlotId, s2: SlotId)
  {
    && slots'.Keys == slots.Keys
    && forall s :: s in slots ==>
         var r := slots[s];
         if s == s0 || s == s1 || s == s2 then slots'[s] == SlotRow(r.start, r.end, Booked, Some(a), r.version + 1)
         else if r.owner == Some(a) then GivenBack(overrides, r, slots'[s])
         else slots'[s] == r
  }

  // The new details, and one event for them.
  ghost predicate PatchLeaves(t: Tables, t': Tables, a: ApptId, details: nat, now: int)
    requires a in t.appts
  {
    var r := t.appts[a];
    var patched := EventKey(a, DetailsUpdated, Some(r.version + 1));
    && t' == t.(appts := t'.appts, events := t'.events)
    && t'.appts == t.appts[a := ApptRow(r.user, r.company, r.exc, r.start, r.end, Active, details, r.version + 1,
                                        r.cancelledAt, r.completedAt)]
    && patched !in t.events && t'.events == t.events[patched := EventRow(None, Pending, None, now)]
  }

  ghost predicate Moves(t: Tables, t': Tables, a: ApptId, ids: seq<SlotId>, now: int)
    requires a in t.appts
  {
    exists start, s0, s1, s2 ::
      Bookable(t.slots, ids, start, s0, s1, s2) && MoveLeaves(t, t', a, start, s0, s1, s2, now)
  }

  lemma RescheduleAnswers(t: Tables, a: ApptId, ids: seq<SlotId>, now: int, pick: map<SlotId, SlotStatus>)
    requires Inv(t) && a in t.appts && t.appts[a].status == Active
    ensures var out := Reschedule(t, a, ids, now, pick);
            if Selectable(t.slots, ids) then out.Committed? && Moves(t, out.t, a, ids, now)
            else out == Aborted({SlotCode(t.slots, ids)})
  {
    ValidateAnswers(t.slots, ids);
    if Selectable(t.slots, ids) {
      var start, s0, s1, s2 :| Bookable(t.slots, ids, start, s0, s1, s2);
      ReschedulesTo(t, a, ids, now, pick, start, s0, s1, s2);
      MovedAnswers(t, a, ids, now, pick, start, s0, s1, s2, MovedRow(t.appts[a], start));
    }
  }

  lemma ReschedulesTo(t: Tables, a: ApptId, ids: seq<SlotId>, now: int, pick: map<SlotId, SlotStatus>,
                      start: int, s0: SlotId, s1: SlotId, s2: SlotId)
    requires SlotsOk(t.slots) && KeyInv(t.appts, t.events) && a in t.appts && Bookable(t.slots, ids, start, s0, s1, s2)
    ensures Reschedule(t, a, ids, now, pick) ==
            Committed(Moved(t, a, Released(t.slots, t.overrides, a, pick), ids, now, MovedRow(t.appts[a], start)))
  {
    SortedTriple(t.slots, ids, start, s0, s1, s2);
    BookableValidates(t.slots, ids, start, s0, s1, s2);
    FreshKeys(t.appts, t.events, a);
  }

  lemma MovedAnswers(t: Tables, a: ApptId, ids: seq<SlotId>, now: int, pick: map<SlotId, SlotStatus>,
                     start: int, s0: SlotId, s1: SlotId, s2: SlotId, r: ApptRow)
    requires SlotsOk(t.slots) && KeyInv(t.appts, t.events)
    requires a in t.appts && t.appts[a].status == Active && r == MovedRow(t.appts[a], start)
    requires Bookable(t.slots, ids, start, s0, s1, s2)
    ensures MoveLeaves(t, Moved(t, a, Released(t.slots, t.overrides, a, pick), ids, now, r), a, start, s0, s1, s2, now)
  {
    FreshKeys(t.appts, t.events, a);
    MovedSlots(t.slots, t.overrides, a, ids, pick, start, s0, s1, s2);
  }

  lemma MovedSlots(slots: Slots, overrides: Overrides, a: ApptId, ids: seq<SlotId>, pick: map<SlotId, SlotStatus>,
                   start: int, s0: SlotId, s1: SlotId, s2: SlotId)
    requires SlotsOk(slots) && Bookable(slots, ids, start, s0, s1, s2)
    ensures MovesSlots(slots, BookedFor(Released(slots, overrides, a, pick), ids, a), overrides, a, s0, s1, s2)
  {
    ReleaseAnswers(slots, overrides, a, pick);
    assert SlotOk(slots[s0]) && SlotOk(slots[s1]) && SlotOk(slots[s2]);
  }

  ghost predicate Changes(t: Tables, out: Outcome, a: ApptId, change: Change, now: int)
    requires a in t.appts
  {
    match change
    case NewSlots(ids) =>
      if Selectable(t.slots, ids) then out.Committed? && Moves(t, out.t, a, ids, now)
      else out == Aborted({SlotCode(t.slots, ids)})
    case NewDetails(details) => out.Committed? && PatchLeaves(t, out.t, a, details, now)
    case NoChange => out == Committed(t)
  }

  // An update commits exactly when the row is there, the caller's, running and at the version
  // sent, and new slots can be booked. Every other call gets the code of the first check it fails.
  lemma UpdateAnswers(
    t: Tables, user: UserId, a: ApptId, version: nat, change: Change, now: int, pick: map<SlotId, SlotStatus>)
    requires Inv(t)
    ensures var out := Update(t, user, a, version, change, now, pick);
            if a !in t.appts then out == Aborted({NotFound})
            else if t.appts[a].user != user then out == Aborted({PermDenied})
            else if !Running(t.appts[a], now) then out == Aborted({TerminalState})
            else if t.appts[a].version != version then out == Aborted({VersionConflict})
            else Changes(t, out, a, change, now)
  {
    if a in t.appts && t.appts[a].user == user && Running(t.appts[a], now) && t.appts[a].version == version {
      OwnSweepIdle(t, a, now);
      ChangeAnswers(t, a, change, now, pick);
    } else {
      UpdateRefused(t, user, a, version, change, now, pick);
    }
  }

  lemma UpdateRefused(
    t: Tables, user: UserId, a: ApptId, version: nat, change: Change, now: int, pick: map<SlotId, SlotStatus>)
    requires UniqueInv(t.appts)
    requires a in t.appts && t.appts[a].user == user && Running(t.appts[a], now) ==> t.appts[a].version != version
    ensures Update(t, user, a, version, change, now, pick) ==
            if a !in t.appts then Aborted({NotFound})
            else if t.appts[a].user != user then Aborted({PermDenied})
            else if !Running(t.appts[a], now) then Aborted({TerminalState})
            else Aborted({VersionConflict})
  {}

  lemma ChangeAnswers(t: Tables, a: ApptId, change: Change, now: int, pick: map<SlotId, SlotStatus>)
    requires Inv(t) && a in t.appts && t.appts[a].status == Active
    ensures var out := UpdateSwept(t, t.appts[a].user, a, t.appts[a].version, change, now, pick);
            Changes(t, out, a, change, now)
  {
    match change
    case NewSlots(ids) => RescheduleAnswers(t, a, ids, now, pick);
    case NewDetails(details) => PatchAnswers(t, a, details, now);
    case NoChange =>
  }

  lemma PatchAnswers(t: Tables, a: ApptId, details: nat, now: int)
    requires KeyInv(t.appts, t.events) && a in t.appts && t.appts[a].status == Active
    ensures Patch(t, a, details, now).Committed? && PatchLeaves(t, Patch(t, a, details, now).t, a, details, now)
  {
    FreshKeys(t.appts, t.events, a);
  }

  // The administrator's move has neither a sweep nor a version nor an owner to check.
  lemma AdminRescheduleAnswers(t: Tables, a: ApptId, ids: seq<SlotId>, now: int, pick: map<SlotId, SlotStatus>)
    requires Inv(t)
    ensures var out := AdminReschedule(t, a, ids, now, pick);
            if a !in t.appts then out == Aborted({NotFound})
            else if t.appts[a].status != Active then out == Aborted({TerminalState})
            else if Selectable(t.slots, ids) then out.Committed? && Moves(t, out.t, a, ids, now)
            else out == Aborted({SlotCode(t.slots, ids)})
  {
    if a in t.appts && t.appts[a].status == Active {
      RescheduleAnswers(t, a, ids, now, pick);
    }
  }

  // ---- ending ----

  // The row, its reminders and its event; what happens to the slots differs.
  ghost predicate EndLeaves(t: Tables, t': Tables, a: ApptId, now: int)
    requires a in t.appts
  {
    var r := t.appts[a];
    var cancelled := EventKey(a, AppointmentCancelled, None);
    && t'.appts == t.appts[a := ApptRow(r.user, r.company, r.exc, r.start, r.end, Cancelled, r.details, r.version + 1,
                                        Some(now), r.completedAt)]
    && t'.exceptions == t.exceptions && t'.overrides == t.overrides && t'.companies == t.companies
    && Withdraws(t.events, t'.events, {a}, now)
    && cancelled !in t.events && t'.events.Keys == t.events.Keys + {cancelled}
    && t'.events[cancelled] == EventRow(None, Pending, None, now)
  }

  ghost predicate Locks(slots: Slots, slots': Slots, a: ApptId) {
    && slots'.Keys == slots.Keys
    && forall s :: s in slots ==>
         var r := slots[s];
         slots'[s] == if r.owner == Some(a) then SlotRow(r.start, r.end, OwnerLocked, None, r.version + 1) else r
  }

  lemma TerminateAnswers(t: Tables, a: ApptId, slots: Slots, now: int)
    requires KeyInv(t.appts, t.events) && a in t.appts && t.appts[a].status == Active
    ensures var out := Terminate(t, a, slots, now);
            out.Committed? && EndLeaves(t, out.t, a, now) && out.t.slots == slots
  {
    FreshKeys(t.appts, t.events, a);
  }

  // Only its owner cancels an appointment; again is accepted, after its end is refused.
  lemma CancelAnswers(t: Tables, user: UserId, a: ApptId, now: int, pick: map<SlotId, SlotStatus>)
    requires Inv(t)
    ensures var out := Cancel(t, user, a, now, pick);
            if a !in t.appts then out == Aborted({NotFound})
            else if t.appts[a].user != user then out == Aborted({PermDenied})
            else if t.appts[a].status == Cancelled then out.Committed? && SweepLeaves(t, out.t, now, Some(user))
            else if !Running(t.appts[a], now) then out == Aborted({TerminalState})
            else out.Committed? && EndLeaves(t, out.t, a, now) && Releases(t.slots, out.t.slots, t.overrides, a)
  {
    if a in t.appts && t.appts[a].user == user {
      if Running(t.appts[a], now) {
        CancelRunning(t, a, now, pick);
      } else {
        SweepAnswers(t, now, Some(user));
      }
    }
  }

  lemma CancelRunning(t: Tables, a: ApptId, now: int, pick: map<SlotId, SlotStatus>)
    requires Inv(t) && a in t.appts && Running(t.appts[a], now)
    ensures var out := Cancel(t, t.appts[a].user, a, now, pick);
            out.Committed? && EndLeaves(t, out.t, a, now) && Releases(t.slots, out.t.slots, t.overrides, a)
  {
    OwnSweepIdle(t, a, now);
    ReleaseAnswers(t.slots, t.overrides, a, pick);
    TerminateAnswers(t, a, Released(t.slots, t.overrides, a, pick), now);
  }

  // A forced cancellation needs no owner, and leaves the slots locked instead of free.
  lemma ForceCancelAnswers(t: Tables, a: ApptId, now: int)
    requires Inv(t)
    ensures var out := ForceCancel(t, a, now);
            var t1 := Sweep(t, now, None);
            && SweepLeaves(t, t1, now, None)
            && if a !in t.appts then out == Aborted({NotFound})
               else if t.appts[a].status == Cancelled then out == Committed(t1)
               else if !Running(t.appts[a], now) then out == Aborted({TerminalState})
               else out.Committed? && EndLeaves(t1, out.t, a, now) && Locks(t.slots, out.t.slots, a)
  {
    var t1 := Sweep(t, now, None);
    SweepAnswers(t, now, None);
    SweepKeepsInv(t, now, None);
    if a in t.appts && Running(t.appts[a], now) {
      TerminateAnswers(t1, a, HardLocked(t1.slots, a), now);
    }
  }

  // ---- overrides and exceptions ----

  // Free slots that meet the window get a new version, and the status that the overrides ask for.
  ghost predicate Recomputes(slots: Slots, slots': Slots, overrides: Overrides, lo: int, hi: int) {
    && slots'.Keys == slots.Keys
    && forall s :: s in slots ==>
         var r := slots[s];
         var status := if Forbidden(overrides, r) then Unavailable else Available;
         slots'[s] ==
           if (r.status == Available || r.status == Unavailable) && r.start < hi && lo < r.end
           then SlotRow(r.start, r.end, status, r.owner, r.version + 1)
           else r
  }

  ghost predicate OverridesLeave(t: Tables, t': Tables, overrides: Overrides, lo: int, hi: int) {
    && t' == t.(slots := t'.slots, overrides := overrides)
    && Recomputes(t.slots, t'.slots, overrides, lo, hi)
  }

  lemma RecomputeAnswers(slots: Slots, overrides: Overrides, lo: int, hi: int)
    ensures Recomputes(slots, Rematerialized(slots, overrides, lo, hi), overrides, lo, hi)
  {
    forall s | s in slots ensures CoveredBy(overrides, slots[s], ForceUnavailable) <==> Forbidden(overrides, slots[s]) {
      CoveredIff(overrides, slots[s]);
    }
  }

  lemma CreateOverrideAnswers(t: Tables, id: OverrideId, o: Override)
    ensures var out := CreateOverride(t, id, o);
            if o.end <= o.start then out == Aborted({InvalidRequest})
            else if id in t.overrides then out == Aborted({Internal})
            else out.Committed? && OverridesLeave(t, out.t, t.overrides[id := o], o.start, o.end)
  {
    RecomputeAnswers(t.slots, t.overrides[id := o], o.start, o.end);
  }

  lemma UpdateOverrideAnswers(t: Tables, id: OverrideId, o: Override)
    ensures var out := UpdateOverride(t, id, o);
            if o.end <= o.start then out == Aborted({InvalidRequest})
            else if id !in t.overrides then out == Aborted({NotFound})
            else
              var was := t.overrides[id];
              var lo := if was.start <= o.start then was.start else o.start;
              var hi := if was.end >= o.end then was.end else o.end;
              out.Committed? && OverridesLeave(t, out.t, t.overrides[id := o], lo, hi)
  {
    if o.start < o.end && id in t.overrides {
      var was := t.overrides[id];
      RecomputeAnswers(t.slots, t.overrides[id := o], Min(was.start, o.start), Max(was.end, o.end));
    }
  }

  lemma DeleteOverrideAnswers(t: Tables, id: OverrideId)
    ensures var out := DeleteOverride(t, id);
            if id !in t.overrides then out == Aborted({NotFound})
            else
              var was := t.overrides[id];
              out.Committed? && OverridesLeave(t, out.t, t.overrides - {id}, was.start, was.end)
  {
    if id in t.overrides {
      RecomputeAnswers(t.slots, t.overrides - {id}, t.overrides[id].start, t.overrides[id].end);
    }
  }

  ghost predicate OpenAlready(exceptions: Exceptions, user: UserId, company: Fingerprint) {
    exists e :: e in exceptions && exceptions[e].user == user && exceptions[e].company == company
                && exceptions[e].consumedAt == None
  }

  lemma CreateExceptionAnswers(t: Tables, id: ExcId, user: UserId, company: Fingerprint, expiresAt: int, now: int)
    ensures var out := CreateException(t, id, user, company, expiresAt, now);
            if expiresAt <= now then out == Aborted({InvalidRequest})
            else if id !in t.exceptions && !OpenAlready(t.exceptions, user, company)
            then out == Committed(t.(exceptions := t.exceptions[id := ExcRow(user, company, expiresAt, None, None)]))
            else out.Aborted? && forall code :: code in out.codes <==>
              || (code == Internal && id in t.exceptions)
              || (code == DupException && OpenAlready(t.exceptions, user, company))
  {
    assert HasOpen(t.exceptions, user, company) <==> OpenAlready(t.exceptions, user, company);
  }

  // ---- the calendar ----

  // The half hours of a day run from 9:30 to 22:00 local time. The calendar offers those of later
  // days, on workdays, that lie neither between 12:00 and 14:00 nor between 18:00 and 20:00.
  lemma OfferedIff(day: int, k: nat, today: int, calendar: Calendar)
    requires k < SLOT_COUNT
    ensures var local := SlotStart(day, k) + SHANGHAI;
            var clock := local % DAY;
            && LocalDay(SlotStart(day, k)) == day && LocalDay(SlotStart(day, k) + SLOT) == day
            && clock == 9 * 3600 + 1800 + 1800 * k && clock + SLOT <= 22 * 3600
            && (BaseAvailable(day, SlotMinute(k), today, calendar) <==>
                  && today < day
                  && (day in calendar.adjustedWorkdays ||
                      (day !in calendar.holidays && (local / DAY + 4) % 7 != 0 && (local / DAY + 4) % 7 != 6))
                  && !(12 * 3600 <= clock < 14 * 3600) && !(18 * 3600 <= clock < 20 * 3600))
  {
    var local := SlotStart(day, k) + SHANGHAI;
    var clock := 9 * 3600 + 1800 + 1800 * k;
    assert local == day * DAY + clock;
    DivMod(day, clock);
    DivMod(day, clock + SLOT);
  }

  lemma DivMod(day: int, clock: int)
    requires 0 <= clock < DAY
    ensures (day * DAY + clock) / DAY == day && (day * DAY + clock) % DAY == clock
  {}

  // The weeks start on the Monday of the day given.
  lemma WeekStart(day: int)
    ensures FirstDay(day) <= day < FirstDay(day) + 7 && (FirstDay(day) + 4) % 7 == 1
  {}

  // A materialisation also sweeps; it is refused for a number of weeks out of range, and fails only
  // on a clash of ids.
  lemma MaterializeAnswers(
    t: Tables, startDay: int, weeks: int, today: int, calendar: Calendar, ids: seq<SlotId>, now: int)
    requires KeyInv(t.appts, t.events) && (1 <= weeks <= 53 ==> |ids| == weeks * 7 * SLOT_COUNT)
    ensures var out := Materialize(t, startDay, weeks, today, calendar, ids, now);
            if weeks < 1 || 53 < weeks then out == Aborted({InvalidRequest})
            else if out.Committed? then SweepLeaves(t, out.t.(slots := t.slots), now, None)
            else out == Aborted({Internal}) && !FreshIds(t.slots, ids)
  {
    SweepAnswers(t, now, None);
    MaterializeIdsFresh(t, startDay, weeks, today, calendar, ids, now);
  }
}
