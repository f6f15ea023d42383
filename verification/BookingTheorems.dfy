// The properties of whole runs, and of the operations one at a time, that the
// invariants are for.
module BookingTheorems {
  import opened Options
  import opened BookingTables
  import opened BookingStatements
  import opened BookingTransactions
  import opened BookingInvariants
  import opened BookingProofs

  // ---- runs ----

  lemma NextSound(t: Tables, op: Op)
    requires Inv(t) && WellFormed(op)
    ensures Inv(Next(t, op)) && Advance(t, Next(t, op))
    ensures ReminderInv(t.appts, t.events) ==> ReminderInv(Next(t, op).appts, Next(t, op).events)
  {
    StepSound(t, op);
    var out := Execute(t, op);
    if out.Aborted? {
      assert Next(t, op) == t;
    } else {
      assert Next(t, op) == out.t;
    }
  }

  lemma {:induction false} RunKeepsInv(history: seq<Tables>, ops: seq<Op>, i: nat)
    requires Run(history, ops) && i <= |ops|
    ensures Inv(history[i]) && ReminderInv(history[i].appts, history[i].events)
  {
    if i > 0 {
      RunKeepsInv(history, ops, i - 1);
      NextSound(history[i - 1], ops[i - 1]);
    }
  }

  ghost predicate Advancing(history: seq<Tables>) {
    forall i :: 0 <= i < |history| - 1 ==> Advance(history[i], history[i + 1])
  }

  lemma {:induction false} AdvancingChain(history: seq<Tables>, i: nat, j: nat)
    requires Advancing(history) && i <= j < |history|
    ensures Advance(history[i], history[j])
    decreases j
  {
    if i < j {
      AdvancingChain(history, i, j - 1);
      assert Advance(history[j - 1], history[j - 1 + 1]);
      AdvanceTrans(history[i], history[j - 1], history[j]);
    }
  }

  lemma RunAdvances(history: seq<Tables>, ops: seq<Op>, i: nat, j: nat)
    requires Run(history, ops) && i <= j <= |ops|
    ensures Advance(history[i], history[j])
  {
    forall k | 0 <= k < |history| - 1 ensures Advance(history[k], history[k + 1]) {
      RunKeepsInv(history, ops, k);
      RunStep(history, ops, k);
    }
    AdvancingChain(history, i, j);
  }

  lemma RunStep(history: seq<Tables>, ops: seq<Op>, i: nat)
    requires Run(history, ops) && i < |ops| && Inv(history[i])
    ensures Advance(history[i], history[i + 1])
  {
    NextSound(history[i], ops[i]);
  }

  ghost predicate Disjoint(r: ApptRow, r': ApptRow) {
    r.end <= r'.start || r'.end <= r.start
  }

  lemma LiveDisjoint(t: Tables, a: ApptId, b: ApptId)
    requires OwnershipInv(t) && a in t.appts && b in t.appts && a != b
    requires Live(t.appts[a]) && Live(t.appts[b])
    ensures Disjoint(t.appts[a], t.appts[b])
  {
    var x, y := t.appts[a].start, t.appts[b].start;
    var s0, s1, s2 :| OwnsExactly(t.slots, a, s0, s1, s2) && Consecutive(t.slots, x, s0, s1, s2);
    var r0, r1, r2 :| OwnsExactly(t.slots, b, r0, r1, r2) && Consecutive(t.slots, y, r0, r1, r2);
    assert SlotOk(t.slots[s0]) && SlotOk(t.slots[r0]);
    if !Disjoint(t.appts[a], t.appts[b]) {
      GridGap(x, y);
    }
  }

  lemma GridGap(x: int, y: int)
    requires x % SLOT == 0 && y % SLOT == 0 && x - y < APPOINTMENT && y - x < APPOINTMENT
    ensures x == y || x == y + SLOT || x == y + 2 * SLOT || y == x + SLOT || y == x + 2 * SLOT
  {
    assert x == SLOT * (x / SLOT) && y == SLOT * (y / SLOT);
  }

  // No reachable state has two live appointments at overlapping times.
  lemma NeverDoubleBooked(history: seq<Tables>, ops: seq<Op>, i: nat, a: ApptId, b: ApptId)
    requires Run(history, ops) && i <= |ops|
    requires a in history[i].appts && b in history[i].appts && a != b
    requires Live(history[i].appts[a]) && Live(history[i].appts[b])
    ensures Disjoint(history[i].appts[a], history[i].appts[b])
  {
    RunKeepsInv(history, ops, i);
    LiveDisjoint(history[i], a, b);
  }

  // In every reachable state a slot is booked exactly when it names an
  // appointment, which is then live; a live appointment owns three slots in a
  // row on one local day, covering its interval; a cancelled one owns none.
  lemma SlotOwnership(history: seq<Tables>, ops: seq<Op>, i: nat)
    requires Run(history, ops) && i <= |ops|
    ensures forall s :: s in history[i].slots ==>
              && (history[i].slots[s].status == Booked <==> history[i].slots[s].owner.Some?)
              && (history[i].slots[s].owner.Some? ==>
                    && history[i].slots[s].owner.value in history[i].appts
                    && Live(history[i].appts[history[i].slots[s].owner.value]))
    ensures forall a :: a in history[i].appts ==>
              && history[i].appts[a].end == history[i].appts[a].start + APPOINTMENT
              && (if Live(history[i].appts[a]) then Tiled(history[i].slots, a, history[i].appts[a].start)
                  else OwnsNone(history[i].slots, a))
  {
    RunKeepsInv(history, ops, i);
  }

  // A slot's version fixes its status and its owner: the same version seen at
  // two moments of a run is the same row.
  lemma VersionFixesSlot(history: seq<Tables>, ops: seq<Op>, i: nat, j: nat, s: SlotId)
    requires Run(history, ops) && i <= j <= |ops|
    requires s in history[i].slots
    ensures s in history[j].slots && history[i].slots[s].version <= history[j].slots[s].version
    ensures history[i].slots[s].version == history[j].slots[s].version ==> history[i].slots[s] == history[j].slots[s]
  {
    RunAdvances(history, ops, i, j);
  }

  // At most one active appointment per account, and per company without an exception.
  lemma OneActive(history: seq<Tables>, ops: seq<Op>, i: nat, a: ApptId, b: ApptId)
    requires Run(history, ops) && i <= |ops|
    requires a in history[i].appts && b in history[i].appts
    requires history[i].appts[a].status == Active && history[i].appts[b].status == Active
    ensures history[i].appts[a].user == history[i].appts[b].user ==> a == b
    ensures (history[i].appts[a].company == history[i].appts[b].company
             && history[i].appts[a].exc == None && history[i].appts[b].exc == None) ==> a == b
  {
    RunKeepsInv(history, ops, i);
  }

  ghost predicate NamedOnce(appts: Appts, e: ExcId) {
    exists a :: Names(appts, a, e) && forall b :: Names(appts, b, e) ==> b == a
  }

  // An exception is consumed exactly when one appointment, and only one, names it.
  lemma ConsumedIffNamedOnce(history: seq<Tables>, ops: seq<Op>, i: nat, e: ExcId)
    requires Run(history, ops) && i <= |ops| && e in history[i].exceptions
    ensures history[i].exceptions[e].consumedAt.Some? <==> NamedOnce(history[i].appts, e)
  {
    RunKeepsInv(history, ops, i);
    var t := history[i];
    if t.exceptions[e].consumedAt.Some? {
      var a :| Names(t.appts, a, e);
      assert forall b :: Names(t.appts, b, e) ==> b == a;
    }
    if NamedOnce(t.appts, e) {
      var a :| Names(t.appts, a, e);
      assert t.appts[a].exc == Some(e);
    }
  }

  // Every active appointment has one pending reminder, ten minutes ahead of its
  // start; the others have none.
  lemma RemindersMatch(history: seq<Tables>, ops: seq<Op>, i: nat, a: ApptId)
    requires Run(history, ops) && i <= |ops| && a in history[i].appts
    ensures if history[i].appts[a].status == Active
            then HasSoleReminder(history[i].events, a, history[i].appts[a].start - REMINDER_LEAD)
            else NoReminder(history[i].events, a)
  {
    RunKeepsInv(history, ops, i);
  }

  // ---- when a creation commits ----

  ghost predicate Selectable(slots: Slots, ids: seq<SlotId>) {
    exists start, s0, s1, s2 :: Bookable(slots, ids, start, s0, s1, s2)
  }

  // The lock order fixes the sequence.
  lemma {:induction false} SortedOnce(slots: Slots, a: seq<SlotId>, b: seq<SlotId>)
    requires Sorted(slots, a) && Sorted(slots, b) && forall s :: s in a <==> s in b
    ensures a == b
    decreases |a|
  {
    BothEmpty(a, b);
    if a != [] {
      assert a[0] in a && b[0] in b;
      SameHead(slots, a, b);
      assert a == [a[0]] + a[1..] && b == [b[0]] + b[1..];
      HeadFirst(slots, a, a[0]);
      HeadFirst(slots, b, b[0]);
      forall s ensures s in a[1..] <==> s in b[1..] {
        assert s in a <==> s == a[0] || s in a[1..];
        assert s in b <==> s == b[0] || s in b[1..];
      }
      SortedOnce(slots, a[1..], b[1..]);
    }
  }

  lemma BothEmpty(a: seq<SlotId>, b: seq<SlotId>)
    requires forall s :: s in a <==> s in b
    ensures a == [] <==> b == []
  {
    if a != [] {
      assert a[0] in a;
    }
    if b != [] {
      assert b[0] in b;
    }
  }

  lemma SameHead(slots: Slots, a: seq<SlotId>, b: seq<SlotId>)
    requires a != [] && b != [] && Sorted(slots, a) && Sorted(slots, b) && a[0] in b && b[0] in a
    ensures a[0] == b[0]
  {
    var i :| 0 <= i < |a| && a[i] == b[0];
    var j :| 0 <= j < |b| && b[j] == a[0];
    assert i > 0 ==> Before(slots, a[0], a[i]);
    assert j > 0 ==> Before(slots, b[0], b[j]);
  }

  lemma ThreeSorted(slots: Slots, ord: seq<SlotId>, s0: SlotId, s1: SlotId, s2: SlotId)
    requires s0 in slots && s1 in slots && s2 in slots && Sorted(slots, ord)
    requires forall s :: s in ord <==> s == s0 || s == s1 || s == s2
    requires slots[s0].start < slots[s1].start < slots[s2].start
    ensures ord == [s0, s1, s2]
  {
    SortedOnce(slots, ord, [s0, s1, s2]);
  }

  lemma SortedTriple(slots: Slots, ids: seq<SlotId>, start: int, s0: SlotId, s1: SlotId, s2: SlotId)
    requires Bookable(slots, ids, start, s0, s1, s2)
    ensures InOrder(slots, ids) == [s0, s1, s2]
  {
    ThreeSorted(slots, InOrder(slots, ids), s0, s1, s2);
  }

  // A list of ids is accepted exactly when the slots it names are, in some order, three
  // available ones in a row on one local day.
  lemma ValidateIff(slots: Slots, ids: seq<SlotId>)
    requires SlotsOk(slots)
    ensures Validate(slots, InOrder(slots, ids)) == None <==> Selectable(slots, ids)
  {
    ValidateAccepts(slots, ids);
    var ord := InOrder(slots, ids);
    if Validate(slots, ord) == None {
      assert Bookable(slots, ids, slots[ord[0]].start, ord[0], ord[1], ord[2]);
    }
    if Selectable(slots, ids) {
      var start, s0, s1, s2 :| Bookable(slots, ids, start, s0, s1, s2);
      SortedTriple(slots, ids, start, s0, s1, s2);
      BookableValidates(slots, ids, start, s0, s1, s2);
    }
  }

  lemma BookableValidates(slots: Slots, ids: seq<SlotId>, start: int, s0: SlotId, s1: SlotId, s2: SlotId)
    requires SlotsOk(slots) && Bookable(slots, ids, start, s0, s1, s2)
    ensures Validate(slots, [s0, s1, s2]) == None
  {
    assert SlotOk(slots[s0]) && SlotOk(slots[s1]) && SlotOk(slots[s2]);
    DayBetween(start);
  }

  lemma DayBetween(start: int)
    requires LocalDay(start) == LocalDay(start + 2 * SLOT)
    ensures LocalDay(start) == LocalDay(start + SLOT)
  {}

  ghost predicate HasUsable(t: Tables, user: UserId, company: Fingerprint, now: int) {
    exists e :: e in t.exceptions && Usable(t.exceptions[e], user, company, now)
  }

  // After the sweep, a creation commits exactly when the slots can be taken, the
  // account has nothing active, and the company is free or the account may spend
  // an exception. The exception index and the outbox keys never get in the way.
  lemma CreateCommitsIff(
    t: Tables, id: ApptId, user: UserId, company: Fingerprint, ids: seq<SlotId>, details: nat, now: int)
    requires Inv(t) && id !in t.appts
    ensures var t1 := Sweep(t, now, None);
            Create(t, id, user, company, ids, details, now).Committed? <==>
              && Selectable(t1.slots, ids)
              && !ActiveFor(t1.appts, user)
              && (ActiveAt(t1.appts, company) ==> HasUsable(t1, user, company, now))
  {
    SweepKeepsInv(t, now, None);
    CreateSweptCommitsIff(Sweep(t, now, None), id, user, company, ids, details, now);
  }

  lemma CreateSweptCommitsIff(
    t: Tables, id: ApptId, user: UserId, company: Fingerprint, ids: seq<SlotId>, details: nat, now: int)
    requires Inv(t) && id !in t.appts
    ensures CreateSwept(t, id, user, company, ids, details, now).Committed? <==>
              && Selectable(t.slots, ids)
              && !ActiveFor(t.appts, user)
              && (ActiveAt(t.appts, company) ==> HasUsable(t, user, company, now))
  {
    var exc := ExceptionToSpend(t, user, company, now);
    ValidateIff(t.slots, ids);
    FreshKeys(t.appts, t.events, id);
    ViolationsIff(t, id, user, company, exc, now);
  }

  lemma ViolationsIff(t: Tables, id: ApptId, user: UserId, company: Fingerprint, exc: Option<ExcId>, now: int)
    requires ExceptionInv(t.appts, t.exceptions) && id !in t.appts
    requires exc == ExceptionToSpend(t, user, company, now)
    ensures InsertViolations(t.appts, id, user, company, exc) == {} <==>
              !ActiveFor(t.appts, user) && (ActiveAt(t.appts, company) ==> HasUsable(t, user, company, now))
  {
    var bad := InsertViolations(t.appts, id, user, company, exc);
    assert exc.Some? ==> !exists a :: a in t.appts && t.appts[a].exc == exc;
    assert DupAccount in bad <==> ActiveFor(t.appts, user);
    assert DupCompany in bad <==> exc == None && ActiveAt(t.appts, company);
    assert bad <= {DupAccount, DupCompany};
    assert exc.Some? ==> HasUsable(t, user, company, now);
  }

  ghost predicate FreshIds(slots: Slots, ids: seq<SlotId>) {
    && (forall i :: 0 <= i < |ids| ==> ids[i] !in slots)
    && (forall i, j :: 0 <= i < j < |ids| ==> ids[i] != ids[j])
  }

  lemma {:induction false} UpsertAllSucceeds(slots: Slots, rows: seq<CalendarRow>)
    requires forall i :: 0 <= i < |rows| ==> rows[i].id !in slots
    requires forall i, j :: 0 <= i < j < |rows| ==> rows[i].id != rows[j].id
    ensures UpsertAll(slots, rows).Some?
    ensures forall s :: s in UpsertAll(slots, rows).value ==>
              s in slots || exists i :: 0 <= i < |rows| && rows[i].id == s
    decreases |rows|
  {
    if rows != [] {
      var n := |rows| - 1;
      UpsertAllSucceeds(slots, rows[..n]);
      var m := UpsertAll(slots, rows[..n]).value;
      assert rows[n].id !in m;
      var m' := UpsertAll(slots, rows).value;
      forall s | s in m' && s !in slots ensures exists i :: 0 <= i < |rows| && rows[i].id == s {
        if s in m {
          var i :| 0 <= i < |rows[..n]| && rows[..n][i].id == s;
          assert rows[i].id == s;
        } else {
          assert rows[n].id == s;
        }
      }
    }
  }

  // An outbox insert never meets an existing key: an internal error can only be
  // a clash of the primary keys that the request brought along.
  lemma OnlyIdClashes(t: Tables, op: Op)
    requires Inv(t) && WellFormed(op)
    ensures Execute(t, op).Aborted? && Internal in Execute(t, op).codes ==>
              match op
              case OpCreate(id, _, _, _, _, _) => id in t.appts
              case OpCreateOverride(oid, _) => oid in t.overrides
              case OpCreateException(eid, _, _, _, _) => eid in t.exceptions
              case OpMaterialize(_, _, _, _, slotIds, _) => !FreshIds(t.slots, slotIds)
              case _ => false
  {
    match op
    case OpCreate(id, user, company, ids, details, now) =>
      SweepKeepsInv(t, now, None);
      CreateKeysFresh(Sweep(t, now, None), id, user, company, ids, details, now);
    case OpUpdate(user, a, version, change, now, pick) =>
      SweepKeepsInv(t, now, Some(user));
      UpdateKeysFresh(Sweep(t, now, Some(user)), user, a, version, change, now, pick);
    case OpCancel(user, a, now, pick) =>
      SweepKeepsInv(t, now, Some(user));
      CancelKeysFresh(Sweep(t, now, Some(user)), user, a, now, pick);
    case OpForceCancel(a, now) =>
      SweepKeepsInv(t, now, None);
      CancelKeysFresh(Sweep(t, now, None), 0, a, now, map[]);
    case OpAdminReschedule(a, ids, now, pick) =>
      MoveKeysFresh(t, a, ids, now, pick);
    case OpMaterialize(startDay, weeks, today, calendar, slotIds, now) =>
      MaterializeIdsFresh(t, startDay, weeks, today, calendar, slotIds, now);
    case _ =>
  }

  lemma CancelKeysFresh(t: Tables, user: UserId, a: ApptId, now: int, pick: map<SlotId, SlotStatus>)
    requires Inv(t)
    ensures CancelSwept(t, user, a, now, pick).Aborted? ==> Internal !in CancelSwept(t, user, a, now, pick).codes
    ensures ForceCancelSwept(t, a, now).Aborted? ==> Internal !in ForceCancelSwept(t, a, now).codes
  {
    FreshKeys(t.appts, t.events, a);
  }

  lemma MoveKeysFresh(t: Tables, a: ApptId, ids: seq<SlotId>, now: int, pick: map<SlotId, SlotStatus>)
    requires Inv(t)
    ensures AdminReschedule(t, a, ids, now, pick).Aborted? ==> Internal !in AdminReschedule(t, a, ids, now, pick).codes
  {
    FreshKeys(t.appts, t.events, a);
  }

  lemma MaterializeIdsFresh(
    t: Tables, startDay: int, weeks: int, today: int, calendar: Calendar, ids: seq<SlotId>, now: int)
    requires 1 <= weeks <= 53 ==> |ids| == weeks * 7 * SLOT_COUNT
    ensures var out := Materialize(t, startDay, weeks, today, calendar, ids, now);
            out.Aborted? && Internal in out.codes ==> !FreshIds(t.slots, ids)
  {
    if 1 <= weeks <= 53 && FreshIds(t.slots, ids) {
      UpsertAllSucceeds(t.slots, WeekRows(t.overrides, FirstDay(startDay), weeks, today, calendar, ids));
    }
  }

  lemma CreateKeysFresh(
    t: Tables, id: ApptId, user: UserId, company: Fingerprint, ids: seq<SlotId>, details: nat, now: int)
    requires Inv(t)
    ensures var out := CreateSwept(t, id, user, company, ids, details, now);
            out.Aborted? && Internal in out.codes ==> id in t.appts
  {
    var ord := InOrder(t.slots, ids);
    if Validate(t.slots, ord) == None {
      InsertKeysFresh(t, id, ids, now,
        NewRow(user, company, ExceptionToSpend(t, user, company, now), t.slots[ord[0]].start, details));
    }
  }

  lemma InsertKeysFresh(t: Tables, id: ApptId, ids: seq<SlotId>, now: int, r: ApptRow)
    requires KeyInv(t.appts, t.events)
    ensures var out := InsertAppointment(t, id, ids, now, r);
            out.Aborted? && Internal in out.codes ==> id in t.appts
  {
    FreshKeys(t.appts, t.events, id);
  }

  lemma UpdateKeysFresh(
    t: Tables, user: UserId, a: ApptId, version: nat, change: Change, now: int, pick: map<SlotId, SlotStatus>)
    requires Inv(t)
    ensures var out := UpdateSwept(t, user, a, version, change, now, pick);
            out.Aborted? ==> Internal !in out.codes
  {
    FreshKeys(t.appts, t.events, a);
  }
}
