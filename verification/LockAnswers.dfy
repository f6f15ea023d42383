// What the transactions do at the grain of row locks, against the same transactions as single
// steps: which rows a commit writes, and that a transaction whose locks are free gets there.
module LockAnswers {
  import opened Options
  import opened BookingTables
  import opened BookingStatements
  import opened BookingTransactions
  import opened BookingInvariants
  import opened BookingProofs
  import opened BookingTheorems
  import opened BookingAnswers
  import opened RowLocks

  // ---- what a commit writes ----

  // A released slot has the status that was found when it was released.
  ghost predicate FreedAs(slots: Slots, slots': Slots, a: ApptId, freed: map<SlotId, SlotStatus>) {
    && slots'.Keys == slots.Keys
    && (forall s :: s in slots && slots[s].owner == Some(a) ==> s in freed)
    && forall s :: s in slots ==>
         var r := slots[s];
         slots'[s] == if r.owner == Some(a) then SlotRow(r.start, r.end, freed[s], None, r.version + 1) else r
  }

  // Every status is one that the overrides there are now would give.
  ghost predicate Timely(t: Tables, a: ApptId, freed: map<SlotId, SlotStatus>) {
    forall s :: s in t.slots && t.slots[s].owner == Some(a) && s in freed ==>
      if freed[s] == Unavailable then Forbidden(t.overrides, t.slots[s])
      else freed[s] == Available && (Allowed(t.overrides, t.slots[s]) || !Forbidden(t.overrides, t.slots[s]))
  }

  ghost predicate Creates(t: Tables, t': Tables, txn: Txn)
    requires txn.req.Creating?
  {
    exists start, s0, s1, s2 ::
      && Bookable(t.slots, txn.req.ids, start, s0, s1, s2)
      && CreatesAt(t, t', txn, start, s0, s1, s2)
  }

  ghost predicate CreatesAt(t: Tables, t': Tables, txn: Txn, start: int, s0: SlotId, s1: SlotId, s2: SlotId)
    requires txn.req.Creating?
  {
    var id, user, company := txn.req.id, txn.req.user, txn.req.company;
    && id !in t.appts
    && t'.appts == t.appts[id := ApptRow(user, company, txn.exc, start, start + 3 * SLOT, Active, txn.req.details, 1,
                                         None, None)]
    && Books(t.slots, t'.slots, id, s0, s1, s2)
    && SpendsIfAny(t.exceptions, t'.exceptions, txn)
    && t'.overrides == t.overrides && t'.companies == t.companies + {company}
    && t'.events == t.events[EventKey(id, AppointmentCreated, None) := EventRow(None, Pending, None, txn.now)]
                            [EventKey(id, ReminderDue, None) :=
                              EventRow(Some(start - REMINDER_LEAD), Pending, None, txn.now)]
  }

  // The exception was open, and the account's for this company.
  ghost predicate SpendsIfAny(exceptions: Exceptions, exceptions': Exceptions, txn: Txn)
    requires txn.req.Creating?
  {
    match txn.exc
    case None => exceptions' == exceptions
    case Some(e) =>
      && e in exceptions
      && var r := exceptions[e];
      && r.user == txn.req.user && r.company == txn.req.company && r.consumedAt == None
      && exceptions' == exceptions[e := ExcRow(r.user, r.company, r.expiresAt, Some(txn.now), r.revokedAt)]
  }

  ghost predicate NoneActive(appts: Appts, txn: Txn)
    requires txn.req.Creating?
  {
    forall b :: b in appts && appts[b].status == Active ==>
      && appts[b].user != txn.req.user
      && (txn.exc == None && appts[b].exc == None ==> appts[b].company != txn.req.company)
  }

  // At its commit a creation still finds three available slots in a row and nothing else active of
  // the account or, without an exception, of the company; and it writes what a creation writes.
  lemma CreatingCommits(t: Tables, txn: Txn)
    requires Inv(t) && TxnOk(t, txn) && txn.req.Creating? && txn.phase == Ready && CanWrite(t, txn)
    ensures Creates(t, Written(t, txn), txn) && NoneActive(t.appts, txn)
  {
    var ids := txn.req.ids;
    StillBookable(t, txn, ids);
    var ord := txn.ord;
    var start := t.slots[ord[0]].start;
    BookedAnswers(t.slots, ids, txn.req.id, start, ord[0], ord[1], ord[2]);
    FreshKeys(t.appts, t.events, txn.req.id);
    CreatesHere(t, txn, start);
    NothingActive(t, txn);
  }

  lemma CreatesHere(t: Tables, txn: Txn, start: int)
    requires txn.req.Creating? && CanWrite(t, txn) && |txn.ord| == 3 && ExcOk(t, txn) && txn.req.id !in t.appts
    requires start == t.slots[txn.ord[0]].start
    requires Bookable(t.slots, txn.req.ids, start, txn.ord[0], txn.ord[1], txn.ord[2])
    requires Books(t.slots, BookedFor(t.slots, txn.req.ids, txn.req.id), txn.req.id, txn.ord[0], txn.ord[1], txn.ord[2])
    ensures Creates(t, Written(t, txn), txn)
  {
    assert CreatesAt(t, Written(t, txn), txn, start, txn.ord[0], txn.ord[1], txn.ord[2]);
  }

  lemma NothingActive(t: Tables, txn: Txn)
    requires txn.req.Creating?
    requires InsertViolations(t.appts, txn.req.id, txn.req.user, txn.req.company, txn.exc) == {}
    ensures NoneActive(t.appts, txn)
  {
    var bad := InsertViolations(t.appts, txn.req.id, txn.req.user, txn.req.company, txn.exc);
    assert DupAccount !in bad && DupCompany !in bad;
  }

  ghost predicate MovesSlotsAs(slots: Slots, slots': Slots, a: ApptId, freed: map<SlotId, SlotStatus>,
                               s0: SlotId, s1: SlotId, s2: SlotId)
  {
    && slots'.Keys == slots.Keys
    && (forall s :: s in slots && slots[s].owner == Some(a) ==> s in freed)
    && forall s :: s in slots ==>
         var r := slots[s];
         slots'[s] ==
           if s == s0 || s == s1 || s == s2 then SlotRow(r.start, r.end, Booked, Some(a), r.version + 1)
           else if r.owner == Some(a) then SlotRow(r.start, r.end, freed[s], None, r.version + 1)
           else r
  }

  ghost predicate MovesAs(t: Tables, t': Tables, txn: Txn)
    requires txn.req.Moving? && txn.req.a in t.appts
  {
    exists start, s0, s1, s2 ::
      && Bookable(t.slots, txn.req.ids, start, s0, s1, s2) && MoveWrites(t, t', txn.req.a, start, txn.now)
      && MovesSlotsAs(t.slots, t'.slots, txn.req.a, txn.freed, s0, s1, s2)
  }

  lemma TimelyMove(t: Tables, slots': Slots, a: ApptId, freed: map<SlotId, SlotStatus>,
                   s0: SlotId, s1: SlotId, s2: SlotId)
    requires MovesSlotsAs(t.slots, slots', a, freed, s0, s1, s2)
    requires s0 in t.slots && t.slots[s0].owner == None
    requires s1 in t.slots && t.slots[s1].owner == None
    requires s2 in t.slots && t.slots[s2].owner == None
    ensures MovesSlots(t.slots, slots', t.overrides, a, s0, s1, s2) <==> Timely(t, a, freed)
  {
    forall s | s in t.slots && t.slots[s].owner == Some(a)
      ensures GivenBack(t.overrides, t.slots[s], slots'[s]) <==>
              if freed[s] == Unavailable then Forbidden(t.overrides, t.slots[s])
              else freed[s] == Available && (Allowed(t.overrides, t.slots[s]) || !Forbidden(t.overrides, t.slots[s]))
    {}
  }

  lemma FreedCover(t: Tables, txn: Txn, a: ApptId)
    requires ReleasingOk(t, txn, a, {})
    ensures forall s :: s in txn.freed <==> s in t.slots && t.slots[s].owner == Some(a)
  {
    forall s ensures s in txn.freed <==> s in t.slots && t.slots[s].owner == Some(a) {
      assert s in Owned(t.slots, a) <==> s in txn.freed;
    }
  }

  // A move writes what a move writes, with the statuses that were found when the old slots were
  // released. That is one atomic move at the commit exactly if those statuses still fit the overrides.
  lemma MovingCommits(t: Tables, txn: Txn)
    requires Inv(t) && TxnOk(t, txn) && txn.req.Moving? && txn.phase == Ready && CanWrite(t, txn)
    ensures t.appts[txn.req.a].status == Active && MovesAs(t, Written(t, txn), txn)
    ensures Moves(t, Written(t, txn), txn.req.a, txn.req.ids, txn.now) <==> Timely(t, txn.req.a, txn.freed)
  {
    var a, ids, ord := txn.req.a, txn.req.ids, txn.ord;
    StillBookable(t, txn, ids);
    var start := t.slots[ord[0]].start;
    FreedCover(t, txn, a);
    MoveHere(t, txn, start);
    SlotsMovedAs(t, a, ids, txn.freed, start, ord[0], ord[1], ord[2]);
    var t' := Written(t, txn);
    assert MovesSlotsAs(t.slots, t'.slots, a, txn.freed, ord[0], ord[1], ord[2]);
    TimelyMove(t, t'.slots, a, txn.freed, ord[0], ord[1], ord[2]);
    forall at, s0, s1, s2 | Bookable(t.slots, ids, at, s0, s1, s2)
      ensures at == start && s0 == ord[0] && s1 == ord[1] && s2 == ord[2]
    {
      SameTriple(t.slots, ids, at, s0, s1, s2, start, ord[0], ord[1], ord[2]);
    }
  }

  lemma SameTriple(slots: Slots, ids: seq<SlotId>, start: int, s0: SlotId, s1: SlotId, s2: SlotId,
                   at: int, r0: SlotId, r1: SlotId, r2: SlotId)
    requires Bookable(slots, ids, start, s0, s1, s2) && Bookable(slots, ids, at, r0, r1, r2)
    ensures start == at && s0 == r0 && s1 == r1 && s2 == r2
  {
    SortedTriple(slots, ids, start, s0, s1, s2);
    SortedTriple(slots, ids, at, r0, r1, r2);
    assert [s0, s1, s2][0] == [r0, r1, r2][0] && [s0, s1, s2][1] == [r0, r1, r2][1]
           && [s0, s1, s2][2] == [r0, r1, r2][2];
  }

  lemma MoveHere(t: Tables, txn: Txn, start: int)
    requires KeyInv(t.appts, t.events) && txn.req.Moving? && CanWrite(t, txn) && t.appts[txn.req.a].status == Active
    requires start == t.slots[txn.ord[0]].start
    ensures MoveWrites(t, Written(t, txn), txn.req.a, start, txn.now)
  {
    FreshKeys(t.appts, t.events, txn.req.a);
  }

  lemma SlotsMovedAs(t: Tables, a: ApptId, ids: seq<SlotId>, freed: map<SlotId, SlotStatus>,
                     start: int, s0: SlotId, s1: SlotId, s2: SlotId)
    requires SlotsOk(t.slots) && Bookable(t.slots, ids, start, s0, s1, s2)
    requires forall s :: s in freed <==> s in t.slots && t.slots[s].owner == Some(a)
    ensures MovesSlotsAs(t.slots, BookedFor(FreeAs(t.slots, freed), ids, a), a, freed, s0, s1, s2)
    ensures t.slots[s0].owner == None && t.slots[s1].owner == None && t.slots[s2].owner == None
  {
    assert SlotOk(t.slots[s0]) && SlotOk(t.slots[s1]) && SlotOk(t.slots[s2]);
  }

  // The same for a cancellation by the owner; a forced one locks the slots whatever the overrides say.
  lemma CancellingCommits(t: Tables, txn: Txn)
    requires Inv(t) && TxnOk(t, txn) && txn.req.Cancelling? && txn.phase == Ready && CanWrite(t, txn)
    ensures var a, t' := txn.req.a, Written(t, txn);
            && t.appts[a].status == Active && EndLeaves(t, t', a, txn.now)
            && if txn.req.hard then Locks(t.slots, t'.slots, a)
               else FreedAs(t.slots, t'.slots, a, txn.freed)
                    && (Releases(t.slots, t'.slots, t.overrides, a) <==> Timely(t, a, txn.freed))
  {
    var a := txn.req.a;
    FreedCover(t, txn, a);
    EndHere(t, txn);
    assert Written(t, txn).slots == FreeAs(t.slots, txn.freed);
    SlotsFreedAs(t.slots, a, txn.freed);
    if !txn.req.hard {
      TimelyRelease(t, FreeAs(t.slots, txn.freed), a, txn.freed);
    }
  }

  lemma EndHere(t: Tables, txn: Txn)
    requires KeyInv(t.appts, t.events) && txn.req.Cancelling? && CanWrite(t, txn)
    requires t.appts[txn.req.a].status == Active
    ensures EndLeaves(t, Written(t, txn), txn.req.a, txn.now)
  {
    FreshKeys(t.appts, t.events, txn.req.a);
  }

  lemma SlotsFreedAs(slots: Slots, a: ApptId, freed: map<SlotId, SlotStatus>)
    requires forall s :: s in freed <==> s in slots && slots[s].owner == Some(a)
    ensures FreedAs(slots, FreeAs(slots, freed), a, freed)
  {}

  lemma TimelyRelease(t: Tables, slots': Slots, a: ApptId, freed: map<SlotId, SlotStatus>)
    requires FreedAs(t.slots, slots', a, freed)
    ensures Releases(t.slots, slots', t.overrides, a) <==> Timely(t, a, freed)
  {
    forall s | s in t.slots && t.slots[s].owner == Some(a)
      ensures GivenBack(t.overrides, t.slots[s], slots'[s]) <==>
              if freed[s] == Unavailable then Forbidden(t.overrides, t.slots[s])
              else freed[s] == Available && (Allowed(t.overrides, t.slots[s]) || !Forbidden(t.overrides, t.slots[s]))
    {}
  }

  // ---- a transaction whose locks are free gets to its commit ----

  // Steps of x alone.
  ghost predicate Steps(sys: System, x: TxId, steps: seq<Step>, sys': System)
    decreases |steps|
  {
    if steps == [] then sys' == sys
    else
      && !steps[0].Other? && steps[0].x == x && Enabled(sys, steps[0])
      && Steps(After(sys, steps[0]), x, steps[1..], sys')
  }

  ghost predicate Leads(sys: System, x: TxId, sys': System) {
    exists steps :: Steps(sys, x, steps, sys')
  }

  lemma LeadsBy(sys: System, x: TxId, step: Step, sys': System)
    requires !step.Other? && step.x == x && Enabled(sys, step) && sys' == After(sys, step)
    ensures Leads(sys, x, sys')
  {
    assert Steps(sys', x, [], sys');
    assert [step][1..] == [];
    assert Steps(sys, x, [step], sys');
  }

  lemma LeadsNowhere(sys: System, x: TxId)
    ensures Leads(sys, x, sys)
  {
    assert Steps(sys, x, [], sys);
  }

  lemma LeadsOn(a: System, x: TxId, b: System, c: System)
    requires Leads(a, x, b) && Leads(b, x, c)
    ensures Leads(a, x, c)
  {
    var first :| Steps(a, x, first, b);
    var rest :| Steps(b, x, rest, c);
    StepsTogether(a, x, first, b, rest, c);
  }

  lemma {:induction false} StepsTogether(a: System, x: TxId, first: seq<Step>, b: System, rest: seq<Step>, c: System)
    requires Steps(a, x, first, b) && Steps(b, x, rest, c)
    ensures Steps(a, x, first + rest, c)
    decreases |first|
  {
    if first == [] {
      assert first + rest == rest;
    } else {
      assert (first + rest)[0] == first[0] && (first + rest)[1..] == first[1..] + rest;
      StepsTogether(After(a, first[0]), x, first[1..], b, rest, c);
    }
  }

  function Fresh(req: Request, now: int, phase: Phase, held: set<Lock>, exc: Option<ExcId>): Txn {
    Txn(req, now, phase, held, [], map[], exc, map[])
  }

  lemma CompanyTaken(sys: System, x: TxId, req: Request, now: int)
    requires req.Creating? && x !in sys.txns && NewId(sys, req.id) && Free(sys, CompanyRow(req.company))
    ensures Leads(sys, x, With(sys, x, Fresh(req, now, PickException, {CompanyRow(req.company)}, None)))
  {
    var begun := With(sys, x, Fresh(req, now, WantCompany, {}, None));
    LeadsBy(sys, x, Begin(x, req, now), begun);
    var picked := With(sys, x, Fresh(req, now, PickException, {CompanyRow(req.company)}, None));
    assert {} + {CompanyRow(req.company)} == {CompanyRow(req.company)};
    assert picked == With(begun, x, Fresh(req, now, PickException, {CompanyRow(req.company)}, None));
    LeadsBy(begun, x, TakeCompany(x), picked);
    LeadsOn(sys, x, begun, picked);
  }

  // The locks of a creation once it has its exception, if it needs one.
  function ExceptionHeld(req: Request, exc: Option<ExcId>): set<Lock>
    requires req.Creating?
  {
    {CompanyRow(req.company)} + if exc.Some? then {ExceptionRow(exc.value)} else {}
  }

  lemma ExceptionTaken(sys: System, x: TxId, req: Request, now: int, exc: Option<ExcId>)
    requires req.Creating? && x !in sys.txns && exc == ExceptionToSpend(sys.t, req.user, req.company, now)
    requires exc.Some? ==> Free(sys, ExceptionRow(exc.value))
    ensures Leads(With(sys, x, Fresh(req, now, PickException, {CompanyRow(req.company)}, None)), x,
                  With(sys, x, SelectSlots(sys.t, Fresh(req, now, PickException, ExceptionHeld(req, exc), exc),
                    req.ids)))
  {
    var picked := With(sys, x, Fresh(req, now, PickException, {CompanyRow(req.company)}, None));
    var selecting := With(sys, x,
      SelectSlots(sys.t, Fresh(req, now, PickException, ExceptionHeld(req, exc), exc), req.ids));
    if exc == None {
      assert ExceptionHeld(req, exc) == {CompanyRow(req.company)};
      LeadsBy(picked, x, LookForException(x), selecting);
    } else {
      var found := With(sys, x, Fresh(req, now, WantException(exc.value), {CompanyRow(req.company)}, None));
      LeadsBy(picked, x, LookForException(x), found);
      assert Free(found, ExceptionRow(exc.value));
      LeadsBy(found, x, TakeException(x), selecting);
      LeadsOn(picked, x, found, selecting);
    }
  }

  // The slots still to lock are there, each once, and no other transaction holds them.
  ghost predicate CanTake(sys: System, txn: Txn, todo: seq<SlotId>) {
    && (forall s :: s in todo ==> s in sys.t.slots && Free(sys, SlotLock(s)) && SlotLock(s) !in txn.held)
    && (forall i, j :: 0 <= i < j < |todo| ==> todo[i] != todo[j])
  }

  // What taking the slots adds to the transaction.
  ghost predicate Took(t: Tables, txn: Txn, todo: seq<SlotId>, txn': Txn) {
    && txn' == txn.(phase := WantSlots([]), held := txn'.held, seen := txn'.seen)
    && (forall s :: s in todo ==> s in t.slots && s in txn'.seen && txn'.seen[s] == t.slots[s])
    && (forall l :: l in txn'.held ==> l in txn.held || l.SlotLock?)
    && (forall s :: SlotLock(s) in txn'.held ==> SlotLock(s) in txn.held || s in todo)
    && (forall s :: s in txn.seen && s !in todo ==> s in txn'.seen && txn'.seen[s] == txn.seen[s])
  }

  lemma {:induction false} SlotsTaken(sys: System, x: TxId, txn: Txn, todo: seq<SlotId>) returns (txn': Txn)
    requires x !in sys.txns && txn.phase == WantSlots(todo) && CanTake(sys, txn, todo)
    ensures Took(sys.t, txn, todo, txn') && Leads(With(sys, x, txn), x, With(sys, x, txn'))
    decreases |todo|
  {
    if todo == [] {
      txn' := txn;
      LeadsNowhere(With(sys, x, txn), x);
    } else {
      var s := todo[0];
      var next := txn.(phase := WantSlots(todo[1..]), held := txn.held + {SlotLock(s)},
        seen := txn.seen[s := sys.t.slots[s]]);
      OneSlotTaken(sys, x, txn, todo);
      txn' := SlotsTaken(sys, x, next, todo[1..]);
      LeadsOn(With(sys, x, txn), x, With(sys, x, next), With(sys, x, txn'));
      TookOneMore(sys.t, txn, todo, next, txn');
    }
  }

  lemma OneSlotTaken(sys: System, x: TxId, txn: Txn, todo: seq<SlotId>)
    requires x !in sys.txns && todo != [] && txn.phase == WantSlots(todo) && CanTake(sys, txn, todo)
    ensures var s := todo[0];
            var next := txn.(phase := WantSlots(todo[1..]), held := txn.held + {SlotLock(s)},
                             seen := txn.seen[s := sys.t.slots[s]]);
            CanTake(sys, next, todo[1..]) && Leads(With(sys, x, txn), x, With(sys, x, next))
  {
    var s := todo[0];
    assert s in todo;
    var next := txn.(phase := WantSlots(todo[1..]), held := txn.held + {SlotLock(s)},
      seen := txn.seen[s := sys.t.slots[s]]);
    LeadsBy(With(sys, x, txn), x, TakeSlot(x), With(sys, x, next));
    forall r | r in todo[1..] ensures r in todo && r != s {
      var i :| 0 <= i < |todo| - 1 && todo[1..][i] == r;
      assert todo[i + 1] == r;
    }
  }

  lemma TookOneMore(t: Tables, txn: Txn, todo: seq<SlotId>, next: Txn, txn': Txn)
    requires todo != [] && todo[0] in t.slots && Took(t, next, todo[1..], txn')
    requires next == txn.(phase := WantSlots(todo[1..]), held := txn.held + {SlotLock(todo[0])},
                          seen := txn.seen[todo[0] := t.slots[todo[0]]])
    ensures Took(t, txn, todo, txn')
  {
    assert forall s :: s in todo <==> s == todo[0] || s in todo[1..] by {
      assert todo == [todo[0]] + todo[1..];
    }
  }

  // A creation whose locks nobody holds runs to its commit whenever it would commit as one step,
  // and leaves the same tables.
  lemma CreationCommits(sys: System, x: TxId, req: Request, now: int)
    requires req.Creating? && x !in sys.txns && NewId(sys, req.id)
    requires CreateSwept(sys.t, req.id, req.user, req.company, req.ids, req.details, now).Committed?
    requires Free(sys, CompanyRow(req.company)) && Free(sys, UserKey(req.user))
    requires forall e :: e in sys.t.exceptions ==> Free(sys, ExceptionRow(e))
    requires forall s :: s in req.ids ==> Free(sys, SlotLock(s))
    ensures Leads(sys, x, sys.(t := CreateSwept(sys.t, req.id, req.user, req.company, req.ids, req.details, now).t))
  {
    var exc := ExceptionToSpend(sys.t, req.user, req.company, now);
    var picked := Fresh(req, now, PickException, {CompanyRow(req.company)}, None);
    var selecting := SelectSlots(sys.t, Fresh(req, now, PickException, ExceptionHeld(req, exc), exc), req.ids);
    CompanyTaken(sys, x, req, now);
    ExceptionTaken(sys, x, req, now, exc);
    LeadsOn(sys, x, With(sys, x, picked), With(sys, x, selecting));
    var taken := SlotsTaken(sys, x, selecting, InOrder(sys.t.slots, req.ids));
    LeadsOn(sys, x, With(sys, x, selecting), With(sys, x, taken));
    TakenCommits(sys, x, req, now, exc, taken);
    var end := sys.(t := CreateSwept(sys.t, req.id, req.user, req.company, req.ids, req.details, now).t);
    LeadsOn(sys, x, With(sys, x, taken), end);
  }

  // From the locked selection on.
  lemma TakenCommits(sys: System, x: TxId, req: Request, now: int, exc: Option<ExcId>, txn: Txn)
    requires req.Creating? && x !in sys.txns && exc == ExceptionToSpend(sys.t, req.user, req.company, now)
    requires CreateSwept(sys.t, req.id, req.user, req.company, req.ids, req.details, now).Committed?
    requires Free(sys, UserKey(req.user))
    requires Took(sys.t, SelectSlots(sys.t, Fresh(req, now, PickException, ExceptionHeld(req, exc), exc), req.ids),
                  InOrder(sys.t.slots, req.ids), txn)
    ensures Leads(With(sys, x, txn), x,
                  sys.(t := CreateSwept(sys.t, req.id, req.user, req.company, req.ids, req.details, now).t))
  {
    var ready := txn.(phase := Ready, held := txn.held + {UserKey(req.user)});
    var end := sys.(t := CreateSwept(sys.t, req.id, req.user, req.company, req.ids, req.details, now).t);
    ChecksHold(sys.t, req, now, exc);
    UserReady(sys, x, req, txn, ready);
    CommitDone(sys, x, req, now, exc, ready);
    LeadsOn(With(sys, x, txn), x, With(sys, x, ready), end);
  }

  lemma UserReady(sys: System, x: TxId, req: Request, txn: Txn, ready: Txn)
    requires x !in sys.txns && txn.req == req && req.Creating? && txn.phase == WantSlots([])
    requires forall s :: s in txn.ord ==> s in sys.t.slots && s in txn.seen && txn.seen[s] == sys.t.slots[s]
    requires Validate(sys.t.slots, txn.ord) == None
    requires InsertViolations(sys.t.appts, req.id, req.user, req.company, txn.exc) == {}
    requires Free(sys, UserKey(req.user)) && UserKey(req.user) !in txn.held
    requires ready == txn.(phase := Ready, held := txn.held + {UserKey(req.user)})
    ensures Leads(With(sys, x, txn), x, With(sys, x, ready))
  {
    var checked := txn.(phase := WantUser);
    CheckPassed(sys, x, txn, txn.ord);
    UserTaken(sys, x, req, checked, ready);
    LeadsOn(With(sys, x, txn), x, With(sys, x, checked), With(sys, x, ready));
  }

  lemma ChecksHold(t: Tables, req: Request, now: int, exc: Option<ExcId>)
    requires req.Creating? && exc == ExceptionToSpend(t, req.user, req.company, now)
    requires CreateSwept(t, req.id, req.user, req.company, req.ids, req.details, now).Committed?
    ensures Validate(t.slots, InOrder(t.slots, req.ids)) == None
    ensures InsertViolations(t.appts, req.id, req.user, req.company, exc) == {}
  {}

  lemma CheckPassed(sys: System, x: TxId, txn: Txn, ord: seq<SlotId>)
    requires x !in sys.txns && txn.phase == WantSlots([]) && txn.req.Creating? && txn.ord == ord
    requires forall s :: s in ord ==> s in sys.t.slots && s in txn.seen && txn.seen[s] == sys.t.slots[s]
    requires Validate(sys.t.slots, ord) == None
    ensures Leads(With(sys, x, txn), x, With(sys, x, txn.(phase := WantUser)))
  {
    SameValidation(sys.t.slots, txn.seen, ord);
    LeadsBy(With(sys, x, txn), x, CheckSlots(x), With(sys, x, txn.(phase := WantUser)));
  }

  lemma CommitDone(sys: System, x: TxId, req: Request, now: int, exc: Option<ExcId>, ready: Txn)
    requires req.Creating? && x !in sys.txns && exc == ExceptionToSpend(sys.t, req.user, req.company, now)
    requires CreateSwept(sys.t, req.id, req.user, req.company, req.ids, req.details, now).Committed?
    requires ready.req == req && ready.now == now && ready.phase == Ready && ready.exc == exc
    requires ready.ord == InOrder(sys.t.slots, req.ids)
    ensures Leads(With(sys, x, ready), x,
                  sys.(t := CreateSwept(sys.t, req.id, req.user, req.company, req.ids, req.details, now).t))
  {
    ChecksHold(sys.t, req, now, exc);
    WritesTheSame(sys.t, req, now, exc, ready);
    var end := sys.(t := CreateSwept(sys.t, req.id, req.user, req.company, req.ids, req.details, now).t);
    assert Without(With(sys, x, ready), x).txns == sys.txns;
    LeadsBy(With(sys, x, ready), x, Commit(x), end);
  }

  lemma WritesTheSame(t: Tables, req: Request, now: int, exc: Option<ExcId>, ready: Txn)
    requires req.Creating? && exc == ExceptionToSpend(t, req.user, req.company, now)
    requires CreateSwept(t, req.id, req.user, req.company, req.ids, req.details, now).Committed?
    requires ready.req == req && ready.now == now && ready.exc == exc && ready.ord == InOrder(t.slots, req.ids)
    ensures CanWrite(t, ready)
    ensures Written(t, ready) == CreateSwept(t, req.id, req.user, req.company, req.ids, req.details, now).t
  {
    ChecksHold(t, req, now, exc);
    assert ready.ord[0] in ready.ord;
  }

  lemma UserTaken(sys: System, x: TxId, req: Request, checked: Txn, ready: Txn)
    requires x !in sys.txns && checked.req == req && req.Creating? && checked.phase == WantUser
    requires Free(sys, UserKey(req.user)) && UserKey(req.user) !in checked.held
    requires InsertViolations(sys.t.appts, req.id, req.user, req.company, checked.exc) == {}
    requires ready == checked.(phase := Ready, held := checked.held + {UserKey(req.user)})
    ensures Leads(With(sys, x, checked), x, With(sys, x, ready))
  {
    assert Free(With(sys, x, checked), UserKey(req.user));
    LeadsBy(With(sys, x, checked), x, TakeUser(x), With(sys, x, ready));
  }

  // ---- releasing, and the other two transactions ----

  function StatusFor(t: Tables, req: Request, s: SlotId): SlotStatus
    requires s in t.slots
  {
    if req.Cancelling? && req.hard then OwnerLocked else FreeStatus(t.overrides, t.slots[s])
  }

  ghost predicate ReleasedAll(t: Tables, txn: Txn, olds: set<SlotId>, txn': Txn) {
    && txn' == txn.(phase := Ready, held := txn'.held, freed := txn'.freed)
    && txn'.freed.Keys == txn.freed.Keys + olds
    && (forall s :: s in olds ==> s in t.slots && txn'.freed[s] == StatusFor(t, txn.req, s))
    && (forall s :: s in txn.freed && s !in olds ==> txn'.freed[s] == txn.freed[s])
    && (forall s :: SlotLock(s) in txn'.held ==> SlotLock(s) in txn.held || s in olds)
  }

  lemma {:induction false} OldsTaken(sys: System, x: TxId, txn: Txn, olds: set<SlotId>) returns (txn': Txn)
    requires x !in sys.txns && !txn.req.Creating? && txn.phase == if olds == {} then Ready else WantOld(olds)
    requires forall s :: s in olds ==> s in sys.t.slots && Free(sys, SlotLock(s))
    ensures ReleasedAll(sys.t, txn, olds, txn') && Leads(With(sys, x, txn), x, With(sys, x, txn'))
    decreases |olds|
  {
    if olds == {} {
      txn' := txn;
      LeadsNowhere(With(sys, x, txn), x);
    } else {
      var s :| s in olds;
      var next := OneOldTaken(sys, x, txn, olds, s);
      txn' := OldsTaken(sys, x, next, olds - {s});
      LeadsOn(With(sys, x, txn), x, With(sys, x, next), With(sys, x, txn'));
      ReleasedOneMore(sys.t, txn, olds, s, next, txn');
    }
  }

  lemma ReleasedOneMore(t: Tables, txn: Txn, olds: set<SlotId>, s: SlotId, next: Txn, txn': Txn)
    requires s in olds && s in t.slots && ReleasedAll(t, next, olds - {s}, txn') && next.req == txn.req
    requires next == txn.(phase := next.phase, held := txn.held + {SlotLock(s)},
             freed := txn.freed[s := StatusFor(t, txn.req, s)])
    ensures ReleasedAll(t, txn, olds, txn')
  {
    assert txn.freed.Keys + olds == next.freed.Keys + (olds - {s});
  }

  lemma OneOldTaken(sys: System, x: TxId, txn: Txn, olds: set<SlotId>, s: SlotId) returns (next: Txn)
    requires x !in sys.txns && !txn.req.Creating? && txn.phase == WantOld(olds) && s in olds
    requires s in sys.t.slots && Free(sys, SlotLock(s))
    ensures next == txn.(phase := if olds - {s} == {} then Ready else WantOld(olds - {s}),
                         held := txn.held + {SlotLock(s)}, freed := txn.freed[s := StatusFor(sys.t, txn.req, s)])
    ensures Leads(With(sys, x, txn), x, With(sys, x, next))
  {
    var status := StatusFor(sys.t, txn.req, s);
    next := txn.(phase := if olds - {s} == {} then Ready else WantOld(olds - {s}), held := txn.held + {SlotLock(s)},
                 freed := txn.freed[s := status]);
    assert ReleaseTo(txn.req, sys.t.overrides, sys.t.slots[s], status);
    LeadsBy(With(sys, x, txn), x, TakeOld(x, s, status), With(sys, x, next));
  }

  // The appointment's row, once locked and found active.
  function Locked(t: Tables, req: Request, now: int): Txn
    requires !req.Creating?
  {
    var locked := Fresh(req, now, WantAppt, {ApptLock(req.a)}, None);
    if req.Moving? then SelectSlots(t, locked, req.ids) else locked.(phase := WantOld(Owned(t.slots, req.a)))
  }

  lemma ApptTaken(sys: System, x: TxId, req: Request, now: int)
    requires !req.Creating? && x !in sys.txns && Free(sys, ApptLock(req.a))
    requires req.a in sys.t.appts && sys.t.appts[req.a].status == Active
    ensures Leads(sys, x, With(sys, x, Locked(sys.t, req, now)))
  {
    var begun := With(sys, x, Fresh(req, now, WantAppt, {}, None));
    LeadsBy(sys, x, Begin(x, req, now), begun);
    assert {} + {ApptLock(req.a)} == {ApptLock(req.a)};
    var locked := With(sys, x, Locked(sys.t, req, now));
    assert Free(begun, ApptLock(req.a));
    LeadsBy(begun, x, TakeAppt(x), locked);
    LeadsOn(sys, x, begun, locked);
  }

  lemma OwnsSome(t: Tables, a: ApptId)
    requires OwnershipInv(t) && a in t.appts && t.appts[a].status == Active
    ensures Owned(t.slots, a) != {}
  {
    var s0, s1, s2 :| OwnsExactly(t.slots, a, s0, s1, s2);
    assert s0 in Owned(t.slots, a);
  }

  // A cancellation whose locks nobody holds does what the single step does.
  lemma CancellationCommits(sys: System, x: TxId, req: Request, now: int)
    requires Inv(sys.t) && req.Cancelling? && x !in sys.txns && Free(sys, ApptLock(req.a))
    requires req.a in sys.t.appts && sys.t.appts[req.a].status == Active
    requires forall s :: s in sys.t.slots && sys.t.slots[s].owner == Some(req.a) ==> Free(sys, SlotLock(s))
    ensures var user := sys.t.appts[req.a].user;
            var out := if req.hard then ForceCancelSwept(sys.t, req.a, now)
                       else CancelSwept(sys.t, user, req.a, now, map[]);
            out.Committed? && Leads(sys, x, sys.(t := out.t))
  {
    CancelEnds(sys.t, req, now);
    var ready := CancelReady(sys, x, req, now);
    var end := sys.(t := CancelledAs(sys.t, req, now));
    FreesTheSame(sys.t, req, ready.freed, SlotsAfter(sys.t, req));
    assert Written(sys.t, ready) == CancelledAs(sys.t, req, now);
    CommitLeads(sys, x, ready, end);
    LeadsOn(sys, x, With(sys, x, ready), end);
  }

  function SlotsAfter(t: Tables, req: Request): Slots
    requires !req.Creating?
  {
    if req.Cancelling? && req.hard then HardLocked(t.slots, req.a) else Released(t.slots, t.overrides, req.a, map[])
  }

  function CancelledAs(t: Tables, req: Request, now: int): Tables
    requires req.Cancelling? && req.a in t.appts
  {
    Ended(t, req.a, SlotsAfter(t, req), now, CancelledRow(t.appts[req.a], now))
  }

  lemma CancelEnds(t: Tables, req: Request, now: int)
    requires KeyInv(t.appts, t.events) && req.Cancelling? && req.a in t.appts && t.appts[req.a].status == Active
    ensures var out := if req.hard then ForceCancelSwept(t, req.a, now)
                       else CancelSwept(t, t.appts[req.a].user, req.a, now, map[]);
            out == Committed(CancelledAs(t, req, now))
  {
    FreshKeys(t.appts, t.events, req.a);
  }

  // The old slots, from none to all of them.
  lemma AllReleased(sys: System, x: TxId, txn: Txn) returns (ready: Txn)
    requires OwnershipInv(sys.t) && x !in sys.txns && !txn.req.Creating? && txn.freed == map[]
    requires txn.phase == WantOld(Owned(sys.t.slots, txn.req.a))
    requires txn.req.a in sys.t.appts && sys.t.appts[txn.req.a].status == Active
    requires forall s :: s in sys.t.slots && sys.t.slots[s].owner == Some(txn.req.a) ==> Free(sys, SlotLock(s))
    ensures ready == txn.(phase := Ready, held := ready.held, freed := ready.freed)
    ensures ready.freed.Keys == Owned(sys.t.slots, txn.req.a)
    ensures forall s :: SlotLock(s) in ready.held ==> SlotLock(s) in txn.held || s in Owned(sys.t.slots, txn.req.a)
    ensures forall s :: s in ready.freed ==> s in sys.t.slots && ready.freed[s] == StatusFor(sys.t, txn.req, s)
    ensures Leads(With(sys, x, txn), x, With(sys, x, ready))
  {
    OwnsSome(sys.t, txn.req.a);
    ready := OldsTaken(sys, x, txn, Owned(sys.t.slots, txn.req.a));
  }

  lemma CancelReady(sys: System, x: TxId, req: Request, now: int) returns (ready: Txn)
    requires Inv(sys.t) && req.Cancelling? && x !in sys.txns && Free(sys, ApptLock(req.a))
    requires req.a in sys.t.appts && sys.t.appts[req.a].status == Active
    requires forall s :: s in sys.t.slots && sys.t.slots[s].owner == Some(req.a) ==> Free(sys, SlotLock(s))
    ensures ready.req == req && ready.now == now && ready.phase == Ready
    ensures ready.freed.Keys == Owned(sys.t.slots, req.a)
    ensures forall s :: SlotLock(s) in ready.held ==> s in Owned(sys.t.slots, req.a)
    ensures forall s :: s in ready.freed ==> s in sys.t.slots && ready.freed[s] == StatusFor(sys.t, req, s)
    ensures Leads(sys, x, With(sys, x, ready))
  {
    var locked := Locked(sys.t, req, now);
    ApptTaken(sys, x, req, now);
    ready := AllReleased(sys, x, locked);
    LeadsOn(sys, x, With(sys, x, locked), With(sys, x, ready));
  }

  lemma CommitLeads(sys: System, x: TxId, ready: Txn, end: System)
    requires x !in sys.txns && ready.phase == Ready && CanWrite(sys.t, ready) && end == sys.(t := Written(sys.t, ready))
    ensures Leads(With(sys, x, ready), x, end)
  {
    assert Without(With(sys, x, ready), x).txns == sys.txns;
    LeadsBy(With(sys, x, ready), x, Commit(x), end);
  }

  lemma FreesTheSame(t: Tables, req: Request, freed: map<SlotId, SlotStatus>, slots: Slots)
    requires !req.Creating? && freed.Keys == Owned(t.slots, req.a)
    requires forall s :: s in freed ==> s in t.slots && freed[s] == StatusFor(t, req, s)
    requires slots == SlotsAfter(t, req)
    ensures FreeAs(t.slots, freed) == slots
  {
    forall s | s in t.slots ensures s in freed <==> t.slots[s].owner == Some(req.a) {
      assert s in freed.Keys <==> s in Owned(t.slots, req.a);
    }
  }

  // And so does a move.
  lemma MoveCommits(sys: System, x: TxId, req: Request, now: int)
    requires Inv(sys.t) && req.Moving? && x !in sys.txns && Free(sys, ApptLock(req.a))
    requires req.a in sys.t.appts && sys.t.appts[req.a].status == Active
    requires Reschedule(sys.t, req.a, req.ids, now, map[]).Committed?
    requires forall s :: s in sys.t.slots && sys.t.slots[s].owner == Some(req.a) ==> Free(sys, SlotLock(s))
    requires forall s :: s in req.ids ==> Free(sys, SlotLock(s))
    ensures Leads(sys, x, sys.(t := Reschedule(sys.t, req.a, req.ids, now, map[]).t))
  {
    var ready := MoveReady(sys, x, req, now);
    var end := sys.(t := Reschedule(sys.t, req.a, req.ids, now, map[]).t);
    MovesTheSame(sys.t, ready);
    CommitLeads(sys, x, ready, end);
    LeadsOn(sys, x, With(sys, x, ready), end);
  }

  lemma MoveReady(sys: System, x: TxId, req: Request, now: int) returns (ready: Txn)
    requires Inv(sys.t) && req.Moving? && x !in sys.txns && Free(sys, ApptLock(req.a))
    requires req.a in sys.t.appts && sys.t.appts[req.a].status == Active
    requires Validate(sys.t.slots, InOrder(sys.t.slots, req.ids)) == None
    requires forall s :: s in sys.t.slots && sys.t.slots[s].owner == Some(req.a) ==> Free(sys, SlotLock(s))
    requires forall s :: s in req.ids ==> Free(sys, SlotLock(s))
    ensures ready.req == req && ready.now == now && ready.phase == Ready
    ensures ready.ord == InOrder(sys.t.slots, req.ids) && ready.freed.Keys == Owned(sys.t.slots, req.a)
    ensures forall s :: s in ready.freed ==> s in sys.t.slots && ready.freed[s] == StatusFor(sys.t, req, s)
    ensures Leads(sys, x, With(sys, x, ready))
  {
    var checked := MoveSelected(sys, x, req, now);
    ready := AllReleased(sys, x, checked);
    LeadsOn(sys, x, With(sys, x, checked), With(sys, x, ready));
  }

  lemma MoveSelected(sys: System, x: TxId, req: Request, now: int) returns (checked: Txn)
    requires req.Moving? && x !in sys.txns && Free(sys, ApptLock(req.a))
    requires req.a in sys.t.appts && sys.t.appts[req.a].status == Active
    requires Validate(sys.t.slots, InOrder(sys.t.slots, req.ids)) == None
    requires forall s :: s in req.ids ==> Free(sys, SlotLock(s))
    ensures checked.req == req && checked.now == now && checked.ord == InOrder(sys.t.slots, req.ids)
    ensures checked.phase == WantOld(Owned(sys.t.slots, req.a)) && checked.freed == map[]
    ensures Leads(sys, x, With(sys, x, checked))
  {
    var locked := Locked(sys.t, req, now);
    var ord := InOrder(sys.t.slots, req.ids);
    ApptTaken(sys, x, req, now);
    var taken := SlotsTaken(sys, x, locked, ord);
    LeadsOn(sys, x, With(sys, x, locked), With(sys, x, taken));
    checked := taken.(phase := WantOld(Owned(sys.t.slots, req.a)));
    MoveChecked(sys, x, taken, ord);
    LeadsOn(sys, x, With(sys, x, taken), With(sys, x, checked));
  }

  lemma MoveChecked(sys: System, x: TxId, txn: Txn, ord: seq<SlotId>)
    requires x !in sys.txns && txn.phase == WantSlots([]) && txn.req.Moving? && txn.ord == ord
    requires forall s :: s in ord ==> s in sys.t.slots && s in txn.seen && txn.seen[s] == sys.t.slots[s]
    requires Validate(sys.t.slots, ord) == None
    ensures Leads(With(sys, x, txn), x, With(sys, x, txn.(phase := WantOld(Owned(sys.t.slots, txn.req.a)))))
  {
    SameValidation(sys.t.slots, txn.seen, ord);
    LeadsBy(With(sys, x, txn), x, CheckSlots(x), With(sys, x, txn.(phase := WantOld(Owned(sys.t.slots, txn.req.a)))));
  }

  lemma MovesTheSame(t: Tables, ready: Txn)
    requires ready.req.Moving? && ready.req.a in t.appts && ready.ord == InOrder(t.slots, ready.req.ids)
    requires Reschedule(t, ready.req.a, ready.req.ids, ready.now, map[]).Committed?
    requires ready.freed.Keys == Owned(t.slots, ready.req.a)
    requires forall s :: s in ready.freed ==> s in t.slots && ready.freed[s] == StatusFor(t, ready.req, s)
    ensures CanWrite(t, ready) && Written(t, ready) == Reschedule(t, ready.req.a, ready.req.ids, ready.now, map[]).t
  {
    assert ready.ord[0] in ready.ord;
    FreesTheSame(t, ready.req, ready.freed, SlotsAfter(t, ready.req));
  }

  // ---- in runs from the empty schema ----

  ghost predicate Reachable(sys: System) {
    exists history, steps :: LockRun(history, steps) && history[|steps|] == sys
  }

  lemma ReachOn(sys: System, step: Step)
    requires Reachable(sys) && Enabled(sys, step)
    ensures Reachable(After(sys, step))
  {
    var history, steps :| LockRun(history, steps) && history[|steps|] == sys;
    var history', steps' := history + [After(sys, step)], steps + [step];
    forall i | 0 <= i < |steps'|
      ensures Enabled(history'[i], steps'[i]) && history'[i + 1] == After(history'[i], steps'[i])
    {
      if i < |steps| {
        assert history'[i + 1] == history[i + 1] && history'[i] == history[i] && steps'[i] == steps[i];
      }
    }
    assert LockRun(history', steps') && history'[|steps'|] == After(sys, step);
  }

  lemma {:induction false} ReachBy(sys: System, x: TxId, steps: seq<Step>, sys': System)
    requires Reachable(sys) && Steps(sys, x, steps, sys')
    ensures Reachable(sys')
    decreases |steps|
  {
    if steps != [] {
      ReachOn(sys, steps[0]);
      ReachBy(After(sys, steps[0]), x, steps[1..], sys');
    }
  }

  lemma ReachLed(sys: System, x: TxId, sys': System)
    requires Reachable(sys) && Leads(sys, x, sys')
    ensures Reachable(sys')
  {
    var steps :| Steps(sys, x, steps, sys');
    ReachBy(sys, x, steps, sys');
  }

  lemma ReachStart()
    ensures Reachable(START)
  {
    var steps: seq<Step> := [];
    assert LockRun([START], steps) && [START][|steps|] == START;
  }

  lemma ReachableSound(sys: System)
    requires Reachable(sys)
    ensures LockInv(sys)
  {
    var history, steps :| LockRun(history, steps) && history[|steps|] == sys;
    LockRunKeeps(history, steps, |steps|);
  }

  // A slot that is free although the only overrides that cover it forbid it.
  ghost predicate FreeAgainst(t: Tables, s: SlotId) {
    && s in t.slots && t.slots[s].status == Available
    && Forbidden(t.overrides, t.slots[s]) && !Allowed(t.overrides, t.slots[s])
  }

  // A soft cancellation that has released its slots, alone.
  ghost predicate Releasing(sys: System, x: TxId, a: ApptId) {
    && sys.txns.Keys == {x}
    && var txn := sys.txns[x];
    && txn.req == Cancelling(a, false) && txn.phase == Ready && CanWrite(sys.t, txn)
    && txn.freed.Keys == Owned(sys.t.slots, a)
    && forall s :: SlotLock(s) in txn.held ==> s in Owned(sys.t.slots, a)
  }

  lemma OverrideLeavesBooked(sys: System, x: TxId, a: ApptId, id: OverrideId, o: Override)
    requires SlotsOk(sys.t.slots) && Releasing(sys, x, a) && id !in sys.t.overrides && o.start < o.end
    ensures var t' := Next(sys.t, OpCreateOverride(id, o));
            && t' == sys.t.(slots := t'.slots, overrides := sys.t.overrides[id := o])
            && (forall s :: s in Owned(sys.t.slots, a) ==> s in t'.slots && t'.slots[s] == sys.t.slots[s])
            && Enabled(sys, Other(OpCreateOverride(id, o)))
  {
    var t' := Next(sys.t, OpCreateOverride(id, o));
    forall s | s in Owned(sys.t.slots, a) ensures s in t'.slots && t'.slots[s] == sys.t.slots[s] {
      assert SlotOk(sys.t.slots[s]);
    }
    forall s | s in sys.t.slots && !Free(sys, SlotLock(s)) ensures s in Owned(sys.t.slots, a) {}
  }

  // An override that comes between the release of a slot and its commit does not see the slot.
  lemma OverrideMisses(sys: System, x: TxId, a: ApptId, id: OverrideId, s: SlotId)
    requires SlotsOk(sys.t.slots) && Releasing(sys, x, a) && id !in sys.t.overrides && s in Owned(sys.t.slots, a)
    requires sys.txns[x].freed[s] == Available && !Allowed(sys.t.overrides, sys.t.slots[s])
    ensures var edit := Other(OpCreateOverride(id,
            Override(sys.t.slots[s].start, sys.t.slots[s].end, ForceUnavailable)));
            && Enabled(sys, edit) && Enabled(After(sys, edit), Commit(x))
            && FreeAgainst(After(After(sys, edit), Commit(x)).t, s)
  {
    var txn, r := sys.txns[x], sys.t.slots[s];
    var o := Override(r.start, r.end, ForceUnavailable);
    assert SlotOk(r);
    OverrideLeavesBooked(sys, x, a, id, o);
    var t' := Next(sys.t, OpCreateOverride(id, o));
    FreedAgainst(t', txn, s, sys.t.overrides, id);
    var mid := After(sys, Other(OpCreateOverride(id, o)));
    assert mid == sys.(t := t');
    assert After(mid, Commit(x)).t == Written(t', txn);
  }

  lemma FreedAgainst(t: Tables, txn: Txn, s: SlotId, overrides: Overrides, id: OverrideId)
    requires txn.req.Cancelling? && CanWrite(t, txn) && s in t.slots && s in txn.freed && txn.freed[s] == Available
    requires id !in overrides && !Allowed(overrides, t.slots[s])
    requires t.overrides == overrides[id := Override(t.slots[s].start, t.slots[s].end, ForceUnavailable)]
    ensures FreeAgainst(Written(t, txn), s)
  {
    var r := Written(t, txn).slots[s];
    assert t.overrides[id].start <= r.start && r.end <= t.overrides[id].end;
    forall o | o in t.overrides && t.overrides[o].action == ForceAvailable
      ensures o in overrides && overrides[o] == t.overrides[o]
    {}
  }
}
