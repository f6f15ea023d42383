// The booking transactions at the grain of row locks: any number of them,
// interleaved between any two lock requests, reading committed rows. Writes
// become visible at commit, and every lock is held until then.
module RowLocks {
  import opened Options
  import opened BookingTables
  import opened BookingStatements
  import opened BookingTransactions
  import opened BookingInvariants
  import opened BookingProofs
  import opened BookingTheorems

  type TxId = nat

  datatype Lock =
    | CompanyRow(company: Fingerprint)
    | ExceptionRow(e: ExcId)
    | SlotLock(s: SlotId)
    | ApptLock(a: ApptId)
    | UserKey(user: UserId)   // the entry of uq_active_user an insert waits on

  datatype Request =
    | Creating(id: ApptId, user: UserId, company: Fingerprint, ids: seq<SlotId>, details: nat)
    | Moving(a: ApptId, ids: seq<SlotId>)
    | Cancelling(a: ApptId, hard: bool)

  datatype Phase =
    | WantCompany                        // about to lock the company row
    | PickException                      // holds the company row, has not looked for a duplicate
    | WantException(e: ExcId)            // about to lock the exception it found
    | WantAppt                           // about to lock the appointment row
    | WantSlots(todo: seq<SlotId>)       // locking the selected slots in order
    | WantUser                           // slots validated, about to insert
    | WantOld(olds: set<SlotId>)         // releasing the old slots one by one
    | Ready                              // every statement issued, about to commit

  // `ord` is the selection in lock order, `seen` the rows as locked, `freed` the
  // statuses given to released slots.
  datatype Txn = Txn(
    req: Request, now: int, phase: Phase, held: set<Lock>,
    ord: seq<SlotId>, seen: Slots, exc: Option<ExcId>, freed: map<SlotId, SlotStatus>)

  datatype System = System(t: Tables, txns: map<TxId, Txn>)

  datatype Step =
    | Begin(x: TxId, req: Request, now: int)
    | TakeCompany(x: TxId)
    | LookForException(x: TxId)
    | TakeException(x: TxId)
    | TakeAppt(x: TxId)
    | TakeSlot(x: TxId)
    | CheckSlots(x: TxId)
    | TakeUser(x: TxId)
    | TakeOld(x: TxId, s: SlotId, status: SlotStatus)
    | Commit(x: TxId)
    | Abort(x: TxId)
    | Other(op: Op)

  ghost predicate Free(sys: System, l: Lock) {
    forall y :: y in sys.txns ==> l !in sys.txns[y].held
  }

  // Sweeps, override edits, new exceptions and materialisation wait for every
  // row they change.
  predicate IsOther(op: Op) {
    op.OpSweep? || op.OpCreateOverride? || op.OpUpdateOverride? || op.OpDeleteOverride?
    || op.OpCreateException? || op.OpMaterialize?
  }

  ghost predicate LeavesLocked(sys: System, t': Tables) {
    && (forall s :: s in sys.t.slots && !Free(sys, SlotLock(s)) ==> s in t'.slots && t'.slots[s] == sys.t.slots[s])
    && (forall a :: a in sys.t.appts && !Free(sys, ApptLock(a)) ==> a in t'.appts && t'.appts[a] == sys.t.appts[a])
  }

  predicate ReleaseTo(req: Request, overrides: Overrides, r: SlotRow, status: SlotStatus) {
    if req.Cancelling? && req.hard then status == OwnerLocked else status in ReleaseTargets(overrides, r)
  }

  function Owned(slots: Slots, a: ApptId): set<SlotId> {
    set s | s in slots && slots[s].owner == Some(a)
  }

  // Appointment ids are drawn afresh for each request.
  ghost predicate NewId(sys: System, id: ApptId) {
    id !in sys.t.appts && forall y :: y in sys.txns && sys.txns[y].req.Creating? ==> sys.txns[y].req.id != id
  }

  // Slot ids too: no running request names a slot that is yet to be made.
  ghost predicate NewSlotIds(sys: System, slots': Slots) {
    forall x, s :: x in sys.txns && s in Wanted(sys.txns[x].req) && s in slots' ==> s in sys.t.slots
  }

  function Wanted(req: Request): seq<SlotId> {
    if req.Cancelling? then [] else req.ids
  }

  ghost predicate Enabled(sys: System, step: Step) {
    match step
    case Begin(x, req, _) =>
      && x !in sys.txns
      && (req.Creating? ==> NewId(sys, req.id))
    case TakeCompany(x) => x in sys.txns && sys.txns[x].phase == WantCompany
        && sys.txns[x].req.Creating? && Free(sys, CompanyRow(sys.txns[x].req.company))
    case LookForException(x) => x in sys.txns && sys.txns[x].phase == PickException && sys.txns[x].req.Creating?
    case TakeException(x) => x in sys.txns && sys.txns[x].phase.WantException? && sys.txns[x].req.Creating?
        && Free(sys, ExceptionRow(sys.txns[x].phase.e))
    case TakeAppt(x) => x in sys.txns && sys.txns[x].phase == WantAppt && !sys.txns[x].req.Creating?
        && Free(sys, ApptLock(sys.txns[x].req.a))
    case TakeSlot(x) => x in sys.txns && sys.txns[x].phase.WantSlots? && sys.txns[x].phase.todo != []
        && Free(sys, SlotLock(sys.txns[x].phase.todo[0])) && sys.txns[x].phase.todo[0] in sys.t.slots
    case CheckSlots(x) => x in sys.txns && sys.txns[x].phase == WantSlots([]) && !sys.txns[x].req.Cancelling?
        && forall s :: s in sys.txns[x].ord ==> s in sys.txns[x].seen
    case TakeUser(x) => x in sys.txns && sys.txns[x].phase == WantUser && sys.txns[x].req.Creating?
        && Free(sys, UserKey(sys.txns[x].req.user))
    case TakeOld(x, s, status) => x in sys.txns && sys.txns[x].phase.WantOld? && s in sys.txns[x].phase.olds
        && s in sys.t.slots && !sys.txns[x].req.Creating?
        && (Free(sys, SlotLock(s)) || SlotLock(s) in sys.txns[x].held)
        && ReleaseTo(sys.txns[x].req, sys.t.overrides, sys.t.slots[s], status)
    case Commit(x) => x in sys.txns && sys.txns[x].phase == Ready && CanWrite(sys.t, sys.txns[x])
    case Abort(x) => x in sys.txns
    case Other(op) =>
      && WellFormed(op) && IsOther(op)
      && LeavesLocked(sys, Next(sys.t, op)) && NewSlotIds(sys, Next(sys.t, op).slots)
  }

  // ---- effects ----

  function Start(req: Request): Phase {
    if req.Creating? then WantCompany else WantAppt
  }

  function With(sys: System, x: TxId, txn: Txn): System {
    sys.(txns := sys.txns[x := txn])
  }

  function Without(sys: System, x: TxId): System {
    sys.(txns := sys.txns - {x})
  }

  function SelectSlots(t: Tables, txn: Txn, ids: seq<SlotId>): Txn {
    txn.(phase := WantSlots(InOrder(t.slots, ids)), ord := InOrder(t.slots, ids), seen := map[])
  }

  function FreeAs(slots: Slots, freed: map<SlotId, SlotStatus>): Slots {
    map s | s in slots :: if s in freed then Bumped(slots[s], freed[s], None) else slots[s]
  }

  predicate CanWrite(t: Tables, txn: Txn) {
    match txn.req
    case Creating(_, _, _, _, _) => txn.ord != [] && txn.ord[0] in t.slots
    case Moving(a, _) => txn.ord != [] && txn.ord[0] in t.slots && a in t.appts
    case Cancelling(a, _) => a in t.appts
  }

  function CreatedRow(t: Tables, txn: Txn): ApptRow
    requires txn.req.Creating? && CanWrite(t, txn)
  {
    NewRow(txn.req.user, txn.req.company, txn.exc, t.slots[txn.ord[0]].start, txn.req.details)
  }

  function Written(t: Tables, txn: Txn): Tables
    requires CanWrite(t, txn)
  {
    match txn.req
    case Creating(id, _, _, ids, _) => Entered(t, id, ids, txn.now, CreatedRow(t, txn))
    case Moving(a, ids) =>
      Moved(t, a, FreeAs(t.slots, txn.freed), ids, txn.now, MovedRow(t.appts[a], t.slots[txn.ord[0]].start))
    case Cancelling(a, _) =>
      Ended(t, a, FreeAs(t.slots, txn.freed), txn.now, CancelledRow(t.appts[a], txn.now))
  }

  ghost function After(sys: System, step: Step): System
    requires Enabled(sys, step)
  {
    match step
    case Begin(x, req, now) => With(sys, x, Txn(req, now, Start(req), {}, [], map[], None, map[]))
    case TakeCompany(x) =>
      var txn := sys.txns[x];
      With(sys, x, txn.(phase := PickException, held := txn.held + {CompanyRow(txn.req.company)}))
    case LookForException(x) =>
      var txn := sys.txns[x];
      var exc := ExceptionToSpend(sys.t, txn.req.user, txn.req.company, txn.now);
      With(sys, x, if exc.Some? then txn.(phase := WantException(exc.value)) else SelectSlots(sys.t, txn, txn.req.ids))
    case TakeException(x) =>
      // The row is checked again once it is locked.
      var txn := sys.txns[x];
      var e := txn.phase.e;
      var usable := e in sys.t.exceptions && Usable(sys.t.exceptions[e], txn.req.user, txn.req.company, txn.now);
      With(sys, x, SelectSlots(sys.t,
        txn.(held := txn.held + {ExceptionRow(e)}, exc := if usable then Some(e) else None), txn.req.ids))
    case TakeAppt(x) =>
      var txn := sys.txns[x];
      var a := txn.req.a;
      if a in sys.t.appts && sys.t.appts[a].status == Active then
        var locked := txn.(held := txn.held + {ApptLock(a)});
        With(sys, x, if txn.req.Moving? then SelectSlots(sys.t, locked, txn.req.ids)
                     else locked.(phase := WantOld(Owned(sys.t.slots, a))))
      else Without(sys, x)
    case TakeSlot(x) =>
      var txn := sys.txns[x];
      var s := txn.phase.todo[0];
      With(sys, x, txn.(phase := WantSlots(txn.phase.todo[1..]), held := txn.held + {SlotLock(s)},
                        seen := txn.seen[s := sys.t.slots[s]]))
    case CheckSlots(x) =>
      var txn := sys.txns[x];
      if Validate(txn.seen, txn.ord) != None then Without(sys, x)
      else With(sys, x, txn.(phase := if txn.req.Creating? then WantUser else WantOld(Owned(sys.t.slots, txn.req.a))))
    case TakeUser(x) =>
      var txn := sys.txns[x];
      if InsertViolations(sys.t.appts, txn.req.id, txn.req.user, txn.req.company, txn.exc) != {} then Without(sys, x)
      else With(sys, x, txn.(phase := Ready, held := txn.held + {UserKey(txn.req.user)}))
    case TakeOld(x, s, status) =>
      var txn := sys.txns[x];
      var left := txn.phase.olds - {s};
      With(sys, x, txn.(phase := if left == {} then Ready else WantOld(left), held := txn.held + {SlotLock(s)},
                        freed := txn.freed[s := status]))
    case Commit(x) => Without(sys, x).(t := Written(sys.t, sys.txns[x]))
    case Abort(x) => Without(sys, x)
    case Other(op) => sys.(t := Next(sys.t, op))
  }

  // ---- what a running transaction can rely on ----

  // Rows seen under a lock are still the committed rows.
  ghost predicate SeenOk(t: Tables, txn: Txn) {
    forall s :: s in txn.seen ==> SlotLock(s) in txn.held && s in t.slots && t.slots[s] == txn.seen[s]
  }

  ghost predicate OrdOk(t: Tables, txn: Txn, ids: seq<SlotId>) {
    && Sorted(t.slots, txn.ord)
    && (forall s :: s in txn.ord <==> s in ids && s in t.slots)
  }

  ghost predicate Validated(t: Tables, txn: Txn, ids: seq<SlotId>) {
    && OrdOk(t, txn, ids)
    && (forall s :: s in txn.ord ==> s in txn.seen)
    && Validate(txn.seen, txn.ord) == None
  }

  ghost predicate SelectingOk(t: Tables, txn: Txn, ids: seq<SlotId>)
    requires txn.phase.WantSlots?
  {
    && OrdOk(t, txn, ids)
    && (forall s :: s in txn.ord <==> s in txn.seen || s in txn.phase.todo)
    && (forall s :: s in txn.phase.todo ==> s in t.slots)
  }

  ghost predicate ExcOk(t: Tables, txn: Txn)
    requires txn.req.Creating?
  {
    txn.exc.Some? ==>
      && ExceptionRow(txn.exc.value) in txn.held && txn.exc.value in t.exceptions
      && t.exceptions[txn.exc.value].consumedAt == None
      && t.exceptions[txn.exc.value].user == txn.req.user && t.exceptions[txn.exc.value].company == txn.req.company
  }

  ghost predicate CreatingOk(t: Tables, txn: Txn)
    requires txn.req.Creating?
  {
    && txn.req.id !in t.appts
    && ExcOk(t, txn)
    && match txn.phase
       case WantCompany => true
       case PickException => CompanyRow(txn.req.company) in txn.held
       case WantException(_) => CompanyRow(txn.req.company) in txn.held
       case WantSlots(_) => CompanyRow(txn.req.company) in txn.held && SelectingOk(t, txn, txn.req.ids)
       case WantUser => CompanyRow(txn.req.company) in txn.held && Validated(t, txn, txn.req.ids)
       case Ready =>
         && CompanyRow(txn.req.company) in txn.held && UserKey(txn.req.user) in txn.held
         && Validated(t, txn, txn.req.ids)
         && InsertViolations(t.appts, txn.req.id, txn.req.user, txn.req.company, txn.exc) == {}
       case _ => false
  }

  // The slots of the appointment are those still to release and those released.
  ghost predicate ReleasingOk(t: Tables, txn: Txn, a: ApptId, todo: set<SlotId>) {
    && (forall s :: s in Owned(t.slots, a) <==> s in todo || s in txn.freed)
    && (forall s :: s in txn.freed ==> SlotLock(s) in txn.held && s !in todo && FreedTo(txn.req, txn.freed[s]))
  }

  // A forced cancellation locks the slots, everything else frees them.
  predicate FreedTo(req: Request, status: SlotStatus) {
    if req.Cancelling? && req.hard then status == OwnerLocked else status == Available || status == Unavailable
  }

  ghost predicate ActiveLocked(t: Tables, txn: Txn, a: ApptId) {
    ApptLock(a) in txn.held && a in t.appts && t.appts[a].status == Active
  }

  ghost predicate MovingOk(t: Tables, txn: Txn)
    requires txn.req.Moving?
  {
    match txn.phase
    case WantAppt => true
    case WantSlots(_) => ActiveLocked(t, txn, txn.req.a) && SelectingOk(t, txn, txn.req.ids) && txn.freed == map[]
    case WantOld(todo) => ActiveLocked(t, txn, txn.req.a) && Validated(t, txn, txn.req.ids)
      && ReleasingOk(t, txn, txn.req.a, todo)
    case Ready => ActiveLocked(t, txn, txn.req.a) && Validated(t, txn, txn.req.ids)
      && ReleasingOk(t, txn, txn.req.a, {})
    case _ => false
  }

  ghost predicate CancellingOk(t: Tables, txn: Txn)
    requires txn.req.Cancelling?
  {
    match txn.phase
    case WantAppt => true
    case WantOld(todo) => ActiveLocked(t, txn, txn.req.a) && ReleasingOk(t, txn, txn.req.a, todo)
    case Ready => ActiveLocked(t, txn, txn.req.a) && ReleasingOk(t, txn, txn.req.a, {})
    case _ => false
  }

  ghost predicate TxnOk(t: Tables, txn: Txn) {
    && SeenOk(t, txn)
    && match txn.req
       case Creating(_, _, _, _, _) => CreatingOk(t, txn)
       case Moving(_, _) => MovingOk(t, txn) && (txn.phase == WantAppt ==> txn.freed == map[])
       case Cancelling(_, _) => CancellingOk(t, txn) && (txn.phase == WantAppt ==> txn.freed == map[])
  }

  ghost predicate Exclusive(txns: map<TxId, Txn>) {
    && (forall x, y, l :: x in txns && y in txns && l in txns[x].held && l in txns[y].held ==> x == y)
    && (forall x, y :: x in txns && y in txns && x != y && txns[x].req.Creating? && txns[y].req.Creating? ==>
          txns[x].req.id != txns[y].req.id)
  }

  ghost predicate LockInv(sys: System) {
    && Inv(sys.t)
    && Exclusive(sys.txns)
    && (forall x :: x in sys.txns ==> TxnOk(sys.t, sys.txns[x]))
  }

  // A change of the tables that leaves alone all that a transaction relies on.
  ghost predicate Undisturbed(t: Tables, t': Tables, txn: Txn) {
    && SameTimes(t.slots, t'.slots)
    && (forall s :: s in Wanted(txn.req) && s in t'.slots ==> s in t.slots)
    && (forall s :: SlotLock(s) in txn.held && s in t.slots ==> t'.slots[s] == t.slots[s])
    && (forall a :: ApptLock(a) in txn.held && a in t.appts ==>
          a in t'.appts && t'.appts[a] == t.appts[a] && Owned(t'.slots, a) == Owned(t.slots, a))
    && (txn.req.Creating? ==>
          && (txn.req.id !in t.appts ==> txn.req.id !in t'.appts)
          && (forall e :: ExceptionRow(e) in txn.held && e in t.exceptions ==>
                && e in t'.exceptions && t'.exceptions[e] == t.exceptions[e])
          && (forall e :: ExceptionRow(e) in txn.held && (forall b :: !Names(t.appts, b, e)) ==>
              forall b :: !Names(t'.appts, b, e))
          && (UserKey(txn.req.user) in txn.held && !ActiveFor(t.appts, txn.req.user) ==>
            !ActiveFor(t'.appts, txn.req.user))
          && (CompanyRow(txn.req.company) in txn.held && !ActiveAt(t.appts, txn.req.company) ==>
                !ActiveAt(t'.appts, txn.req.company)))
  }

  lemma OrdFrame(t: Tables, t': Tables, txn: Txn, ids: seq<SlotId>)
    requires SameTimes(t.slots, t'.slots) && OrdOk(t, txn, ids)
    requires forall s :: s in ids && s in t'.slots ==> s in t.slots
    ensures OrdOk(t', txn, ids)
  {
    forall i, j | 0 <= i < j < |txn.ord| ensures Before(t'.slots, txn.ord[i], txn.ord[j]) {
      assert Before(t.slots, txn.ord[i], txn.ord[j]);
    }
  }

  lemma CreatingFrame(t: Tables, t': Tables, txn: Txn)
    requires txn.req.Creating? && CreatingOk(t, txn) && Undisturbed(t, t', txn)
    ensures CreatingOk(t', txn)
  {
    if txn.phase.WantSlots? || txn.phase == WantUser || txn.phase == Ready {
      OrdFrame(t, t', txn, txn.req.ids);
    }
    if txn.phase == Ready {
      ViolationsFrame(t, t', txn);
    }
  }

  lemma ViolationsFrame(t: Tables, t': Tables, txn: Txn)
    requires txn.req.Creating? && Undisturbed(t, t', txn) && ExcOk(t, txn)
    requires CompanyRow(txn.req.company) in txn.held && UserKey(txn.req.user) in txn.held
    requires InsertViolations(t.appts, txn.req.id, txn.req.user, txn.req.company, txn.exc) == {}
    ensures InsertViolations(t'.appts, txn.req.id, txn.req.user, txn.req.company, txn.exc) == {}
  {
    var bad := InsertViolations(t.appts, txn.req.id, txn.req.user, txn.req.company, txn.exc);
    assert Internal !in bad && DupAccount !in bad && DupCompany !in bad;
    if txn.exc.Some? {
      var e := txn.exc.value;
      assert forall b :: !Names(t.appts, b, e);
      assert forall b :: b in t'.appts && t'.appts[b].exc == txn.exc ==> Names(t'.appts, b, e);
    }
  }

  lemma TxnFrame(t: Tables, t': Tables, txn: Txn)
    requires TxnOk(t, txn) && Undisturbed(t, t', txn)
    ensures TxnOk(t', txn)
  {
    match txn.req
    case Creating(_, _, _, _, _) => CreatingFrame(t, t', txn);
    case Moving(_, ids) =>
      if txn.phase != WantAppt {
        OrdFrame(t, t', txn, ids);
      }
    case Cancelling(_, _) =>
  }

  // ---- steps that only change one transaction ----

  lemma LocalKeeps(sys: System, x: TxId, txn: Txn, added: set<Lock>)
    requires LockInv(sys) && x in sys.txns && TxnOk(sys.t, txn) && txn.req == sys.txns[x].req
    requires txn.held == sys.txns[x].held + added
    requires forall l :: l in added ==> Free(sys, l) || l in sys.txns[x].held
    ensures LockInv(With(sys, x, txn))
  {
    var txns := sys.txns[x := txn];
    assert forall y, l :: y in sys.txns && y != x && l in sys.txns[y].held ==> l !in txn.held;
  }

  lemma EndKeeps(sys: System, x: TxId)
    requires LockInv(sys)
    ensures LockInv(Without(sys, x))
  {
    var txns := sys.txns - {x};
    assert forall y :: y in txns ==> y in sys.txns && txns[y] == sys.txns[y];
  }

  lemma SelectOk(t: Tables, txn: Txn, ids: seq<SlotId>)
    ensures SelectingOk(t, SelectSlots(t, txn, ids), ids) && SeenOk(t, SelectSlots(t, txn, ids))
  {}

  lemma BeginKeeps(sys: System, x: TxId, req: Request, now: int)
    requires LockInv(sys) && Enabled(sys, Begin(x, req, now))
    ensures LockInv(After(sys, Begin(x, req, now)))
  {
    var txn := Txn(req, now, Start(req), {}, [], map[], None, map[]);
    BeginExclusive(sys, x, txn);
    assert TxnOk(sys.t, txn);
  }

  lemma BeginExclusive(sys: System, x: TxId, txn: Txn)
    requires Exclusive(sys.txns) && x !in sys.txns && txn.held == {}
    requires txn.req.Creating? ==> NewId(sys, txn.req.id)
    ensures Exclusive(sys.txns[x := txn])
  {}

  lemma TakeCompanyKeeps(sys: System, x: TxId)
    requires LockInv(sys) && Enabled(sys, TakeCompany(x))
    ensures LockInv(After(sys, TakeCompany(x)))
  {
    var txn := sys.txns[x];
    var l := CompanyRow(txn.req.company);
    LocalKeeps(sys, x, txn.(phase := PickException, held := txn.held + {l}), {l});
  }

  lemma LookKeeps(sys: System, x: TxId)
    requires LockInv(sys) && Enabled(sys, LookForException(x))
    ensures LockInv(After(sys, LookForException(x)))
  {
    var txn := sys.txns[x];
    var exc := ExceptionToSpend(sys.t, txn.req.user, txn.req.company, txn.now);
    if exc.Some? {
      LocalKeeps(sys, x, txn.(phase := WantException(exc.value)), {});
    } else {
      SelectOk(sys.t, txn, txn.req.ids);
      LocalKeeps(sys, x, SelectSlots(sys.t, txn, txn.req.ids), {});
    }
  }

  lemma TakeExceptionTxn(t: Tables, txn: Txn, e: ExcId)
    requires TxnOk(t, txn) && txn.req.Creating? && txn.phase == WantException(e)
    ensures var usable := e in t.exceptions && Usable(t.exceptions[e], txn.req.user, txn.req.company, txn.now);
            var txn' := txn.(held := txn.held + {ExceptionRow(e)}, exc := if usable then Some(e) else None);
            TxnOk(t, SelectSlots(t, txn', txn.req.ids))
  {
    var usable := e in t.exceptions && Usable(t.exceptions[e], txn.req.user, txn.req.company, txn.now);
    SelectOk(t, txn.(held := txn.held + {ExceptionRow(e)}, exc := if usable then Some(e) else None), txn.req.ids);
  }

  lemma TakeExceptionKeeps(sys: System, x: TxId)
    requires LockInv(sys) && Enabled(sys, TakeException(x))
    ensures LockInv(After(sys, TakeException(x)))
  {
    var txn := sys.txns[x];
    var e := txn.phase.e;
    TakeExceptionTxn(sys.t, txn, e);
    LocalKeeps(sys, x, After(sys, TakeException(x)).txns[x], {ExceptionRow(e)});
  }

  lemma TakeApptKeeps(sys: System, x: TxId)
    requires LockInv(sys) && Enabled(sys, TakeAppt(x))
    ensures LockInv(After(sys, TakeAppt(x)))
  {
    var txn := sys.txns[x];
    var a := txn.req.a;
    if a in sys.t.appts && sys.t.appts[a].status == Active {
      var locked := txn.(held := txn.held + {ApptLock(a)});
      if txn.req.Moving? {
        SelectOk(sys.t, locked, txn.req.ids);
        LocalKeeps(sys, x, SelectSlots(sys.t, locked, txn.req.ids), {ApptLock(a)});
      } else {
        LocalKeeps(sys, x, locked.(phase := WantOld(Owned(sys.t.slots, a))), {ApptLock(a)});
      }
    } else {
      EndKeeps(sys, x);
    }
  }

  lemma TakeSlotTxn(t: Tables, txn: Txn, s: SlotId)
    requires TxnOk(t, txn) && txn.phase.WantSlots? && txn.phase.todo != [] && txn.phase.todo[0] == s && s in t.slots
    ensures TxnOk(t, txn.(phase := WantSlots(txn.phase.todo[1..]), held := txn.held + {SlotLock(s)},
            seen := txn.seen[s := t.slots[s]]))
  {
    var txn' := txn.(phase := WantSlots(txn.phase.todo[1..]), held := txn.held + {SlotLock(s)},
      seen := txn.seen[s := t.slots[s]]);
    assert txn.phase.todo == [s] + txn.phase.todo[1..];
    if !txn.req.Cancelling? {
      assert SelectingOk(t, txn', txn.req.ids);
    }
  }

  lemma TakeSlotKeeps(sys: System, x: TxId)
    requires LockInv(sys) && Enabled(sys, TakeSlot(x))
    ensures LockInv(After(sys, TakeSlot(x)))
  {
    var s := sys.txns[x].phase.todo[0];
    TakeSlotTxn(sys.t, sys.txns[x], s);
    LocalKeeps(sys, x, After(sys, TakeSlot(x)).txns[x], {SlotLock(s)});
  }

  lemma CheckTxn(t: Tables, txn: Txn)
    requires TxnOk(t, txn) && txn.phase == WantSlots([]) && !txn.req.Cancelling? && Validate(txn.seen, txn.ord) == None
    requires forall s :: s in txn.ord ==> s in txn.seen
    ensures txn.req.Creating? ==> TxnOk(t, txn.(phase := WantUser))
    ensures txn.req.Moving? ==> TxnOk(t, txn.(phase := WantOld(Owned(t.slots, txn.req.a))))
  {}

  lemma CheckKeeps(sys: System, x: TxId)
    requires LockInv(sys) && Enabled(sys, CheckSlots(x))
    ensures LockInv(After(sys, CheckSlots(x)))
  {
    if Validate(sys.txns[x].seen, sys.txns[x].ord) != None {
      EndKeeps(sys, x);
    } else {
      CheckTxn(sys.t, sys.txns[x]);
      LocalKeeps(sys, x, After(sys, CheckSlots(x)).txns[x], {});
    }
  }

  lemma TakeUserKeeps(sys: System, x: TxId)
    requires LockInv(sys) && Enabled(sys, TakeUser(x))
    ensures LockInv(After(sys, TakeUser(x)))
  {
    var txn := sys.txns[x];
    assert TxnOk(sys.t, txn);
    if InsertViolations(sys.t.appts, txn.req.id, txn.req.user, txn.req.company, txn.exc) != {} {
      EndKeeps(sys, x);
    } else {
      var l := UserKey(txn.req.user);
      LocalKeeps(sys, x, txn.(phase := Ready, held := txn.held + {l}), {l});
    }
  }

  lemma TakeOldTxn(t: Tables, txn: Txn, s: SlotId, status: SlotStatus)
    requires TxnOk(t, txn) && !txn.req.Creating? && txn.phase.WantOld? && s in txn.phase.olds
             && FreedTo(txn.req, status)
    ensures var left := txn.phase.olds - {s};
            TxnOk(t, txn.(phase := if left == {} then Ready else WantOld(left), held := txn.held + {SlotLock(s)},
                          freed := txn.freed[s := status]))
  {
    var left := txn.phase.olds - {s};
    var txn' := txn.(phase := if left == {} then Ready else WantOld(left), held := txn.held + {SlotLock(s)},
                     freed := txn.freed[s := status]);
    assert ReleasingOk(t, txn', txn.req.a, left);
  }

  lemma TakeOldKeeps(sys: System, x: TxId, s: SlotId, status: SlotStatus)
    requires LockInv(sys) && Enabled(sys, TakeOld(x, s, status))
    ensures LockInv(After(sys, TakeOld(x, s, status)))
  {
    TakeOldTxn(sys.t, sys.txns[x], s, status);
    LocalKeeps(sys, x, After(sys, TakeOld(x, s, status)).txns[x], {SlotLock(s)});
  }

  // ---- commits ----

  // The selection it validated is still bookable in the committed tables.
  lemma StillBookable(t: Tables, txn: Txn, ids: seq<SlotId>)
    requires SlotsOk(t.slots) && SeenOk(t, txn) && Validated(t, txn, ids)
    ensures |txn.ord| == 3 && Bookable(t.slots, ids, t.slots[txn.ord[0]].start, txn.ord[0], txn.ord[1], txn.ord[2])
  {
    SameValidation(t.slots, txn.seen, txn.ord);
    assert Validate(t.slots, txn.ord) == None;
    TripleAccepted(t.slots, ids, txn.ord);
  }

  lemma SameValidation(slots: Slots, seen: Slots, ord: seq<SlotId>)
    requires forall s :: s in ord ==> s in seen && s in slots && slots[s] == seen[s]
    ensures Validate(slots, ord) == Validate(seen, ord)
  {}

  lemma FreeAsFreed(t: Tables, txn: Txn, a: ApptId)
    requires ReleasingOk(t, txn, a, {})
    ensures Freed(t.slots, FreeAs(t.slots, txn.freed), a)
  {
    forall s | s in t.slots ensures s in txn.freed <==> t.slots[s].owner == Some(a) {
      assert s in Owned(t.slots, a) <==> s in txn.freed;
    }
  }

  lemma WrittenSound(t: Tables, txn: Txn)
    requires Inv(t) && TxnOk(t, txn) && txn.phase == Ready && CanWrite(t, txn)
    ensures Inv(Written(t, txn)) && Advance(t, Written(t, txn))
  {
    match txn.req
    case Creating(id, _, _, ids, _) =>
      StillBookable(t, txn, ids);
      EnteredSound(t, id, ids, txn.now, CreatedRow(t, txn), txn.ord[0], txn.ord[1], txn.ord[2]);
    case Moving(a, ids) =>
      StillBookable(t, txn, ids);
      FreeAsFreed(t, txn, a);
      MovedSound(t, a, FreeAs(t.slots, txn.freed), ids, txn.now, MovedRow(t.appts[a], t.slots[txn.ord[0]].start),
                 txn.ord[0], txn.ord[1], txn.ord[2]);
    case Cancelling(a, _) =>
      FreeAsFreed(t, txn, a);
      EndedSound(t, a, FreeAs(t.slots, txn.freed), txn.now, CancelledRow(t.appts[a], txn.now));
  }

  // What a commit does to the slot table: it books selected slots and frees old
  // ones, and holds the lock of each.
  ghost predicate WritesLocked(slots: Slots, slots': Slots, held: set<Lock>) {
    && SameTimes(slots, slots') && slots'.Keys == slots.Keys
    && forall s :: s in slots && SlotLock(s) !in held ==> slots'[s] == slots[s]
  }

  lemma SelectionLocked(t: Tables, txn: Txn, ids: seq<SlotId>)
    requires SlotsOk(t.slots) && SeenOk(t, txn) && Validated(t, txn, ids)
    ensures forall s :: s in ids && s in t.slots ==>
              SlotLock(s) in txn.held && t.slots[s].owner == None && t.slots[s].status == Available
  {
    StillBookable(t, txn, ids);
    forall s | s in ids && s in t.slots
      ensures SlotLock(s) in txn.held && t.slots[s].owner == None && t.slots[s].status == Available
    {
      assert s in txn.ord;
      assert SlotOk(t.slots[s]);
    }
  }

  lemma BookedWrites(slots: Slots, ids: seq<SlotId>, a: ApptId, held: set<Lock>)
    requires forall s :: s in ids && s in slots ==> SlotLock(s) in held
    ensures WritesLocked(slots, BookedFor(slots, ids, a), held)
  {}

  lemma FreedWrites(slots: Slots, freed: map<SlotId, SlotStatus>, held: set<Lock>)
    requires forall s :: s in freed ==> SlotLock(s) in held
    ensures WritesLocked(slots, FreeAs(slots, freed), held)
  {}

  lemma CreatingWrites(t: Tables, txn: Txn)
    requires Inv(t) && TxnOk(t, txn) && txn.phase == Ready && CanWrite(t, txn) && txn.req.Creating?
    ensures WritesLocked(t.slots, Written(t, txn).slots, txn.held)
    ensures forall b :: b in t.appts ==> Owned(Written(t, txn).slots, b) == Owned(t.slots, b)
  {
    SelectionLocked(t, txn, txn.req.ids);
    BookedWrites(t.slots, txn.req.ids, txn.req.id, txn.held);
    BookedOwned(t.slots, txn.req.ids, txn.req.id);
  }

  lemma MovingWrites(t: Tables, txn: Txn)
    requires Inv(t) && TxnOk(t, txn) && txn.phase == Ready && CanWrite(t, txn) && txn.req.Moving?
    ensures WritesLocked(t.slots, Written(t, txn).slots, txn.held)
    ensures forall b :: b != txn.req.a ==> Owned(Written(t, txn).slots, b) == Owned(t.slots, b)
  {
    var slots := FreeAs(t.slots, txn.freed);
    SelectionLocked(t, txn, txn.req.ids);
    FreedWrites(t.slots, txn.freed, txn.held);
    BookedWrites(slots, txn.req.ids, txn.req.a, txn.held);
    FreeAsFreed(t, txn, txn.req.a);
    FreedOwned(t.slots, slots, txn.req.a);
    BookedOwned(slots, txn.req.ids, txn.req.a);
  }

  lemma CancellingWrites(t: Tables, txn: Txn)
    requires Inv(t) && TxnOk(t, txn) && txn.phase == Ready && CanWrite(t, txn) && txn.req.Cancelling?
    ensures WritesLocked(t.slots, Written(t, txn).slots, txn.held)
    ensures forall b :: b != txn.req.a ==> Owned(Written(t, txn).slots, b) == Owned(t.slots, b)
  {
    FreedWrites(t.slots, txn.freed, txn.held);
    FreeAsFreed(t, txn, txn.req.a);
    FreedOwned(t.slots, FreeAs(t.slots, txn.freed), txn.req.a);
  }

  lemma BookedOwned(slots: Slots, ids: seq<SlotId>, a: ApptId)
    requires forall s :: s in ids && s in slots ==> slots[s].owner == None
    ensures forall b :: b != a ==> Owned(BookedFor(slots, ids, a), b) == Owned(slots, b)
  {}

  lemma FreedOwned(slots: Slots, slots': Slots, a: ApptId)
    requires Freed(slots, slots', a)
    ensures forall b :: b != a ==> Owned(slots', b) == Owned(slots, b)
  {}

  lemma CommitWrites(t: Tables, txn: Txn)
    requires Inv(t) && TxnOk(t, txn) && txn.phase == Ready && CanWrite(t, txn)
    ensures WritesLocked(t.slots, Written(t, txn).slots, txn.held)
    ensures forall b :: b in t.appts && ApptLock(b) !in txn.held ==>
              Owned(Written(t, txn).slots, b) == Owned(t.slots, b)
  {
    match txn.req
    case Creating(_, _, _, _, _) => CreatingWrites(t, txn);
    case Moving(_, _) => MovingWrites(t, txn);
    case Cancelling(_, _) => CancellingWrites(t, txn);
  }

  // What a commit does to the appointment and exception tables.
  ghost predicate ApptsFor(t: Tables, t': Tables, txn: Txn) {
    match txn.req
    case Creating(id, user, company, _, _) =>
      exists r: ApptRow ::
        && r.user == user && r.company == company && r.exc == txn.exc
        && t'.appts == t.appts[id := r] && t'.exceptions == Consume(t.exceptions, txn.exc, txn.now)
    case Moving(a, _) => RowOnly(t, t', a)
    case Cancelling(a, _) => RowOnly(t, t', a)
  }

  ghost predicate RowOnly(t: Tables, t': Tables, a: ApptId) {
    exists r: ApptRow :: a in t.appts && RowAdvances(t.appts[a], r) && t'.appts == t.appts[a := r]
      && t'.exceptions == t.exceptions
  }

  lemma WrittenAppts(t: Tables, txn: Txn)
    requires TxnOk(t, txn) && txn.phase == Ready && CanWrite(t, txn)
    ensures ApptsFor(t, Written(t, txn), txn)
  {
    var t' := Written(t, txn);
    match txn.req
    case Creating(id, _, _, _, _) =>
      assert t'.appts == t.appts[id := CreatedRow(t, txn)];
    case Moving(a, _) =>
      var r := MovedRow(t.appts[a], t.slots[txn.ord[0]].start);
      assert RowAdvances(t.appts[a], r) && t'.appts == t.appts[a := r];
    case Cancelling(a, _) =>
      var r := CancelledRow(t.appts[a], txn.now);
      assert RowAdvances(t.appts[a], r) && t'.appts == t.appts[a := r];
  }

  lemma CreateUndisturbs(t: Tables, t': Tables, txn: Txn, other: Txn)
    requires txn.req.Creating? && CreatingOk(t, txn) && txn.phase == Ready
    requires WritesLocked(t.slots, t'.slots, txn.held) && ApptsFor(t, t', txn)
    requires forall b :: b in t.appts && ApptLock(b) !in txn.held ==> Owned(t'.slots, b) == Owned(t.slots, b)
    requires txn.held !! other.held && (other.req.Creating? ==> other.req.id != txn.req.id)
    ensures Undisturbed(t, t', other)
  {
    if other.req.Creating? {
      assert UserKey(other.req.user) in other.held ==> other.req.user != txn.req.user;
      assert CompanyRow(other.req.company) in other.held ==> other.req.company != txn.req.company;
      forall e: ExcId, b | ExceptionRow(e) in other.held && Names(t'.appts, b, e) ensures Names(t.appts, b, e) {
        assert txn.exc != Some(e);
      }
    }
  }

  lemma RewriteUndisturbs(t: Tables, t': Tables, txn: Txn, other: Txn)
    requires !txn.req.Creating? && ActiveLocked(t, txn, txn.req.a) && RowOnly(t, t', txn.req.a)
    requires WritesLocked(t.slots, t'.slots, txn.held)
    requires forall b :: b in t.appts && ApptLock(b) !in txn.held ==> Owned(t'.slots, b) == Owned(t.slots, b)
    requires txn.held !! other.held
    ensures Undisturbed(t, t', other)
  {
    assert forall b, e :: Names(t'.appts, b, e) ==> Names(t.appts, b, e);
    assert forall u :: ActiveFor(t'.appts, u) ==> ActiveFor(t.appts, u);
    assert forall c :: ActiveAt(t'.appts, c) ==> ActiveAt(t.appts, c);
  }

  lemma CommitKeeps(sys: System, x: TxId)
    requires LockInv(sys) && Enabled(sys, Commit(x))
    ensures LockInv(After(sys, Commit(x)))
  {
    var txn := sys.txns[x];
    var t' := Written(sys.t, txn);
    WrittenSound(sys.t, txn);
    var txns := sys.txns - {x};
    CommitWrites(sys.t, txn);
    WrittenAppts(sys.t, txn);
    forall y | y in txns ensures TxnOk(t', txns[y]) {
      assert txns[y] == sys.txns[y] && y != x;
      assert txn.held !! txns[y].held;
      CommitFrame(sys.t, t', txn, txns[y]);
    }
  }

  lemma CommitFrame(t: Tables, t': Tables, txn: Txn, other: Txn)
    requires TxnOk(t, txn) && txn.phase == Ready && TxnOk(t, other)
    requires WritesLocked(t.slots, t'.slots, txn.held) && ApptsFor(t, t', txn)
    requires forall b :: b in t.appts && ApptLock(b) !in txn.held ==> Owned(t'.slots, b) == Owned(t.slots, b)
    requires txn.held !! other.held
    requires txn.req.Creating? && other.req.Creating? ==> other.req.id != txn.req.id
    ensures TxnOk(t', other)
  {
    if txn.req.Creating? {
      CreateUndisturbs(t, t', txn, other);
    } else {
      RewriteUndisturbs(t, t', txn, other);
    }
    TxnFrame(t, t', other);
  }

  // ---- the other transactions ----

  // None of them adds an appointment, revives one or touches an existing exception.
  ghost predicate OnlyCompletes(t: Tables, t': Tables) {
    && t'.appts.Keys == t.appts.Keys
    && (forall a :: a in t.appts ==>
          && t'.appts[a].user == t.appts[a].user && t'.appts[a].company == t.appts[a].company
          && t'.appts[a].exc == t.appts[a].exc
          && (t'.appts[a].status == Active ==> t.appts[a].status == Active))
    && (forall e :: e in t.exceptions ==> e in t'.exceptions && t'.exceptions[e] == t.exceptions[e])
    && (forall a :: a in t.appts ==> Owned(t'.slots, a) == Owned(t.slots, a))
  }

  lemma SameOwners(slots: Slots, slots': Slots)
    requires OnlyFreeChange(slots, slots')
    ensures forall a :: Owned(slots', a) == Owned(slots, a)
  {}

  lemma SweepOnlyCompletes(t: Tables, t': Tables, now: int, only: Option<UserId>)
    requires t'.appts == SweptAppts(t.appts, now, only) && t'.exceptions == t.exceptions
    requires forall a :: Owned(t'.slots, a) == Owned(t.slots, a)
    ensures OnlyCompletes(t, t')
  {}

  lemma WindowOnlyCompletes(t: Tables, overrides: Overrides, lo: int, hi: int)
    requires SlotsOk(t.slots)
    ensures OnlyCompletes(t, t.(slots := Rematerialized(t.slots, overrides, lo, hi), overrides := overrides))
  {
    RematerializedFree(t.slots, overrides, lo, hi);
    SameOwners(t.slots, Rematerialized(t.slots, overrides, lo, hi));
  }

  lemma MaterializeOnlyCompletes(
    t: Tables, startDay: int, weeks: int, today: int, calendar: Calendar, ids: seq<SlotId>, now: int)
    requires SlotsOk(t.slots) && (1 <= weeks <= 53 ==> |ids| == weeks * 7 * SLOT_COUNT)
    requires Materialize(t, startDay, weeks, today, calendar, ids, now).Committed?
    ensures OnlyCompletes(t, Materialize(t, startDay, weeks, today, calendar, ids, now).t)
  {
    var rows := WeekRows(t.overrides, FirstDay(startDay), weeks, today, calendar, ids);
    WeekRowsFree(t.overrides, FirstDay(startDay), weeks, today, calendar, ids);
    UpsertAllFree(t.slots, rows);
    SameOwners(t.slots, UpsertAll(t.slots, rows).value);
    SweepOnlyCompletes(t, Materialize(t, startDay, weeks, today, calendar, ids, now).t, now, None);
  }

  lemma OtherOnlyCompletes(t: Tables, op: Op)
    requires Inv(t) && WellFormed(op) && IsOther(op)
    ensures OnlyCompletes(t, Next(t, op))
  {
    if Execute(t, op).Aborted? {
      return;
    }
    match op
    case OpSweep(now, only) => SweepOnlyCompletes(t, Next(t, op), now, only);
    case OpCreateOverride(oid, o) => WindowOnlyCompletes(t, t.overrides[oid := o], o.start, o.end);
    case OpUpdateOverride(oid, o) =>
      var was := t.overrides[oid];
      WindowOnlyCompletes(t, t.overrides[oid := o], Min(was.start, o.start), Max(was.end, o.end));
    case OpDeleteOverride(oid) =>
      WindowOnlyCompletes(t, t.overrides - {oid}, t.overrides[oid].start, t.overrides[oid].end);
    case OpCreateException(_, _, _, _, _) =>
    case OpMaterialize(startDay, weeks, today, calendar, slotIds, now) =>
      MaterializeOnlyCompletes(t, startDay, weeks, today, calendar, slotIds, now);
  }

  lemma OtherKeeps(sys: System, op: Op)
    requires LockInv(sys) && Enabled(sys, Other(op))
    ensures LockInv(After(sys, Other(op)))
  {
    var t' := Next(sys.t, op);
    NextSound(sys.t, op);
    OtherOnlyCompletes(sys.t, op);
    OtherTxns(sys, t');
  }

  lemma OtherTxns(sys: System, t': Tables)
    requires LockInv(sys) && LeavesLocked(sys, t') && NewSlotIds(sys, t'.slots) && OnlyCompletes(sys.t, t')
             && Advance(sys.t, t')
    ensures forall x :: x in sys.txns ==> TxnOk(t', sys.txns[x])
  {
    forall x | x in sys.txns ensures TxnOk(t', sys.txns[x]) {
      OtherUndisturbs(sys, t', x);
      TxnFrame(sys.t, t', sys.txns[x]);
    }
  }

  lemma OtherUndisturbs(sys: System, t': Tables, x: TxId)
    requires LockInv(sys) && LeavesLocked(sys, t') && NewSlotIds(sys, t'.slots) && OnlyCompletes(sys.t, t')
             && Advance(sys.t, t') && x in sys.txns
    ensures TxnOk(sys.t, sys.txns[x]) && Undisturbed(sys.t, t', sys.txns[x])
  {
    assert forall l :: l in sys.txns[x].held ==> !Free(sys, l);
    CompletingUndisturbs(sys.t, t', sys.txns[x]);
  }

  lemma CompletingUndisturbs(t: Tables, t': Tables, txn: Txn)
    requires OnlyCompletes(t, t') && SlotsAdvance(t.slots, t'.slots)
    requires forall s :: s in Wanted(txn.req) && s in t'.slots ==> s in t.slots
    requires forall s :: SlotLock(s) in txn.held && s in t.slots ==> t'.slots[s] == t.slots[s]
    requires forall a :: ApptLock(a) in txn.held && a in t.appts ==> t'.appts[a] == t.appts[a]
    ensures Undisturbed(t, t', txn)
  {
    CompletingFrees(t, t', txn.req);
  }

  lemma CompletingFrees(t: Tables, t': Tables, req: Request)
    requires OnlyCompletes(t, t')
    ensures forall b, e :: Names(t'.appts, b, e) ==> Names(t.appts, b, e)
    ensures req.Creating? && ActiveFor(t'.appts, req.user) ==> ActiveFor(t.appts, req.user)
    ensures req.Creating? && ActiveAt(t'.appts, req.company) ==> ActiveAt(t.appts, req.company)
  {}

  lemma StepKeeps(sys: System, step: Step)
    requires LockInv(sys) && Enabled(sys, step)
    ensures LockInv(After(sys, step))
  {
    match step
    case Begin(x, req, now) => BeginKeeps(sys, x, req, now);
    case TakeCompany(x) => TakeCompanyKeeps(sys, x);
    case LookForException(x) => LookKeeps(sys, x);
    case TakeException(x) => TakeExceptionKeeps(sys, x);
    case TakeAppt(x) => TakeApptKeeps(sys, x);
    case TakeSlot(x) => TakeSlotKeeps(sys, x);
    case CheckSlots(x) => CheckKeeps(sys, x);
    case TakeUser(x) => TakeUserKeeps(sys, x);
    case TakeOld(x, s, status) => TakeOldKeeps(sys, x, s, status);
    case Commit(x) => CommitKeeps(sys, x);
    case Abort(x) => EndKeeps(sys, x);
    case Other(op) => OtherKeeps(sys, op);
  }

  // ---- runs ----

  const START := System(EMPTY, map[])

  ghost predicate LockRun(history: seq<System>, steps: seq<Step>) {
    && |history| == |steps| + 1
    && history[0] == START
    && (forall i :: 0 <= i < |steps| ==> Enabled(history[i], steps[i]) && history[i + 1] == After(history[i], steps[i]))
  }

  lemma {:induction false} LockRunKeeps(history: seq<System>, steps: seq<Step>, i: nat)
    requires LockRun(history, steps) && i <= |steps|
    ensures LockInv(history[i])
  {
    if i > 0 {
      LockRunKeeps(history, steps, i - 1);
      StepKeeps(history[i - 1], steps[i - 1]);
    }
  }

  // Whatever the interleaving, the committed tables are sound after every step:
  // slots tile their appointments, accounts and companies are not booked twice,
  // exceptions are spent once.
  lemma SoundUnderInterleaving(history: seq<System>, steps: seq<Step>, i: nat)
    requires LockRun(history, steps) && i <= |steps|
    ensures Inv(history[i].t)
  {
    LockRunKeeps(history, steps, i);
  }

  // A row that a transaction has locked stays as it was seen until that
  // transaction itself ends.
  lemma SeenStays(history: seq<System>, steps: seq<Step>, i: nat, x: TxId, s: SlotId)
    requires LockRun(history, steps) && i < |steps|
    requires x in history[i].txns && s in history[i].txns[x].seen
    ensures s in history[i].t.slots && history[i].t.slots[s] == history[i].txns[x].seen[s]
    ensures steps[i] != Commit(x) ==>
            s in history[i + 1].t.slots && history[i + 1].t.slots[s] == history[i].txns[x].seen[s]
  {
    LockRunKeeps(history, steps, i);
    var sys, step := history[i], steps[i];
    assert TxnOk(sys.t, sys.txns[x]);
    if step.Commit? && step.x != x {
      assert TxnOk(sys.t, sys.txns[step.x]);
      CommitWrites(sys.t, sys.txns[step.x]);
    }
    if step.Other? {
      assert !Free(sys, SlotLock(s));
    }
  }

  // A slot is booked only while it is available: between two bookings of one
  // slot there is a state in which nobody owns it.
  lemma BookedOnlyWhenAvailable(history: seq<System>, steps: seq<Step>, i: nat, s: SlotId, a: ApptId)
    requires LockRun(history, steps) && i < |steps|
    requires s in history[i].t.slots && s in history[i + 1].t.slots
    requires history[i].t.slots[s].owner != Some(a) && history[i + 1].t.slots[s].owner == Some(a)
    ensures history[i].t.slots[s].owner == None && history[i].t.slots[s].status == Available
  {
    LockRunKeeps(history, steps, i);
    var sys, step := history[i], steps[i];
    if step.Commit? {
      CommitBooksAvailable(sys.t, sys.txns[step.x], s, a);
    } else if step.Other? {
      OtherKeepsOwner(sys.t, step.op, s);
    }
  }

  lemma CommitBooksAvailable(t: Tables, txn: Txn, s: SlotId, a: ApptId)
    requires Inv(t) && TxnOk(t, txn) && txn.phase == Ready && CanWrite(t, txn)
    requires s in t.slots && t.slots[s].owner != Some(a) && Written(t, txn).slots[s].owner == Some(a)
    ensures t.slots[s].owner == None && t.slots[s].status == Available
  {
    if !txn.req.Cancelling? {
      SelectionLocked(t, txn, txn.req.ids);
    }
  }

  lemma OtherKeepsOwner(t: Tables, op: Op, s: SlotId)
    requires Inv(t) && WellFormed(op) && IsOther(op) && s in t.slots
    ensures s in Next(t, op).slots
    ensures forall a :: a in t.appts ==> (Next(t, op).slots[s].owner == Some(a) <==> t.slots[s].owner == Some(a))
    ensures Next(t, op).slots[s].owner.Some? ==> Next(t, op).slots[s].owner.value in t.appts
  {
    OtherOnlyCompletes(t, op);
    NextSound(t, op);
    var t' := Next(t, op);
    forall a | a in t.appts ensures t'.slots[s].owner == Some(a) <==> t.slots[s].owner == Some(a) {
      assert s in Owned(t'.slots, a) <==> s in Owned(t.slots, a);
    }
  }
}
