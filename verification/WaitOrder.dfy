// Creations never wait for each other in a circle: each takes its locks in one
// order, company row, exception row, slots by (start, id), account key.
module WaitOrder {
  import opened Options
  import opened BookingTables
  import opened BookingStatements
  import opened BookingTransactions
  import opened BookingInvariants
  import opened BookingProofs
  import opened BookingTheorems
  import opened RowLocks

  function Level(l: Lock): nat {
    match l
    case CompanyRow(_) => 0
    case ExceptionRow(_) => 1
    case SlotLock(_) => 2
    case UserKey(_) => 3
    case ApptLock(_) => 4
  }

  predicate Below(slots: Slots, l: Lock, m: Lock) {
    Level(l) < Level(m)
    || (l.SlotLock? && m.SlotLock? && l.s in slots && m.s in slots && l.s != m.s && Before(slots, l.s, m.s))
  }

  function Wants(txn: Txn): Option<Lock> {
    match txn.phase
    case WantCompany => if txn.req.Creating? then Some(CompanyRow(txn.req.company)) else None
    case WantException(e) => Some(ExceptionRow(e))
    case WantSlots(todo) => if todo == [] then None else Some(SlotLock(todo[0]))
    case WantUser => if txn.req.Creating? then Some(UserKey(txn.req.user)) else None
    case _ => None
  }

  // How far along its selection a creation is, and which locks it can hold there.
  ghost predicate InStep(slots: Slots, txn: Txn) {
    match txn.phase
    case WantCompany => txn.held == {}
    case PickException => forall l :: l in txn.held ==> Level(l) == 0
    case WantException(_) => forall l :: l in txn.held ==> Level(l) == 0
    case WantSlots(todo) =>
      && Sorted(slots, txn.ord)
      && |todo| <= |txn.ord| && todo == txn.ord[|txn.ord| - |todo|..]
      && (forall l :: l in txn.held ==> Level(l) < 2 || (l.SlotLock? && l.s in txn.ord[..|txn.ord| - |todo|]))
    case WantUser => forall l :: l in txn.held ==> Level(l) < 3
    case _ => true
  }

  ghost predicate Orderly(sys: System) {
    forall x :: x in sys.txns ==>
      sys.txns[x].req.Creating? && InStep(sys.t.slots, sys.txns[x])
  }

  lemma InStepFrame(slots: Slots, slots': Slots, txn: Txn)
    requires SameTimes(slots, slots') && InStep(slots, txn)
    ensures InStep(slots', txn)
  {
    if txn.phase.WantSlots? {
      forall i, j | 0 <= i < j < |txn.ord| ensures Before(slots', txn.ord[i], txn.ord[j]) {
        assert Before(slots, txn.ord[i], txn.ord[j]);
      }
    }
  }

  lemma SelectInStep(t: Tables, txn: Txn, ids: seq<SlotId>)
    requires forall l :: l in txn.held ==> Level(l) < 2
    ensures InStep(t.slots, SelectSlots(t, txn, ids))
  {
    var ord := InOrder(t.slots, ids);
    assert ord == ord[0..];
  }

  lemma OrderlyStep(sys: System, step: Step)
    requires LockInv(sys) && Orderly(sys) && Enabled(sys, step)
    requires step.Begin? ==> step.req.Creating?
    ensures Orderly(After(sys, step))
  {
    var sys' := After(sys, step);
    StepKeepsTimes(sys, step);
    forall x | x in sys'.txns
      ensures sys'.txns[x].req.Creating? && InStep(sys'.t.slots, sys'.txns[x])
    {
      if x in sys.txns && sys'.txns[x] == sys.txns[x] {
        InStepFrame(sys.t.slots, sys'.t.slots, sys.txns[x]);
      } else {
        MoverCreates(sys, step, x);
        MoverInStep(sys, step, x);
      }
    }
  }

  lemma StepKeepsTimes(sys: System, step: Step)
    requires LockInv(sys) && Enabled(sys, step)
    ensures SameTimes(sys.t.slots, After(sys, step).t.slots)
  {
    if step.Commit? {
      CommitWrites(sys.t, sys.txns[step.x]);
    }
    if step.Other? {
      NextSound(sys.t, step.op);
    }
  }

  // The transaction whose own step it is.
  ghost predicate Moves(sys: System, step: Step, x: TxId)
    requires Enabled(sys, step)
  {
    x in After(sys, step).txns && (x !in sys.txns || After(sys, step).txns[x] != sys.txns[x])
  }

  lemma MoverCreates(sys: System, step: Step, x: TxId)
    requires Orderly(sys) && Enabled(sys, step) && Moves(sys, step, x)
    requires step.Begin? ==> step.req.Creating?
    ensures After(sys, step).txns[x].req.Creating?
  {}

  lemma MoverInStep(sys: System, step: Step, x: TxId)
    requires Orderly(sys) && Enabled(sys, step) && Moves(sys, step, x)
    requires step.Begin? ==> step.req.Creating?
    ensures InStep(sys.t.slots, After(sys, step).txns[x])
  {
    match step
    case Begin(_, _, _) =>
    case TakeCompany(_) => CompanyInStep(sys, x);
    case LookForException(_) => LookInStep(sys, x);
    case TakeException(_) => ExceptionInStep(sys, x);
    case TakeSlot(_) => AdvanceInStep(sys.t.slots, sys.txns[x], After(sys, step).txns[x]);
    case CheckSlots(_) => CheckInStep(sys, x);
    case TakeUser(_) => UserInStep(sys, x);
    case _ =>
  }

  lemma CompanyInStep(sys: System, x: TxId)
    requires Enabled(sys, TakeCompany(x)) && InStep(sys.t.slots, sys.txns[x])
    ensures InStep(sys.t.slots, After(sys, TakeCompany(x)).txns[x])
  {}

  lemma CheckInStep(sys: System, x: TxId)
    requires Enabled(sys, CheckSlots(x)) && sys.txns[x].req.Creating? && InStep(sys.t.slots, sys.txns[x])
    ensures x in After(sys, CheckSlots(x)).txns ==> InStep(sys.t.slots, After(sys, CheckSlots(x)).txns[x])
  {}

  lemma UserInStep(sys: System, x: TxId)
    requires Enabled(sys, TakeUser(x)) && InStep(sys.t.slots, sys.txns[x])
    ensures x in After(sys, TakeUser(x)).txns ==> InStep(sys.t.slots, After(sys, TakeUser(x)).txns[x])
  {}

  lemma LookInStep(sys: System, x: TxId)
    requires Enabled(sys, LookForException(x)) && InStep(sys.t.slots, sys.txns[x])
    ensures InStep(sys.t.slots, After(sys, LookForException(x)).txns[x])
  {
    var txn := sys.txns[x];
    if ExceptionToSpend(sys.t, txn.req.user, txn.req.company, txn.now) == None {
      SelectInStep(sys.t, txn, txn.req.ids);
    }
  }

  lemma ExceptionInStep(sys: System, x: TxId)
    requires Enabled(sys, TakeException(x)) && InStep(sys.t.slots, sys.txns[x])
    ensures InStep(sys.t.slots, After(sys, TakeException(x)).txns[x])
  {
    var txn := sys.txns[x];
    var e := txn.phase.e;
    var usable := e in sys.t.exceptions && Usable(sys.t.exceptions[e], txn.req.user, txn.req.company, txn.now);
    SelectInStep(sys.t, txn.(held := txn.held + {ExceptionRow(e)}, exc := if usable then Some(e) else None),
      txn.req.ids);
  }

  lemma AdvanceInStep(slots: Slots, txn: Txn, txn': Txn)
    requires InStep(slots, txn) && txn.phase.WantSlots? && txn.phase.todo != []
    requires txn'.phase == WantSlots(txn.phase.todo[1..]) && txn'.ord == txn.ord
    requires txn'.held == txn.held + {SlotLock(txn.phase.todo[0])}
    ensures InStep(slots, txn')
  {
    var n := |txn.ord| - |txn.phase.todo|;
    assert txn.phase.todo[0] == txn.ord[n];
    assert txn.ord[..n + 1] == txn.ord[..n] + [txn.ord[n]];
    assert txn.ord[n..][1..] == txn.ord[n + 1..];
  }

  // A lock that a creation holds comes before the one it is waiting for.
  lemma HoldsBelow(slots: Slots, txn: Txn, l: Lock)
    requires InStep(slots, txn) && l in txn.held && Wants(txn).Some?
    ensures Below(slots, l, Wants(txn).value)
  {
    if txn.phase.WantSlots? && Level(l) >= 2 {
      var n := |txn.ord| - |txn.phase.todo|;
      var i :| 0 <= i < n && txn.ord[i] == l.s;
      assert txn.phase.todo[0] == txn.ord[n];
      assert Before(slots, txn.ord[i], txn.ord[n]);
    }
  }

  ghost predicate WaitsFor(sys: System, x: TxId, y: TxId) {
    && x in sys.txns && y in sys.txns && x != y
    && Wants(sys.txns[x]).Some? && Wants(sys.txns[x]).value in sys.txns[y].held
  }

  ghost predicate Waiting(sys: System, x: TxId) {
    x in sys.txns && Wants(sys.txns[x]).Some?
  }

  ghost predicate WaitCycle(sys: System, xs: seq<TxId>) {
    && xs != []
    && (forall i :: 0 <= i < |xs| - 1 ==> WaitsFor(sys, xs[i], xs[i + 1]))
    && WaitsFor(sys, xs[|xs| - 1], xs[0])
  }

  lemma {:induction false} WaitChain(sys: System, xs: seq<TxId>, k: nat)
    requires Orderly(sys) && WaitCycle(sys, xs) && k < |xs|
    ensures Waiting(sys, xs[k]) && Waiting(sys, xs[0])
    ensures k > 0 ==> Below(sys.t.slots, Wants(sys.txns[xs[0]]).value, Wants(sys.txns[xs[k]]).value)
  {
    if k < |xs| - 1 {
      assert WaitsFor(sys, xs[k], xs[k + 1]);
    }
    if |xs| > 1 {
      assert WaitsFor(sys, xs[0], xs[0 + 1]);
    }
    if k > 0 {
      WaitChain(sys, xs, k - 1);
      assert WaitsFor(sys, xs[k - 1], xs[k - 1 + 1]);
      HoldsBelow(sys.t.slots, sys.txns[xs[k]], Wants(sys.txns[xs[k - 1]]).value);
    }
  }

  lemma NoCycle(sys: System, xs: seq<TxId>)
    requires Orderly(sys)
    ensures !WaitCycle(sys, xs)
  {
    if WaitCycle(sys, xs) {
      var n := |xs| - 1;
      WaitChain(sys, xs, n);
      WaitChain(sys, xs, 0);
      HoldsBelow(sys.t.slots, sys.txns[xs[0]], Wants(sys.txns[xs[n]]).value);
    }
  }

  lemma {:induction false} CreationsOrderly(history: seq<System>, steps: seq<Step>, i: nat)
    requires LockRun(history, steps) && i <= |steps|
    requires forall k :: 0 <= k < |steps| && steps[k].Begin? ==> steps[k].req.Creating?
    ensures Orderly(history[i])
  {
    if i > 0 {
      CreationsOrderly(history, steps, i - 1);
      LockRunKeeps(history, steps, i - 1);
      OrderlyStep(history[i - 1], steps[i - 1]);
    }
  }

  // In a run whose requests are all creations, no state has a wait cycle.
  lemma CreationsNeverDeadlock(history: seq<System>, steps: seq<Step>, i: nat, xs: seq<TxId>)
    requires LockRun(history, steps) && i <= |steps|
    requires forall k :: 0 <= k < |steps| && steps[k].Begin? ==> steps[k].req.Creating?
    ensures !WaitCycle(history[i], xs)
  {
    CreationsOrderly(history, steps, i);
    NoCycle(history[i], xs);
  }
}
