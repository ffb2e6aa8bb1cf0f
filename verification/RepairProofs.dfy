/**
 * What the repair plan promises: no duplicate rows, exact allocations, a true
 * preview, and when a second run changes nothing.
 */
module RepairProofs {
  import opened Basics
  import opened PaymentRepair

  function PairOf(i: Insert): (InvId, string) { (i.invoice, Ref(i.pid)) }

  function ResetPair(r: Reset): (InvId, string) { (r.payment.invoice, Ref(r.pid)) }

  // ---------------------------------------------------------------------
  // What the fold keeps
  // ---------------------------------------------------------------------

  /** `planned` is exactly the planned pairs; no insert repeats a pair. */
  ghost predicate PlanOk(b: Books, plan: Plan) {
    && (forall x :: x in plan.planned <==>
          (exists r :: r in plan.resets && x == ResetPair(r)) || (exists i :: i in plan.inserts && x == PairOf(i)))
    && (forall j: nat, k: nat :: j < k < |plan.inserts| ==> PairOf(plan.inserts[j]) != PairOf(plan.inserts[k]))
    && (forall i :: i in plan.inserts ==> PairOf(i) !in Refs(b.payments))
  }

  lemma ActKeepsOk(b: Books, plan: Plan, a: Action)
    requires PlanOk(b, plan)
    ensures PlanOk(b, Act(b, plan, a))
  {
    var next := Act(b, plan, a);
    match a
    case DoReset(p, amount, pid) =>
      var r := Reset(p, amount, pid);
      assert forall s :: s in next.resets <==> s in plan.resets || s == r;
      assert ResetPair(r) == (p.invoice, Ref(pid));
    case Want(inv, amount, pid) =>
      var i := Insert(inv, amount, pid);
      if next != plan {
        assert forall s :: s in next.inserts <==> s in plan.inserts || s == i;
        assert PairOf(i) == (inv, Ref(pid));
        assert forall k: nat :: k < |plan.inserts| ==> plan.inserts[k] in plan.inserts;
      }
  }

  ghost predicate Settles(b: Books, plan: Plan, a: Action) {
    match a
    case DoReset(p, amount, pid) => Reset(p, amount, pid) in plan.resets
    case Want(inv, amount, pid) => (inv, Ref(pid)) in Refs(b.payments) || (inv, Ref(pid)) in plan.planned
  }

  ghost predicate Grows(plan: Plan, next: Plan) {
    && plan.planned <= next.planned
    && (forall r :: r in plan.resets ==> r in next.resets)
    && (forall i :: i in plan.inserts ==> i in next.inserts)
  }

  ghost predicate FromActions(plan: Plan, next: Plan, actions: seq<Action>) {
    && (forall r :: r in next.resets ==> r in plan.resets || DoReset(r.payment, r.newAmount, r.pid) in actions)
    && (forall i :: i in next.inserts ==> i in plan.inserts || Want(i.invoice, i.amount, i.pid) in actions)
  }

  lemma {:induction false} ActAllFacts(b: Books, plan: Plan, actions: seq<Action>)
    requires PlanOk(b, plan)
    ensures var done := ActAll(b, plan, actions);
      && PlanOk(b, done) && Grows(plan, done) && FromActions(plan, done, actions)
      && forall a :: a in actions ==> Settles(b, done, a)
    decreases |actions|
  {
    if actions != [] {
      var next := Act(b, plan, actions[0]);
      var done := ActAll(b, plan, actions);
      ActKeepsOk(b, plan, actions[0]);
      ActAllFacts(b, next, actions[1..]);
      assert Grows(plan, next) && Settles(b, next, actions[0]);
      assert FromActions(plan, next, [actions[0]]);
      assert forall a :: a in actions <==> a == actions[0] || a in actions[1..];
      assert Settles(b, done, actions[0]);
    }
  }

  // ---------------------------------------------------------------------
  // What is wanted
  // ---------------------------------------------------------------------

  /** QB payment `pid`, split because of row `p`, allocates `amount` to the known other invoice `inv`. */
  ghost predicate SiblingOf(b: Books, p: Payment, a: Alloc, inv: InvId, amount: int, pid: QbPid) {
    && Resettable(b, p) && pid == PidOf(b, p) && a in b.qb[pid]
    && a.qbInv != b.invMap[p.invoice] && a.qbInv in b.index && inv == b.index[a.qbInv] && amount == a.amount
  }

  lemma {:induction false} SiblingWantsAre(b: Books, pid: QbPid, own: QbInv, allocs: seq<Alloc>, x: Action)
    ensures x in SiblingWants(b, pid, own, allocs) <==>
      exists a :: a in allocs && a.qbInv != own && a.qbInv in b.index && x == Want(b.index[a.qbInv], a.amount, pid)
  {
    if allocs != [] {
      SiblingWantsAre(b, pid, own, allocs[1..], x);
      assert forall a :: a in allocs <==> a == allocs[0] || a in allocs[1..];
    }
  }

  lemma {:induction false} SplitActionsAre(b: Books, over: seq<Payment>, x: Action)
    ensures x in SplitActions(b, over) <==>
      exists p :: p in over && x in RowActions(b, p)
  {
    if over != [] {
      SplitActionsAre(b, over[1..], x);
      assert forall p :: p in over <==> p == over[0] || p in over[1..];
    }
  }

  ghost predicate RowReason(b: Books, p: Payment, x: Action) {
    && Resettable(b, p)
    && (x.DoReset? ==> x.payment == p && x.amount == OwnAlloc(b, p).value && x.pid == PidOf(b, p))
    && (x.Want? ==> exists a :: SiblingOf(b, p, a, x.invoice, x.amount, x.pid))
  }

  lemma RowActionsAre(b: Books, p: Payment, x: Action)
    ensures x in RowActions(b, p) <==> RowReason(b, p, x)
  {
    if Resettable(b, p) {
      SiblingWantsAre(b, PidOf(b, p), b.invMap[p.invoice], b.qb[PidOf(b, p)], x);
      if x.Want? && x in RowActions(b, p) {
        var a :| a in b.qb[PidOf(b, p)] && a.qbInv != b.invMap[p.invoice] && a.qbInv in b.index
          && x == Want(b.index[a.qbInv], a.amount, PidOf(b, p));
        assert SiblingOf(b, p, a, x.invoice, x.amount, x.pid);
      }
    }
  }

  /** QB payment `pid` allocates `amount` to the invoice `i` that has no row at all. */
  predicate Backfills(b: Books, i: InvId, amount: int, pid: QbPid) {
    i in b.invMap && pid in b.qb && AllocOf(b.qb[pid], b.invMap[i]) == Some(amount)
  }

  lemma {:induction false} InvoiceWantsAre(b: Books, i: InvId, pids: seq<QbPid>, x: Action)
    ensures x in InvoiceWants(b, i, pids) <==>
      x.Want? && x.invoice == i && x.pid in pids && Backfills(b, i, x.amount, x.pid)
  {
    if pids != [] {
      InvoiceWantsAre(b, i, pids[1..], x);
      assert forall p :: p in pids <==> p == pids[0] || p in pids[1..];
    }
  }

  lemma {:induction false} BackfillActionsAre(b: Books, missing: seq<InvId>, x: Action)
    ensures x in BackfillActions(b, missing) <==>
      x.Want? && x.invoice in missing && x.pid in b.qbIds && Backfills(b, x.invoice, x.amount, x.pid)
  {
    if missing != [] {
      BackfillActionsAre(b, missing[1..], x);
      InvoiceWantsAre(b, missing[0], b.qbIds, x);
      assert forall i :: i in missing <==> i == missing[0] || i in missing[1..];
    }
  }

  /** The reasons for a planned insert. */
  ghost predicate Wanted(b: Books, inv: InvId, amount: int, pid: QbPid) {
    || (exists p, a :: Over(b, p) && SiblingOf(b, p, a, inv, amount, pid))
    || (Missing(b, inv) && Backfills(b, inv, amount, pid))
  }

  /** A reset the plan must hold. */
  predicate DueReset(b: Books, x: Reset) {
    && Over(b, x.payment) && Resettable(b, x.payment)
    && x.newAmount == OwnAlloc(b, x.payment).value && x.pid == PidOf(b, x.payment)
  }

  ghost predicate Reason(b: Books, x: Action) {
    match x
    case DoReset(p, amount, pid) => DueReset(b, Reset(p, amount, pid))
    case Want(inv, amount, pid) => Wanted(b, inv, amount, pid)
  }

  lemma ActionsAre(b: Books, r: Read, x: Action)
    requires Valid(b) && IsRead(b, r)
    ensures x in Actions(b, r) <==> Reason(b, x)
  {
    SplitActionsAre(b, r.over, x);
    BackfillActionsAre(b, r.missing, x);
    forall p | p in r.over ensures x in RowActions(b, p) <==> RowReason(b, p, x) {
      RowActionsAre(b, p, x);
    }
  }

  /** Everything the plan holds, and why. */
  lemma PlanFacts(b: Books, r: Read)
    requires Valid(b) && IsRead(b, r)
    ensures var plan := PlanOf(b, r);
      && PlanOk(b, plan)
      && (forall x :: x in plan.resets <==> DueReset(b, x))
      && (forall i :: i in plan.inserts ==> Wanted(b, i.invoice, i.amount, i.pid))
      && (forall inv, amount, pid :: Wanted(b, inv, amount, pid) ==>
            (inv, Ref(pid)) in Refs(b.payments) || (inv, Ref(pid)) in plan.planned)
  {
    var plan := PlanOf(b, r);
    ActAllFacts(b, NoPlan, Actions(b, r));
    forall x: Action ensures x in Actions(b, r) <==> Reason(b, x) {
      ActionsAre(b, r, x);
    }
    forall x | DueReset(b, x) ensures x in plan.resets {
      assert Reason(b, DoReset(x.payment, x.newAmount, x.pid));
      assert Settles(b, plan, DoReset(x.payment, x.newAmount, x.pid));
    }
    forall inv, amount, pid | Wanted(b, inv, amount, pid)
      ensures (inv, Ref(pid)) in Refs(b.payments) || (inv, Ref(pid)) in plan.planned
    {
      assert Reason(b, Want(inv, amount, pid));
      assert Settles(b, plan, Want(inv, amount, pid));
    }
  }

  // ---------------------------------------------------------------------
  // The rows after the plan is applied
  // ---------------------------------------------------------------------

  predicate Due(b: Books, p: Payment) { Over(b, p) && Resettable(b, p) }

  function Repaired(b: Books, p: Payment): Payment {
    if Due(b, p) then p.(amount := OwnAlloc(b, p).value, reference := Ref(PidOf(b, p))) else p
  }

  ghost predicate FreshIds(b: Books, inserts: seq<Insert>, ids: seq<PayId>) {
    && |ids| == |inserts| && Distinct(ids)
    && (forall id :: id in ids ==> id !in b.payMap && forall p :: p in b.payments ==> p.id != id)
  }

  /** The books once the plan of a read is applied. */
  function After(b: Books, r: Read, ids: seq<PayId>): Books
    requires |ids| == |PlanOf(b, r).inserts|
  {
    b.(payments := ApplyResets(b.payments, PlanOf(b, r).resets) + InsertedRows(PlanOf(b, r).inserts, ids))
  }

  function ResetOne(p: Payment, resets: seq<Reset>): Payment
    decreases |resets|
  {
    if resets == [] then p else ResetOne(ResetRow(p, resets[0]), resets[1..])
  }

  lemma {:induction false} ResetsRowByRow(payments: seq<Payment>, resets: seq<Reset>)
    ensures |ApplyResets(payments, resets)| == |payments|
    ensures forall k :: 0 <= k < |payments| ==> ApplyResets(payments, resets)[k] == ResetOne(payments[k], resets)
    decreases |resets|
  {
    if resets != [] {
      ResetsRowByRow(Map(payments, p => ResetRow(p, resets[0])), resets[1..]);
    }
  }

  /** All resets that name a row say the same, so the row ends as any of them says. */
  lemma {:induction false} ResetOneIs(p: Payment, resets: seq<Reset>, amount: int, pid: QbPid, done: bool)
    requires !p.voided
    requires forall x :: x in resets && x.payment.id == p.id ==> x.newAmount == amount && x.pid == pid
    requires done ==> p.amount == amount && p.reference == Ref(pid)
    ensures ResetOne(p, resets) ==
      if done || exists x :: x in resets && x.payment.id == p.id
      then p.(amount := amount, reference := Ref(pid)) else p
    decreases |resets|
  {
    if resets != [] {
      var first := resets[0].payment.id == p.id;
      ResetOneIs(ResetRow(p, resets[0]), resets[1..], amount, pid, done || first);
      assert forall x :: x in resets <==> x == resets[0] || x in resets[1..];
      assert resets[0] in resets;
    }
  }

  lemma {:induction false} VoidRowsStay(p: Payment, resets: seq<Reset>)
    requires p.voided
    ensures ResetOne(p, resets) == p
    decreases |resets|
  {
    if resets != [] {
      VoidRowsStay(p, resets[1..]);
    }
  }

  lemma SameIdSameRow(b: Books, p: Payment, q: Payment)
    requires Valid(b) && p in b.payments && q in b.payments && p.id == q.id
    ensures p == q
  {
    var i: nat :| i < |b.payments| && b.payments[i] == p;
    var j: nat :| j < |b.payments| && b.payments[j] == q;
  }

  lemma ResetIsRepair(b: Books, r: Read, p: Payment)
    requires Valid(b) && IsRead(b, r) && p in b.payments
    ensures ResetOne(p, PlanOf(b, r).resets) == Repaired(b, p)
  {
    var resets := PlanOf(b, r).resets;
    PlanFacts(b, r);
    if p.voided {
      VoidRowsStay(p, resets);
    } else {
      var amount := if Due(b, p) then OwnAlloc(b, p).value else 0;
      var pid := if Due(b, p) then PidOf(b, p) else "";
      forall x | x in resets && x.payment.id == p.id ensures DueReset(b, x) && x.payment == p {
        SameIdSameRow(b, x.payment, p);
      }
      if Due(b, p) {
        assert DueReset(b, Reset(p, amount, pid));
      }
      ResetOneIs(p, resets, amount, pid, false);
    }
  }

  lemma ApplyIsRepair(b: Books, r: Read)
    requires Valid(b) && IsRead(b, r)
    ensures ApplyResets(b.payments, PlanOf(b, r).resets) == Map(b.payments, p => Repaired(b, p))
  {
    var resets := PlanOf(b, r).resets;
    ResetsRowByRow(b.payments, resets);
    forall k | 0 <= k < |b.payments| ensures ApplyResets(b.payments, resets)[k] == Repaired(b, b.payments[k]) {
      ResetIsRepair(b, r, b.payments[k]);
    }
  }

  /** The row at each place of the repaired table. */
  lemma AfterAt(b: Books, r: Read, ids: seq<PayId>, m: nat)
    requires Valid(b) && IsRead(b, r) && |ids| == |PlanOf(b, r).inserts|
    requires m < |After(b, r, ids).payments|
    ensures |After(b, r, ids).payments| == |b.payments| + |ids|
    ensures After(b, r, ids).payments[m] ==
      if m < |b.payments| then Repaired(b, b.payments[m])
      else InsertedRow(PlanOf(b, r).inserts[m - |b.payments|], ids[m - |b.payments|])
  {
    ApplyIsRepair(b, r);
  }

  /** Every row of the repaired table is an old row repaired or an inserted row. */
  lemma AfterRows(b: Books, r: Read, ids: seq<PayId>)
    requires Valid(b) && IsRead(b, r) && |ids| == |PlanOf(b, r).inserts|
    ensures var after := After(b, r, ids); var inserts := PlanOf(b, r).inserts;
      && after.payments == Map(b.payments, p => Repaired(b, p)) + InsertedRows(inserts, ids)
      && (forall p :: p in b.payments ==> Repaired(b, p) in after.payments)
      && (forall k: nat :: k < |inserts| ==> InsertedRow(inserts[k], ids[k]) in after.payments)
  {
    ApplyIsRepair(b, r);
    var rows := After(b, r, ids).payments;
    var inserts := PlanOf(b, r).inserts;
    forall p | p in b.payments ensures Repaired(b, p) in rows {
      var k: nat :| k < |b.payments| && b.payments[k] == p;
      AfterAt(b, r, ids, k);
    }
    forall k: nat | k < |inserts| ensures InsertedRow(inserts[k], ids[k]) in rows {
      AfterAt(b, r, ids, |b.payments| + k);
    }
  }

  lemma RowOrigin(b: Books, r: Read, ids: seq<PayId>, x: Payment) returns (fromOld: bool, p: Payment, k: nat)
    requires Valid(b) && IsRead(b, r) && |ids| == |PlanOf(b, r).inserts| && x in After(b, r, ids).payments
    ensures if fromOld then p in b.payments && x == Repaired(b, p)
            else k < |PlanOf(b, r).inserts| && x == InsertedRow(PlanOf(b, r).inserts[k], ids[k])
  {
    var m: nat :| m < |After(b, r, ids).payments| && After(b, r, ids).payments[m] == x;
    AfterAt(b, r, ids, m);
    fromOld := m < |b.payments|;
    p := if fromOld then b.payments[m] else x;
    k := if fromOld then 0 else m - |b.payments|;
  }

  lemma IdsStayDistinct(b: Books, inserts: seq<Insert>, ids: seq<PayId>, i: nat, j: nat)
    requires Valid(b) && FreshIds(b, inserts, ids) && i < j < |b.payments| + |ids|
    ensures (if i < |b.payments| then b.payments[i].id else ids[i - |b.payments|])
         != (if j < |b.payments| then b.payments[j].id else ids[j - |b.payments|])
  {
    var n := |b.payments|;
    if i < n <= j {
      assert b.payments[i] in b.payments && ids[j - n] in ids;
    }
  }

  lemma AfterIsValid(b: Books, r: Read, ids: seq<PayId>)
    requires Valid(b) && IsRead(b, r) && FreshIds(b, PlanOf(b, r).inserts, ids)
    ensures Valid(After(b, r, ids))
  {
    var rows := After(b, r, ids).payments;
    forall i: nat, j: nat | i < j < |rows| ensures rows[i].id != rows[j].id {
      AfterAt(b, r, ids, i);
      AfterAt(b, r, ids, j);
      IdsStayDistinct(b, PlanOf(b, r).inserts, ids, i, j);
    }
    forall x | x in rows ensures x.invoice in b.invoices {
      InvoicesAreKnown(b, r, ids, x);
    }
  }

  lemma InvoicesAreKnown(b: Books, r: Read, ids: seq<PayId>, x: Payment)
    requires Valid(b) && IsRead(b, r) && FreshIds(b, PlanOf(b, r).inserts, ids)
    requires x in After(b, r, ids).payments
    ensures x.invoice in b.invoices
  {
    PlanFacts(b, r);
    var fromOld, p, k := RowOrigin(b, r, ids, x);
    if !fromOld {
      assert PlanOf(b, r).inserts[k] in PlanOf(b, r).inserts;
    }
  }
}
