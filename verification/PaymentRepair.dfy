/**
 * Planning and applying the QuickBooks payment repair: over-allocated rows are
 * reset to QB's allocation, allocations without a row get one.
 *
 * Money is cents. A payment row has at most one QB map row, and so has an
 * invoice. A QB payment's allocations are listed in sorted order, one entry per
 * QB invoice; `index` is the lookup from QB invoice to local invoice.
 */
module PaymentRepair {
  import opened Basics

  type PayId = string
  type InvId = string
  type QbPid = string
  type QbInv = string

  datatype Payment = Payment(id: PayId, invoice: InvId, amount: int, reference: string, voided: bool)

  datatype Invoice = Invoice(total: int, paid: bool, balance: int, deleted: bool)

  datatype Alloc = Alloc(qbInv: QbInv, amount: int)

  /** The database tables and the QB index, as one run of the tool reads them. */
  datatype Books = Books(
    payments: seq<Payment>, invoices: map<InvId, Invoice>,
    payMap: map<PayId, QbPid>, invMap: map<InvId, QbInv>, index: map<QbInv, InvId>,
    qbIds: seq<QbPid>, qb: map<QbPid, seq<Alloc>>)

  function Ref(pid: QbPid): string { "qb:" + pid }

  lemma RefIsInjective(a: QbPid, b: QbPid)
    requires Ref(a) == Ref(b)
    ensures a == b
  {
    assert Ref(a)[3..] == a && Ref(b)[3..] == b;
  }

  predicate IsQbRef(r: string) { |r| >= 3 && r[..3] == "qb:" }

  function AllocOf(allocs: seq<Alloc>, q: QbInv): Option<int> {
    if allocs == [] then None
    else if allocs[0].qbInv == q then Some(allocs[0].amount)
    else AllocOf(allocs[1..], q)
  }

  ghost predicate Valid(b: Books) {
    && (forall i: nat, j: nat :: i < j < |b.payments| ==> b.payments[i].id != b.payments[j].id)
    && (forall p :: p in b.payments ==> p.invoice in b.invoices)
    && (forall q :: q in b.index ==> b.index[q] in b.invoices)
    && Distinct(b.qbIds) && (forall pid :: pid in b.qbIds <==> pid in b.qb)
    && (forall pid :: pid in b.qb ==> OneEntryEach(b.qb[pid]))
  }

  ghost predicate OneEntryEach(allocs: seq<Alloc>) {
    forall i: nat, j: nat :: i < j < |allocs| ==> allocs[i].qbInv != allocs[j].qbInv
  }

  // ---------------------------------------------------------------------
  // What the queries select
  // ---------------------------------------------------------------------

  /** `fetch_over_allocated` */
  predicate Over(b: Books, p: Payment) {
    p in b.payments && !p.voided && p.invoice in b.invoices && p.amount > b.invoices[p.invoice].total + 1
  }

  /** `fetch_missing_payment_invoices` */
  predicate Missing(b: Books, i: InvId) {
    && i in b.invoices && i in b.invMap && !b.invoices[i].deleted && b.invoices[i].total > 0
    && (b.invoices[i].paid || b.invoices[i].balance < b.invoices[i].total - 1)
    && forall p :: p in b.payments && !p.voided ==> p.invoice != i
  }

  /** `fetch_existing_allocation_refs` */
  function Refs(payments: seq<Payment>): set<(InvId, string)> {
    set p | p in payments && !p.voided && IsQbRef(p.reference) :: (p.invoice, p.reference)
  }

  /** A read of the tables: each query's rows, once each, in any order. */
  datatype Read = Read(over: seq<Payment>, missing: seq<InvId>)

  ghost predicate IsRead(b: Books, r: Read) {
    && Distinct(r.over) && (forall p :: p in r.over <==> Over(b, p))
    && Distinct(r.missing) && (forall i :: i in r.missing <==> Missing(b, i))
  }

  // ---------------------------------------------------------------------
  // The plan
  // ---------------------------------------------------------------------

  datatype Reset = Reset(payment: Payment, newAmount: int, pid: QbPid)
  datatype Insert = Insert(invoice: InvId, amount: int, pid: QbPid)

  datatype Plan = Plan(resets: seq<Reset>, inserts: seq<Insert>, planned: set<(InvId, string)>)

  const NoPlan := Plan([], [], {})

  function OwnAlloc(b: Books, p: Payment): Option<int> {
    if p.id in b.payMap && b.payMap[p.id] != "" && b.payMap[p.id] in b.qb && p.invoice in b.invMap
    then AllocOf(b.qb[b.payMap[p.id]], b.invMap[p.invoice])
    else None
  }

  /** The row can be repaired: QB knows the payment and allocates to its invoice. */
  predicate Resettable(b: Books, p: Payment) { OwnAlloc(b, p).Some? }

  function PidOf(b: Books, p: Payment): QbPid
    requires Resettable(b, p)
  {
    b.payMap[p.id]
  }

  /** One thing the planner considers, in order. */
  datatype Action = DoReset(payment: Payment, amount: int, pid: QbPid) | Want(invoice: InvId, amount: int, pid: QbPid)

  function Act(b: Books, plan: Plan, a: Action): Plan {
    match a
    case DoReset(p, amount, pid) =>
      Plan(plan.resets + [Reset(p, amount, pid)], plan.inserts, plan.planned + {(p.invoice, Ref(pid))})
    case Want(inv, amount, pid) =>
      if (inv, Ref(pid)) in Refs(b.payments) || (inv, Ref(pid)) in plan.planned then plan
      else Plan(plan.resets, plan.inserts + [Insert(inv, amount, pid)], plan.planned + {(inv, Ref(pid))})
  }

  function ActAll(b: Books, plan: Plan, actions: seq<Action>): Plan
    decreases |actions|
  {
    if actions == [] then plan else ActAll(b, Act(b, plan, actions[0]), actions[1..])
  }

  /** QB's allocations to the payment's other, known invoices. */
  function SiblingWants(b: Books, pid: QbPid, own: QbInv, allocs: seq<Alloc>): seq<Action> {
    if allocs == [] then []
    else (if allocs[0].qbInv != own && allocs[0].qbInv in b.index
          then [Want(b.index[allocs[0].qbInv], allocs[0].amount, pid)] else [])
         + SiblingWants(b, pid, own, allocs[1..])
  }

  function RowActions(b: Books, p: Payment): seq<Action> {
    if !Resettable(b, p) then []
    else [DoReset(p, OwnAlloc(b, p).value, PidOf(b, p))]
         + SiblingWants(b, PidOf(b, p), b.invMap[p.invoice], b.qb[PidOf(b, p)])
  }

  function SplitActions(b: Books, over: seq<Payment>): seq<Action> {
    if over == [] then [] else RowActions(b, over[0]) + SplitActions(b, over[1..])
  }

  /** Every QB payment that allocates to the invoice. */
  function InvoiceWants(b: Books, i: InvId, pids: seq<QbPid>): seq<Action> {
    if pids == [] then []
    else (if i in b.invMap && pids[0] in b.qb && AllocOf(b.qb[pids[0]], b.invMap[i]).Some?
          then [Want(i, AllocOf(b.qb[pids[0]], b.invMap[i]).value, pids[0])] else [])
         + InvoiceWants(b, i, pids[1..])
  }

  function BackfillActions(b: Books, missing: seq<InvId>): seq<Action> {
    if missing == [] then [] else InvoiceWants(b, missing[0], b.qbIds) + BackfillActions(b, missing[1..])
  }

  function Actions(b: Books, r: Read): seq<Action> { SplitActions(b, r.over) + BackfillActions(b, r.missing) }

  function PlanOf(b: Books, r: Read): Plan { ActAll(b, NoPlan, Actions(b, r)) }

  // ---------------------------------------------------------------------
  // The planner as it is written
  // ---------------------------------------------------------------------

  lemma {:induction false} ActAllConcat(b: Books, plan: Plan, x: seq<Action>, y: seq<Action>)
    ensures ActAll(b, plan, x + y) == ActAll(b, ActAll(b, plan, x), y)
    decreases |x|
  {
    if x == [] {
      assert x + y == y;
    } else {
      assert (x + y)[1..] == x[1..] + y;
      ActAllConcat(b, Act(b, plan, x[0]), x[1..], y);
    }
  }

  lemma ActFirst(b: Books, plan: Plan, a: Action, rest: seq<Action>)
    ensures ActAll(b, plan, [a] + rest) == ActAll(b, Act(b, plan, a), rest)
    ensures [] + rest == rest
  {
    assert ([a] + rest)[1..] == rest;
  }

  /** The inner loop over one QB payment's allocations. */
  method PlanSiblings(b: Books, before: Plan, pid: QbPid, own: QbInv, allocs: seq<Alloc>) returns (plan: Plan)
    ensures plan == ActAll(b, before, SiblingWants(b, pid, own, allocs))
  {
    plan := before;
    var k := 0;
    while k < |allocs|
      invariant 0 <= k <= |allocs|
      invariant ActAll(b, plan, SiblingWants(b, pid, own, allocs[k..]))
             == ActAll(b, before, SiblingWants(b, pid, own, allocs))
    {
      assert allocs[k..][1..] == allocs[k + 1..];
      var a := allocs[k];
      ghost var rest := SiblingWants(b, pid, own, allocs[k + 1..]);
      assert [] + rest == rest;
      if a.qbInv != own && a.qbInv in b.index {
        var target := b.index[a.qbInv];
        ActFirst(b, plan, Want(target, a.amount, pid), rest);
        if (target, Ref(pid)) !in Refs(b.payments) && (target, Ref(pid)) !in plan.planned {
          plan := Plan(plan.resets, plan.inserts + [Insert(target, a.amount, pid)],
                       plan.planned + {(target, Ref(pid))});
        }
      }
      k := k + 1;
    }
  }

  method PlanSplits(b: Books, over: seq<Payment>) returns (plan: Plan)
    ensures plan == ActAll(b, NoPlan, SplitActions(b, over))
  {
    plan := NoPlan;
    var k := 0;
    while k < |over|
      invariant 0 <= k <= |over|
      invariant ActAll(b, plan, SplitActions(b, over[k..])) == ActAll(b, NoPlan, SplitActions(b, over))
    {
      assert over[k..][1..] == over[k + 1..];
      var p := over[k];
      ActAllConcat(b, plan, RowActions(b, p), SplitActions(b, over[k + 1..]));
      if Resettable(b, p) {
        var pid, own := b.payMap[p.id], b.invMap[p.invoice];
        ActFirst(b, plan, DoReset(p, OwnAlloc(b, p).value, pid), SiblingWants(b, pid, own, b.qb[pid]));
        plan := Plan(plan.resets + [Reset(p, OwnAlloc(b, p).value, pid)], plan.inserts,
                     plan.planned + {(p.invoice, Ref(pid))});
        plan := PlanSiblings(b, plan, pid, own, b.qb[pid]);
      }
      k := k + 1;
    }
  }

  method PlanInvoice(b: Books, before: Plan, i: InvId, pids: seq<QbPid>) returns (plan: Plan)
    ensures plan == ActAll(b, before, InvoiceWants(b, i, pids))
  {
    plan := before;
    var k := 0;
    while k < |pids|
      invariant 0 <= k <= |pids|
      invariant ActAll(b, plan, InvoiceWants(b, i, pids[k..])) == ActAll(b, before, InvoiceWants(b, i, pids))
    {
      assert pids[k..][1..] == pids[k + 1..];
      var pid := pids[k];
      ghost var rest := InvoiceWants(b, i, pids[k + 1..]);
      assert [] + rest == rest;
      if i in b.invMap && pid in b.qb && AllocOf(b.qb[pid], b.invMap[i]).Some? {
        var amount := AllocOf(b.qb[pid], b.invMap[i]).value;
        ActFirst(b, plan, Want(i, amount, pid), rest);
        if (i, Ref(pid)) !in Refs(b.payments) && (i, Ref(pid)) !in plan.planned {
          plan := Plan(plan.resets, plan.inserts + [Insert(i, amount, pid)], plan.planned + {(i, Ref(pid))});
        }
      }
      k := k + 1;
    }
  }

  /** `build_substance_plan`: splits first, then backfills. */
  method BuildSubstancePlan(b: Books, r: Read) returns (plan: Plan)
    ensures plan == PlanOf(b, r)
  {
    plan := PlanSplits(b, r.over);
    ActAllConcat(b, NoPlan, SplitActions(b, r.over), BackfillActions(b, r.missing));
    var k := 0;
    while k < |r.missing|
      invariant 0 <= k <= |r.missing|
      invariant ActAll(b, plan, BackfillActions(b, r.missing[k..])) == PlanOf(b, r)
    {
      assert r.missing[k..][1..] == r.missing[k + 1..];
      ActAllConcat(b, plan, InvoiceWants(b, r.missing[k], b.qbIds), BackfillActions(b, r.missing[k + 1..]));
      plan := PlanInvoice(b, plan, r.missing[k], b.qbIds);
      k := k + 1;
    }
  }

  // ---------------------------------------------------------------------
  // Applying it
  // ---------------------------------------------------------------------

  function ResetRow(p: Payment, r: Reset): Payment {
    if p.id == r.payment.id && !p.voided then p.(amount := r.newAmount, reference := Ref(r.pid)) else p
  }

  function ApplyResets(payments: seq<Payment>, resets: seq<Reset>): seq<Payment>
    decreases |resets|
  {
    if resets == [] then payments else ApplyResets(Map(payments, p => ResetRow(p, resets[0])), resets[1..])
  }

  function InsertedRow(i: Insert, id: PayId): Payment { Payment(id, i.invoice, i.amount, Ref(i.pid), false) }

  function InsertedRows(inserts: seq<Insert>, ids: seq<PayId>): (rows: seq<Payment>)
    requires |ids| == |inserts|
    ensures |rows| == |inserts|
    ensures forall k :: 0 <= k < |rows| ==> rows[k] == InsertedRow(inserts[k], ids[k])
  {
    seq(|inserts|, k requires 0 <= k < |inserts| => InsertedRow(inserts[k], ids[k]))
  }

  class Ledger {
    var payments: seq<Payment>

    constructor (rows: seq<Payment>)
      ensures payments == rows
    {
      payments := rows;
    }

    /** `apply_plan`, resets then inserts; `ids` are the new rows' ids. */
    method ApplyPlan(plan: Plan, ids: seq<PayId>)
      requires |ids| == |plan.inserts|
      modifies this
      ensures payments == ApplyResets(old(payments), plan.resets) + InsertedRows(plan.inserts, ids)
    {
      var k := 0;
      while k < |plan.resets|
        invariant 0 <= k <= |plan.resets|
        invariant ApplyResets(payments, plan.resets[k..]) == ApplyResets(old(payments), plan.resets)
      {
        assert plan.resets[k..][1..] == plan.resets[k + 1..];
        var r := plan.resets[k];
        payments := Map(payments, p => ResetRow(p, r));
        k := k + 1;
      }
      ghost var reset := payments;
      k := 0;
      while k < |plan.inserts|
        invariant 0 <= k <= |plan.inserts|
        invariant payments == reset + InsertedRows(plan.inserts, ids)[..k]
      {
        payments := payments + [InsertedRow(plan.inserts[k], ids[k])];
        k := k + 1;
      }
    }
  }
}
