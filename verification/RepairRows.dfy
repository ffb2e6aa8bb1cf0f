/** What a run does to each row and each invoice, said on the tables and the QB index. */
module RepairRows {
  import opened Basics
  import opened PaymentRepair
  import opened RepairProofs
  import opened RepairResults

  /** A live row more than a cent above its invoice's total, mapped to a payment QB knows,
      which allocates `amount` to that invoice. */
  ghost predicate IsSplit(b: Books, p: Payment, pid: QbPid, amount: int) {
    && p in b.payments && !p.voided && p.invoice in b.invoices && p.amount > b.invoices[p.invoice].total + 1
    && p.id in b.payMap && b.payMap[p.id] == pid && pid != "" && pid in b.qb
    && p.invoice in b.invMap && Alloc(b.invMap[p.invoice], amount) in b.qb[pid]
  }

  lemma SplitIsDue(b: Books, p: Payment, pid: QbPid, amount: int)
    requires Valid(b)
    ensures IsSplit(b, p, pid, amount) <==> Due(b, p) && PidOf(b, p) == pid && OwnAlloc(b, p).value == amount
  {
    if p.id in b.payMap && b.payMap[p.id] in b.qb && p.invoice in b.invMap {
      AllocOfIs(b.qb[b.payMap[p.id]], b.invMap[p.invoice]);
    }
  }

  /** A run leaves every row as it was, except such rows, which get QB's amount and
      reference and keep all else. */
  lemma RunChangesOnlySplits(b: Books, r: Read, ids: seq<PayId>, m: nat)
    requires Valid(b) && IsRead(b, r) && FreshIds(b, PlanOf(b, r).inserts, ids) && m < |b.payments|
    ensures m < |After(b, r, ids).payments|
    ensures var p, after := b.payments[m], After(b, r, ids).payments[m];
      && (forall pid, amount :: IsSplit(b, p, pid, amount) ==> after == p.(amount := amount, reference := "qb:" + pid))
      && ((forall pid, amount :: !IsSplit(b, p, pid, amount)) ==> after == p)
  {
    var p := b.payments[m];
    ApplyIsRepair(b, r);
    AfterAt(b, r, ids, m);
    forall pid, amount | IsSplit(b, p, pid, amount)
      ensures After(b, r, ids).payments[m] == p.(amount := amount, reference := "qb:" + pid)
    {
      SplitIsDue(b, p, pid, amount);
    }
    if Due(b, p) {
      SplitIsDue(b, p, PidOf(b, p), OwnAlloc(b, p).value);
    }
  }

  /** A live, mapped invoice with a total, paid or paid in part by more than a cent, that no
      live row settles, and to which QB allocates `amount`. */
  ghost predicate IsUnsettled(b: Books, i: InvId, pid: QbPid, amount: int) {
    && i in b.invoices && !b.invoices[i].deleted && b.invoices[i].total > 0
    && (b.invoices[i].paid || b.invoices[i].balance < b.invoices[i].total - 1)
    && (forall p :: p in b.payments && !p.voided ==> p.invoice != i)
    && i in b.invMap && pid in b.qb && Alloc(b.invMap[i], amount) in b.qb[pid]
  }

  /** QB allocates `amount` of a split row's payment to another invoice, which is `inv` here. */
  ghost predicate IsSibling(b: Books, p: Payment, inv: InvId, pid: QbPid, amount: int) {
    exists own, q :: IsSplit(b, p, pid, own) && q != b.invMap[p.invoice] && q in b.index && b.index[q] == inv &&
                     Alloc(q, amount) in b.qb[pid]
  }

  lemma WantedIff(b: Books, inv: InvId, amount: int, pid: QbPid)
    requires Valid(b)
    ensures Wanted(b, inv, amount, pid) <==>
      IsUnsettled(b, inv, pid, amount) || exists p :: IsSibling(b, p, inv, pid, amount)
  {
    if pid in b.qb && inv in b.invMap {
      AllocOfIs(b.qb[pid], b.invMap[inv]);
    }
    if p, a :| Over(b, p) && SiblingOf(b, p, a, inv, amount, pid) {
      SplitIsDue(b, p, pid, OwnAlloc(b, p).value);
      assert a == Alloc(a.qbInv, amount);
      assert IsSibling(b, p, inv, pid, amount);
    }
    if p :| IsSibling(b, p, inv, pid, amount) {
      var own, q :| IsSplit(b, p, pid, own) && q != b.invMap[p.invoice] && q in b.index && b.index[q] == inv &&
                    Alloc(q, amount) in b.qb[pid];
      SplitIsDue(b, p, pid, own);
      assert SiblingOf(b, p, Alloc(q, amount), inv, amount, pid);
    }
  }

  /** A run inserts a row only for an unsettled invoice or a split row's other invoice, at
      QB's amount and where no live row has the pair; and each of them has a live row with
      QB's reference afterwards, unless the row that had it was itself given another. */
  lemma RunInsertsOnlyWhatIsMissing(b: Books, r: Read, inv: InvId, amount: int, pid: QbPid)
    requires Valid(b) && IsRead(b, r)
    ensures Insert(inv, amount, pid) in PlanOf(b, r).inserts ==>
      && (IsUnsettled(b, inv, pid, amount) || exists p :: IsSibling(b, p, inv, pid, amount))
      && forall p :: p in b.payments && !p.voided && p.invoice == inv ==> p.reference != "qb:" + pid
    ensures IsUnsettled(b, inv, pid, amount) || (exists p :: IsSibling(b, p, inv, pid, amount)) ==>
      || (exists p :: p in b.payments && !p.voided && p.invoice == inv && p.reference == "qb:" + pid)
      || (exists p, own :: IsSplit(b, p, pid, own) && p.invoice == inv)
      || (exists i :: i in PlanOf(b, r).inserts && i.invoice == inv && i.pid == pid)
  {
    var plan := PlanOf(b, r);
    PlanFacts(b, r);
    WantedIff(b, inv, amount, pid);
    RefIsQb(pid);
    if Wanted(b, inv, amount, pid) && (inv, Ref(pid)) !in Refs(b.payments) {
      PlannedPairHasItsCause(b, r, inv, pid);
    }
  }

  lemma PlannedPairHasItsCause(b: Books, r: Read, inv: InvId, pid: QbPid)
    requires Valid(b) && IsRead(b, r) && (inv, Ref(pid)) in PlanOf(b, r).planned
    ensures (exists p, own :: IsSplit(b, p, pid, own) && p.invoice == inv)
         || (exists i :: i in PlanOf(b, r).inserts && i.invoice == inv && i.pid == pid)
  {
    var plan := PlanOf(b, r);
    PlanFacts(b, r);
    if x :| x in plan.resets && ResetPair(x) == (inv, Ref(pid)) {
      RefIsInjective(x.pid, pid);
      SplitIsDue(b, x.payment, pid, x.newAmount);
    } else {
      var i :| i in plan.inserts && PairOf(i) == (inv, Ref(pid));
      RefIsInjective(i.pid, pid);
    }
  }
}
