/** The repair tool's main results, for every state of the books. */
module RepairResults {
  import opened Basics
  import opened PaymentRepair
  import opened RepairProofs

  // ---------------------------------------------------------------------
  // References after the repair
  // ---------------------------------------------------------------------

  lemma RefIsQb(pid: QbPid)
    ensures IsQbRef(Ref(pid))
  {
    assert Ref(pid)[..3] == "qb:";
  }

  /** An untouched live row carries the pair. */
  predicate KeepsRef(b: Books, q: Payment, inv: InvId, pid: QbPid) {
    q in b.payments && !q.voided && !Due(b, q) && q.invoice == inv && q.reference == Ref(pid)
  }

  /** After the repair a (invoice, qb reference) pair has a live row exactly if it
      was planned or an untouched row carries it. */
  lemma RefsAfter(b: Books, r: Read, ids: seq<PayId>, inv: InvId, pid: QbPid)
    requires Valid(b) && IsRead(b, r) && FreshIds(b, PlanOf(b, r).inserts, ids)
    ensures (inv, Ref(pid)) in Refs(After(b, r, ids).payments) <==>
      (inv, Ref(pid)) in PlanOf(b, r).planned || exists q :: KeepsRef(b, q, inv, pid)
  {
    var after := After(b, r, ids);
    if (inv, Ref(pid)) in Refs(after.payments) {
      var x :| x in after.payments && !x.voided && x.invoice == inv && x.reference == Ref(pid);
      LiveRefHasACause(b, r, ids, x, pid);
    }
    if (inv, Ref(pid)) in PlanOf(b, r).planned {
      PlannedIsLive(b, r, ids, inv, pid);
    }
    if q :| KeepsRef(b, q, inv, pid) {
      AfterRows(b, r, ids);
      LiveRowHasRef(after.payments, Repaired(b, q), pid);
    }
  }

  lemma LiveRefHasACause(b: Books, r: Read, ids: seq<PayId>, x: Payment, pid: QbPid)
    requires Valid(b) && IsRead(b, r) && FreshIds(b, PlanOf(b, r).inserts, ids)
    requires x in After(b, r, ids).payments && !x.voided && x.reference == Ref(pid)
    ensures (x.invoice, Ref(pid)) in PlanOf(b, r).planned || exists q :: KeepsRef(b, q, x.invoice, pid)
  {
    var plan := PlanOf(b, r);
    PlanFacts(b, r);
    var fromOld, p, k := RowOrigin(b, r, ids, x);
    if !fromOld {
      assert plan.inserts[k] in plan.inserts && PairOf(plan.inserts[k]) == (x.invoice, Ref(pid));
    } else if Due(b, p) {
      var y := Reset(p, OwnAlloc(b, p).value, PidOf(b, p));
      assert DueReset(b, y) && ResetPair(y) == (x.invoice, Ref(pid));
    } else {
      assert KeepsRef(b, p, x.invoice, pid);
    }
  }

  lemma PlannedIsLive(b: Books, r: Read, ids: seq<PayId>, inv: InvId, pid: QbPid)
    requires Valid(b) && IsRead(b, r) && FreshIds(b, PlanOf(b, r).inserts, ids)
    requires (inv, Ref(pid)) in PlanOf(b, r).planned
    ensures (inv, Ref(pid)) in Refs(After(b, r, ids).payments)
  {
    var plan := PlanOf(b, r);
    PlanFacts(b, r);
    if x :| x in plan.resets && ResetPair(x) == (inv, Ref(pid)) {
      ResetIsLive(b, r, ids, x, pid);
    } else {
      var i :| i in plan.inserts && PairOf(i) == (inv, Ref(pid));
      var k: nat :| k < |plan.inserts| && plan.inserts[k] == i;
      AfterRows(b, r, ids);
      LiveRowHasRef(After(b, r, ids).payments, InsertedRow(i, ids[k]), pid);
    }
  }

  lemma ResetIsLive(b: Books, r: Read, ids: seq<PayId>, x: Reset, pid: QbPid)
    requires Valid(b) && IsRead(b, r) && |ids| == |PlanOf(b, r).inserts|
    requires DueReset(b, x) && Ref(x.pid) == Ref(pid)
    ensures (x.payment.invoice, Ref(pid)) in Refs(After(b, r, ids).payments)
  {
    AfterRows(b, r, ids);
    LiveRowHasRef(After(b, r, ids).payments, Repaired(b, x.payment), pid);
  }

  lemma LiveRowHasRef(rows: seq<Payment>, row: Payment, pid: QbPid)
    requires row in rows && !row.voided && row.reference == Ref(pid)
    ensures (row.invoice, Ref(pid)) in Refs(rows)
  {
    RefIsQb(pid);
  }

  // ---------------------------------------------------------------------
  // Running it twice
  // ---------------------------------------------------------------------

  lemma SameLookups(b: Books, r: Read, ids: seq<PayId>, p: Payment)
    requires |ids| == |PlanOf(b, r).inserts|
    ensures OwnAlloc(After(b, r, ids), p) == OwnAlloc(b, p)
    ensures OwnAlloc(b, Repaired(b, p)) == OwnAlloc(b, p)
  {
  }

  /** A row the second run would reset was reset by the first, and stands already. */
  lemma SecondResetStands(b: Books, r: Read, ids: seq<PayId>, x: Payment) returns (p: Payment)
    requires Valid(b) && IsRead(b, r) && FreshIds(b, PlanOf(b, r).inserts, ids)
    requires Due(After(b, r, ids), x)
    ensures Due(b, p) && x == Repaired(b, p)
    ensures x.amount == OwnAlloc(After(b, r, ids), x).value && x.reference == Ref(PidOf(After(b, r, ids), x))
    ensures OwnAlloc(b, p).value > b.invoices[p.invoice].total + 1
  {
    var after := After(b, r, ids);
    var fromOld, q, k := RowOrigin(b, r, ids, x);
    SameLookups(b, r, ids, x);
    if fromOld {
      p := q;
      SameLookups(b, r, ids, p);
    } else {
      p := x;
    }
  }

  /** A row reset to an amount above its invoice's total, for which QB also
      allocates to `inv`: the second run looks at that allocation again. */
  ghost predicate LooksAgain(b: Books, p: Payment, a: Alloc, inv: InvId, amount: int, pid: QbPid) {
    && Due(b, p) && OwnAlloc(b, p).value > b.invoices[p.invoice].total + 1
    && SiblingOf(b, p, a, inv, amount, pid)
  }

  /** The pair has a row now, but every such row is about to be given another reference. */
  ghost predicate LosesItsRow(b: Books, inv: InvId, pid: QbPid) {
    && (inv, Ref(pid)) in Refs(b.payments)
    && (forall q :: q in b.payments && !q.voided && q.invoice == inv && q.reference == Ref(pid) ==> Due(b, q))
    && (forall q :: q in b.payments && Due(b, q) && q.invoice == inv ==> PidOf(b, q) != pid)
  }

  ghost predicate Stale(b: Books) {
    exists p, a, inv, amount, pid :: LooksAgain(b, p, a, inv, amount, pid) && LosesItsRow(b, inv, pid)
  }

  lemma LooksAgainIsWantedTwice(
    b: Books, r: Read, ids: seq<PayId>, p: Payment, a: Alloc, inv: InvId, amount: int, pid: QbPid)
    requires Valid(b) && IsRead(b, r) && FreshIds(b, PlanOf(b, r).inserts, ids)
    requires LooksAgain(b, p, a, inv, amount, pid)
    ensures Wanted(b, inv, amount, pid) && Wanted(After(b, r, ids), inv, amount, pid)
  {
    var after := After(b, r, ids);
    var x := Repaired(b, p);
    AfterRows(b, r, ids);
    SameLookups(b, r, ids, p);
    SameLookups(b, r, ids, x);
    assert Over(b, p) && SiblingOf(b, p, a, inv, amount, pid);
    assert Over(after, x) && SiblingOf(after, x, a, inv, amount, pid);
  }

  lemma LostPairIsGone(b: Books, r: Read, ids: seq<PayId>, inv: InvId, pid: QbPid)
    requires Valid(b) && IsRead(b, r) && FreshIds(b, PlanOf(b, r).inserts, ids)
    requires LosesItsRow(b, inv, pid)
    ensures (inv, Ref(pid)) !in Refs(After(b, r, ids).payments)
  {
    var plan := PlanOf(b, r);
    PlanFacts(b, r);
    RefsAfter(b, r, ids, inv, pid);
    forall x | x in plan.resets ensures ResetPair(x) != (inv, Ref(pid)) {
      assert DueReset(b, x);
      if Ref(x.pid) == Ref(pid) {
        RefIsInjective(x.pid, pid);
      }
    }
  }

  /** A pair wanted by the second run has a row, unless it is one the first run took away. */
  lemma SecondWantIsMetOrStale(b: Books, r: Read, ids: seq<PayId>, inv: InvId, amount: int, pid: QbPid)
    requires Valid(b) && IsRead(b, r) && FreshIds(b, PlanOf(b, r).inserts, ids)
    requires Wanted(After(b, r, ids), inv, amount, pid)
    ensures (inv, Ref(pid)) in Refs(After(b, r, ids).payments) || Stale(b)
  {
    var after := After(b, r, ids);
    PlanFacts(b, r);
    RefsAfter(b, r, ids, inv, pid);
    if x, a :| Over(after, x) && SiblingOf(after, x, a, inv, amount, pid) {
      var p := SecondResetStands(b, r, ids, x);
      SameLookups(b, r, ids, p);
      SameLookups(b, r, ids, x);
      assert SiblingOf(b, p, a, inv, amount, pid);
      assert LooksAgain(b, p, a, inv, amount, pid);
      assert Wanted(b, inv, amount, pid);
      if (inv, Ref(pid)) !in Refs(after.payments) {
        NotKeptIsLost(b, r, ids, inv, pid);
      }
    } else {
      StillMissing(b, r, ids, inv);
      assert Wanted(b, inv, amount, pid);
    }
  }

  lemma NotKeptIsLost(b: Books, r: Read, ids: seq<PayId>, inv: InvId, pid: QbPid)
    requires Valid(b) && IsRead(b, r) && FreshIds(b, PlanOf(b, r).inserts, ids)
    requires (inv, Ref(pid)) in Refs(b.payments) && (inv, Ref(pid)) !in Refs(After(b, r, ids).payments)
    ensures LosesItsRow(b, inv, pid)
  {
    PlanFacts(b, r);
    RefsAfter(b, r, ids, inv, pid);
    forall q | q in b.payments && !q.voided && q.invoice == inv && q.reference == Ref(pid) ensures Due(b, q) {
      assert !KeepsRef(b, q, inv, pid);
    }
    forall q | q in b.payments && Due(b, q) && q.invoice == inv ensures PidOf(b, q) != pid {
      var y := Reset(q, OwnAlloc(b, q).value, PidOf(b, q));
      assert DueReset(b, y) && y in PlanOf(b, r).resets;
      assert ResetPair(y) in PlanOf(b, r).planned;
    }
  }

  lemma StillMissing(b: Books, r: Read, ids: seq<PayId>, inv: InvId)
    requires Valid(b) && IsRead(b, r) && FreshIds(b, PlanOf(b, r).inserts, ids)
    requires Missing(After(b, r, ids), inv)
    ensures Missing(b, inv)
    ensures forall pid :: (inv, Ref(pid)) !in Refs(b.payments)
  {
    AfterRows(b, r, ids);
    forall p | p in b.payments && !p.voided ensures p.invoice != inv {
      assert Repaired(b, p) in After(b, r, ids).payments;
    }
  }

  /** The second run inserts nothing exactly when no settled pair lost its row to a
      reset of the first; its resets change nothing in any case. */
  lemma SecondRunInsertsNothingIff(b: Books, r: Read, ids: seq<PayId>, r2: Read)
    requires Valid(b) && IsRead(b, r) && FreshIds(b, PlanOf(b, r).inserts, ids)
    requires IsRead(After(b, r, ids), r2)
    ensures PlanOf(After(b, r, ids), r2).inserts == [] <==> !Stale(b)
  {
    var after := After(b, r, ids);
    var plan2 := PlanOf(after, r2);
    AfterIsValid(b, r, ids);
    PlanFacts(after, r2);
    if Stale(b) {
      StaleMeansInsert(b, r, ids, r2);
    } else if plan2.inserts != [] {
      var i := plan2.inserts[0];
      assert i in plan2.inserts;
      SecondWantIsMetOrStale(b, r, ids, i.invoice, i.amount, i.pid);
    }
  }

  lemma StaleMeansInsert(b: Books, r: Read, ids: seq<PayId>, r2: Read)
    requires Valid(b) && IsRead(b, r) && FreshIds(b, PlanOf(b, r).inserts, ids)
    requires IsRead(After(b, r, ids), r2) && Stale(b)
    ensures PlanOf(After(b, r, ids), r2).inserts != []
  {
    var p, a, inv, amount, pid :| LooksAgain(b, p, a, inv, amount, pid) && LosesItsRow(b, inv, pid);
    LooksAgainIsWantedTwice(b, r, ids, p, a, inv, amount, pid);
    LostPairIsGone(b, r, ids, inv, pid);
    ResetPairsAreLive(b, r, ids, r2, inv, pid);
    AfterIsValid(b, r, ids);
    var i := WantedPairIsInserted(After(b, r, ids), r2, inv, amount, pid);
  }

  /** A wanted pair that has no row and that no reset provides is inserted. */
  lemma WantedPairIsInserted(b: Books, r: Read, inv: InvId, amount: int, pid: QbPid) returns (i: Insert)
    requires Valid(b) && IsRead(b, r) && Wanted(b, inv, amount, pid) && (inv, Ref(pid)) !in Refs(b.payments)
    requires forall x :: x in PlanOf(b, r).resets ==> ResetPair(x) != (inv, Ref(pid))
    ensures i in PlanOf(b, r).inserts && PairOf(i) == (inv, Ref(pid)) && i.pid == pid && Wanted(b, inv, i.amount, pid)
  {
    PlanFacts(b, r);
    i :| i in PlanOf(b, r).inserts && PairOf(i) == (inv, Ref(pid));
    RefIsInjective(i.pid, pid);
  }

  lemma ResetPairsAreLive(b: Books, r: Read, ids: seq<PayId>, r2: Read, inv: InvId, pid: QbPid)
    requires Valid(b) && IsRead(b, r) && FreshIds(b, PlanOf(b, r).inserts, ids)
    requires IsRead(After(b, r, ids), r2)
    requires (inv, Ref(pid)) !in Refs(After(b, r, ids).payments)
    ensures forall x :: x in PlanOf(After(b, r, ids), r2).resets ==> ResetPair(x) != (inv, Ref(pid))
  {
    var after := After(b, r, ids);
    AfterIsValid(b, r, ids);
    PlanFacts(after, r2);
    RefIsQb(pid);
    forall x | x in PlanOf(after, r2).resets ensures ResetPair(x) != (inv, Ref(pid)) {
      assert DueReset(after, x);
      var p := SecondResetStands(b, r, ids, x.payment);
    }
  }

  /** Applying the plan, reading the tables again and applying the new plan leaves
      the payment rows as they were, exactly when the books are not stale. */
  lemma SecondRunChangesNothingIff(b: Books, r: Read, ids: seq<PayId>, r2: Read, ids2: seq<PayId>)
    requires Valid(b) && IsRead(b, r) && FreshIds(b, PlanOf(b, r).inserts, ids)
    requires IsRead(After(b, r, ids), r2)
    requires FreshIds(After(b, r, ids), PlanOf(After(b, r, ids), r2).inserts, ids2)
    ensures After(After(b, r, ids), r2, ids2).payments == After(b, r, ids).payments <==> !Stale(b)
  {
    var after := After(b, r, ids);
    AfterIsValid(b, r, ids);
    AfterRows(after, r2, ids2);
    SecondRunInsertsNothingIff(b, r, ids, r2);
    forall k | 0 <= k < |after.payments| ensures Repaired(after, after.payments[k]) == after.payments[k] {
      var x := after.payments[k];
      if Due(after, x) {
        var p := SecondResetStands(b, r, ids, x);
      }
    }
    assert Map(after.payments, p => Repaired(after, p)) == after.payments;
    assert |After(after, r2, ids2).payments| == |after.payments| + |PlanOf(after, r2).inserts|;
  }

  /** Map and reference agree on every row the plan resets. */
  ghost predicate LinksAgree(b: Books) {
    forall q :: q in b.payments && Due(b, q) && IsQbRef(q.reference) ==> q.reference == Ref(PidOf(b, q))
  }

  lemma AgreeingLinksKeepTheRow(b: Books, inv: InvId, pid: QbPid)
    requires Valid(b) && LinksAgree(b)
    ensures !LosesItsRow(b, inv, pid)
  {
    RefIsQb(pid);
    if (inv, Ref(pid)) in Refs(b.payments) {
      var q :| q in b.payments && !q.voided && q.invoice == inv && q.reference == Ref(pid);
      if Due(b, q) {
        RefIsInjective(PidOf(b, q), pid);
      }
    }
  }

  lemma AgreeingLinksAreNeverStale(b: Books)
    requires Valid(b) && LinksAgree(b)
    ensures !Stale(b)
  {
    forall inv, pid ensures !LosesItsRow(b, inv, pid) {
      AgreeingLinksKeepTheRow(b, inv, pid);
    }
  }

  /** After one run map and reference agree on every row that is still over-allocated. */
  lemma LinksAgreeAfterARun(b: Books, r: Read, ids: seq<PayId>)
    requires Valid(b) && IsRead(b, r) && FreshIds(b, PlanOf(b, r).inserts, ids)
    ensures LinksAgree(After(b, r, ids))
  {
    var after := After(b, r, ids);
    forall q | q in after.payments && Due(after, q) && IsQbRef(q.reference)
      ensures q.reference == Ref(PidOf(after, q))
    {
      var p := SecondResetStands(b, r, ids, q);
    }
  }

  /** The tool's fixed point: from any books, whatever two runs leave, a third never
      changes a row. */
  lemma ThirdRunChangesNothing(
    b: Books, r: Read, ids: seq<PayId>, r2: Read, ids2: seq<PayId>, r3: Read, ids3: seq<PayId>)
    requires Valid(b) && IsRead(b, r) && FreshIds(b, PlanOf(b, r).inserts, ids)
    requires var b1 := After(b, r, ids); IsRead(b1, r2) && FreshIds(b1, PlanOf(b1, r2).inserts, ids2)
    requires var b2 := After(After(b, r, ids), r2, ids2); IsRead(b2, r3) && FreshIds(b2, PlanOf(b2, r3).inserts, ids3)
    ensures var b2 := After(After(b, r, ids), r2, ids2); After(b2, r3, ids3).payments == b2.payments
  {
    AfterIsValid(b, r, ids);
    LinksAgreeAfterARun(b, r, ids);
    AgreeingLinksAreNeverStale(After(b, r, ids));
    SecondRunChangesNothingIff(After(b, r, ids), r2, ids2, r3, ids3);
  }

  const RowA := Payment("a", "A", 900, "", false)
  const RowB := Payment("b", "B", 900, Ref("X"), false)
  const StaleBooks := Books([RowA, RowB],
    map["A" := Invoice(100, false, 100, false), "B" := Invoice(100, false, 100, false)],
    map["a" := "X", "b" := "Y"], map["A" := "qa", "B" := "qb"], map["qa" := "A", "qb" := "B"],
    ["X", "Y"], map["X" := [Alloc("qa", 500), Alloc("qb", 50)], "Y" := [Alloc("qb", 60)]])

  lemma NamesDiffer()
    ensures "a" != "b" && "A" != "B" && "X" != "Y" && "qa" != "qb"
  {
    assert "a"[0] != "b"[0] && "A"[0] != "B"[0] && "X"[0] != "Y"[0] && "qa"[1] != "qb"[1];
  }

  lemma BothRowsAreDue()
    ensures Valid(StaleBooks)
    ensures OwnAlloc(StaleBooks, RowA) == Some(500) && OwnAlloc(StaleBooks, RowB) == Some(60)
    ensures Due(StaleBooks, RowA) && Due(StaleBooks, RowB)
    ensures PidOf(StaleBooks, RowA) == "X" && PidOf(StaleBooks, RowB) == "Y"
  {
    NamesDiffer();
    assert RowA == StaleBooks.payments[0] && RowB == StaleBooks.payments[1];
  }

  /** Books on which a second run does insert: row "b" on invoice B is mapped to
      QB payment Y but references qb:X; resetting it takes away the only row that
      showed X's allocation to B, and row "a" is still above its invoice's total. */
  lemma StaleBooksExist()
    ensures Valid(StaleBooks) && Stale(StaleBooks)
  {
    NamesDiffer();
    BothRowsAreDue();
    var a := Alloc("qb", 50);
    assert StaleBooks.qb["X"][1] == a;
    assert LooksAgain(StaleBooks, RowA, a, "B", 50, "X");
    LiveRowHasRef(StaleBooks.payments, RowB, "X");
    assert LosesItsRow(StaleBooks, "B", "X");
  }

  // ---------------------------------------------------------------------
  // Exact allocation
  // ---------------------------------------------------------------------

  /** The index and the invoice map say the same, and every live invoice is found. */
  ghost predicate IndexIsInverse(b: Books) {
    && (forall q :: q in b.index ==> b.index[q] in b.invMap && b.invMap[b.index[q]] == q)
    && (forall i :: i in b.invMap && i in b.invoices && !b.invoices[i].deleted ==>
          b.invMap[i] in b.index && b.index[b.invMap[i]] == i)
  }

  predicate TiedTo(b: Books, p: Payment, pid: QbPid) {
    !p.voided && ((p.id in b.payMap && b.payMap[p.id] == pid) || p.reference == Ref(pid))
  }

  /** `p` is the only live row of its QB payment, and QB's invoices are all known. */
  ghost predicate LoneSplit(b: Books, p: Payment) {
    && Due(b, p) && IndexIsInverse(b)
    && (forall q :: q in b.payments && TiedTo(b, q, PidOf(b, p)) ==> q == p)
    && (forall a :: a in b.qb[PidOf(b, p)] ==> a.qbInv in b.index)
    && b.invMap[p.invoice] in b.index && b.index[b.invMap[p.invoice]] == p.invoice
  }

  lemma {:induction false} AllocOfIs(allocs: seq<Alloc>, q: QbInv)
    ensures AllocOf(allocs, q).Some? ==> Alloc(q, AllocOf(allocs, q).value) in allocs
    ensures OneEntryEach(allocs) ==> forall a :: a in allocs && a.qbInv == q ==> AllocOf(allocs, q) == Some(a.amount)
  {
    if allocs != [] {
      AllocOfIs(allocs[1..], q);
      assert forall a :: a in allocs <==> a == allocs[0] || a in allocs[1..];
      if OneEntryEach(allocs) && allocs[0].qbInv == q {
        forall a | a in allocs[1..] ensures a.qbInv != q {
          var k :| 0 <= k < |allocs[1..]| && allocs[1..][k] == a;
          assert allocs[k + 1] == a;
        }
      }
    }
  }

  /** A row shows one of the QB payment's allocations at its amount. */
  ghost predicate ShowsAlloc(b: Books, x: Payment, a: Alloc, pid: QbPid) {
    pid in b.qb && a in b.qb[pid] && a.qbInv in b.index && x.invoice == b.index[a.qbInv] && x.amount == a.amount
  }

  lemma LoneInsertShows(b: Books, p: Payment, i: Insert) returns (a: Alloc)
    requires Valid(b) && LoneSplit(b, p)
    requires Wanted(b, i.invoice, i.amount, i.pid) && i.pid == PidOf(b, p)
    ensures a in b.qb[i.pid] && a.qbInv in b.index && i.invoice == b.index[a.qbInv] && i.amount == a.amount
    ensures i.invoice != p.invoice
  {
    var pid := PidOf(b, p);
    if q, s :| Over(b, q) && SiblingOf(b, q, s, i.invoice, i.amount, i.pid) {
      assert TiedTo(b, q, pid);
      a := s;
    } else {
      AllocOfIs(b.qb[pid], b.invMap[i.invoice]);
      a := Alloc(b.invMap[i.invoice], i.amount);
    }
  }

  /** Every live row tied to the payment afterwards shows one of QB's allocations. */
  lemma TiedRowsShow(b: Books, r: Read, ids: seq<PayId>, p: Payment, x: Payment) returns (a: Alloc)
    requires Valid(b) && IsRead(b, r) && FreshIds(b, PlanOf(b, r).inserts, ids) && LoneSplit(b, p)
    requires x in After(b, r, ids).payments && TiedTo(b, x, PidOf(b, p))
    ensures ShowsAlloc(b, x, a, PidOf(b, p)) && x.reference == Ref(PidOf(b, p))
  {
    var pid := PidOf(b, p);
    PlanFacts(b, r);
    var fromOld, q, k := RowOrigin(b, r, ids, x);
    if fromOld {
      OldTiedRowIsP(b, p, q);
      AllocOfIs(b.qb[pid], b.invMap[p.invoice]);
      a := Alloc(b.invMap[p.invoice], OwnAlloc(b, p).value);
    } else {
      var i := PlanOf(b, r).inserts[k];
      assert i in PlanOf(b, r).inserts && ids[k] in ids;
      RefIsInjective(i.pid, pid);
      a := LoneInsertShows(b, p, i);
    }
  }

  lemma OldTiedRowIsP(b: Books, p: Payment, q: Payment)
    requires Valid(b) && LoneSplit(b, p) && q in b.payments && TiedTo(b, Repaired(b, q), PidOf(b, p))
    ensures q == p
  {
    if Due(b, q) && Ref(PidOf(b, q)) == Ref(PidOf(b, p)) {
      RefIsInjective(PidOf(b, q), PidOf(b, p));
    }
  }

  /** An inserted row tied to the payment was planned for it. */
  lemma InsertedFor(b: Books, r: Read, ids: seq<PayId>, pid: QbPid, k: nat)
    requires Valid(b) && IsRead(b, r) && FreshIds(b, PlanOf(b, r).inserts, ids)
    requires k < |PlanOf(b, r).inserts| && TiedTo(b, InsertedRow(PlanOf(b, r).inserts[k], ids[k]), pid)
    ensures var i := PlanOf(b, r).inserts[k]; i.pid == pid && Wanted(b, i.invoice, i.amount, i.pid)
  {
    var i := PlanOf(b, r).inserts[k];
    PlanFacts(b, r);
    assert i in PlanOf(b, r).inserts && ids[k] in ids;
    RefIsInjective(i.pid, pid);
  }

  /** No two rows of the repaired payment sit on the same invoice. */
  lemma OneRowPerInvoice(b: Books, r: Read, ids: seq<PayId>, p: Payment, m: nat, n: nat)
    requires Valid(b) && IsRead(b, r) && FreshIds(b, PlanOf(b, r).inserts, ids) && LoneSplit(b, p)
    requires m < n < |After(b, r, ids).payments|
    requires TiedTo(b, After(b, r, ids).payments[m], PidOf(b, p))
    requires TiedTo(b, After(b, r, ids).payments[n], PidOf(b, p))
    ensures After(b, r, ids).payments[m].invoice != After(b, r, ids).payments[n].invoice
  {
    var size := |b.payments|;
    AfterAt(b, r, ids, m);
    AfterAt(b, r, ids, n);
    assert n < size ==> b.payments[m].id != b.payments[n].id;
    if n < size {
      OldTiedRowIsP(b, p, b.payments[m]);
      OldTiedRowIsP(b, p, b.payments[n]);
    } else if m < size {
      OldTiedRowIsP(b, p, b.payments[m]);
      OwnAndInserted(b, r, ids, p, n - size);
    } else {
      TwoInserted(b, r, ids, PidOf(b, p), m - size, n - size);
    }
  }

  lemma OwnAndInserted(b: Books, r: Read, ids: seq<PayId>, p: Payment, k: nat)
    requires Valid(b) && IsRead(b, r) && FreshIds(b, PlanOf(b, r).inserts, ids) && LoneSplit(b, p)
    requires k < |PlanOf(b, r).inserts| && TiedTo(b, InsertedRow(PlanOf(b, r).inserts[k], ids[k]), PidOf(b, p))
    ensures PlanOf(b, r).inserts[k].invoice != p.invoice
  {
    InsertedFor(b, r, ids, PidOf(b, p), k);
    var a := LoneInsertShows(b, p, PlanOf(b, r).inserts[k]);
  }

  lemma TwoInserted(b: Books, r: Read, ids: seq<PayId>, pid: QbPid, j: nat, k: nat)
    requires Valid(b) && IsRead(b, r) && FreshIds(b, PlanOf(b, r).inserts, ids)
    requires j < k < |PlanOf(b, r).inserts|
    requires TiedTo(b, InsertedRow(PlanOf(b, r).inserts[j], ids[j]), pid)
    requires TiedTo(b, InsertedRow(PlanOf(b, r).inserts[k], ids[k]), pid)
    ensures PlanOf(b, r).inserts[j].invoice != PlanOf(b, r).inserts[k].invoice
  {
    InsertedFor(b, r, ids, pid, j);
    InsertedFor(b, r, ids, pid, k);
    InsertsDiffer(b, r, j, k);
  }

  lemma InsertsDiffer(b: Books, r: Read, j: nat, k: nat)
    requires Valid(b) && IsRead(b, r) && j < k < |PlanOf(b, r).inserts|
    ensures PairOf(PlanOf(b, r).inserts[j]) != PairOf(PlanOf(b, r).inserts[k])
    ensures PairOf(PlanOf(b, r).inserts[j]) !in Refs(b.payments)
  {
    PlanFacts(b, r);
    assert PlanOf(b, r).inserts[j] in PlanOf(b, r).inserts;
  }

  /** Every allocation gets its row. */
  lemma EveryAllocHasARow(b: Books, r: Read, ids: seq<PayId>, p: Payment, a: Alloc) returns (x: Payment)
    requires Valid(b) && IsRead(b, r) && FreshIds(b, PlanOf(b, r).inserts, ids) && LoneSplit(b, p)
    requires a in b.qb[PidOf(b, p)]
    ensures x in After(b, r, ids).payments && TiedTo(b, x, PidOf(b, p))
    ensures ShowsAlloc(b, x, a, PidOf(b, p))
  {
    var pid := PidOf(b, p);
    AfterRows(b, r, ids);
    AllocOfIs(b.qb[pid], a.qbInv);
    if a.qbInv == b.invMap[p.invoice] {
      x := Repaired(b, p);
    } else {
      var i := SiblingIsInserted(b, r, p, a);
      var k: nat :| k < |PlanOf(b, r).inserts| && PlanOf(b, r).inserts[k] == i;
      x := InsertedRow(i, ids[k]);
    }
  }

  lemma SiblingIsInserted(b: Books, r: Read, p: Payment, a: Alloc) returns (i: Insert)
    requires Valid(b) && IsRead(b, r) && LoneSplit(b, p)
    requires a in b.qb[PidOf(b, p)] && a.qbInv != b.invMap[p.invoice]
    ensures i in PlanOf(b, r).inserts && i.invoice == b.index[a.qbInv] && i.amount == a.amount && i.pid == PidOf(b, p)
  {
    var pid := PidOf(b, p);
    var inv := b.index[a.qbInv];
    assert SiblingOf(b, p, a, inv, a.amount, pid) && Wanted(b, inv, a.amount, pid);
    SiblingPairIsFree(b, p, inv, pid);
    NoResetOfASibling(b, r, p, inv);
    i := WantedPairIsInserted(b, r, inv, a.amount, pid);
    var a' := LoneInsertShows(b, p, i);
    AllocOfIs(b.qb[pid], a.qbInv);
    AllocOfIs(b.qb[pid], a'.qbInv);
  }

  lemma NoResetOfASibling(b: Books, r: Read, p: Payment, inv: InvId)
    requires Valid(b) && IsRead(b, r) && LoneSplit(b, p) && inv != p.invoice
    ensures forall y :: y in PlanOf(b, r).resets ==> ResetPair(y) != (inv, Ref(PidOf(b, p)))
  {
    PlanFacts(b, r);
    forall y | y in PlanOf(b, r).resets ensures ResetPair(y) != (inv, Ref(PidOf(b, p))) {
      assert DueReset(b, y);
      if Ref(y.pid) == Ref(PidOf(b, p)) {
        RefIsInjective(y.pid, PidOf(b, p));
        assert TiedTo(b, y.payment, PidOf(b, p));
      }
    }
  }

  lemma SiblingPairIsFree(b: Books, p: Payment, inv: InvId, pid: QbPid)
    requires LoneSplit(b, p) && pid == PidOf(b, p) && inv != p.invoice
    ensures (inv, Ref(pid)) !in Refs(b.payments)
  {
    forall q | q in b.payments && !q.voided && q.reference == Ref(pid) ensures q.invoice != inv {
      assert TiedTo(b, q, pid);
    }
  }

  /** For a QB payment whose only live row is one over-allocated mapped row, the
      repaired table has exactly one row per allocated invoice, at QB's amount. */
  lemma ExactAllocation(b: Books, r: Read, ids: seq<PayId>, p: Payment)
    requires Valid(b) && IsRead(b, r) && FreshIds(b, PlanOf(b, r).inserts, ids) && LoneSplit(b, p)
    ensures var rows := After(b, r, ids).payments; var pid := PidOf(b, p);
      && (forall a :: a in b.qb[pid] ==> exists x :: x in rows && TiedTo(b, x, pid) && ShowsAlloc(b, x, a, pid))
      && (forall x :: x in rows && TiedTo(b, x, pid) ==> exists a :: ShowsAlloc(b, x, a, pid))
      && (forall m: nat, n: nat :: m < n < |rows| && TiedTo(b, rows[m], pid) && TiedTo(b, rows[n], pid) ==>
            rows[m].invoice != rows[n].invoice)
  {
    var rows := After(b, r, ids).payments;
    var pid := PidOf(b, p);
    forall a | a in b.qb[pid] ensures exists x :: x in rows && TiedTo(b, x, pid) && ShowsAlloc(b, x, a, pid) {
      var x := EveryAllocHasARow(b, r, ids, p, a);
    }
    forall x | x in rows && TiedTo(b, x, pid) ensures exists a :: ShowsAlloc(b, x, a, pid) {
      var a := TiedRowsShow(b, r, ids, p, x);
    }
    forall m: nat, n: nat | m < n < |rows| && TiedTo(b, rows[m], pid) && TiedTo(b, rows[n], pid)
      ensures rows[m].invoice != rows[n].invoice
    {
      OneRowPerInvoice(b, r, ids, p, m, n);
    }
  }
}
