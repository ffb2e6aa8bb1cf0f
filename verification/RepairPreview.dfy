/**
 * The over-summed report: what the live rows tied to a QB payment add up to,
 * and the figure the report promises for after the plan.
 */
module RepairPreview {
  import opened Basics
  import opened PaymentRepair
  import opened RepairProofs
  import opened RepairResults

  function TiedAmount(b: Books, p: Payment, x: QbPid): int { if TiedTo(b, p, x) then p.amount else 0 }

  /** Sum of the rows tied to QB payment `x` by map or reference. */
  function LocalSum(b: Books, rows: seq<Payment>, x: QbPid): int {
    if rows == [] then 0 else TiedAmount(b, rows[0], x) + LocalSum(b, rows[1..], x)
  }

  function ShedBy(r: Reset, x: QbPid): int { if r.pid == x then r.payment.amount - r.newAmount else 0 }

  function Shed(resets: seq<Reset>, x: QbPid): int {
    if resets == [] then 0 else ShedBy(resets[0], x) + Shed(resets[1..], x)
  }

  function Added(inserts: seq<Insert>, x: QbPid): int {
    if inserts == [] then 0 else (if inserts[0].pid == x then inserts[0].amount else 0) + Added(inserts[1..], x)
  }

  function Applied(allocs: seq<Alloc>): int { if allocs == [] then 0 else allocs[0].amount + Applied(allocs[1..]) }

  /** What QB applied is the sum of the payment's allocations. */
  lemma {:induction false} AppliedIsTheSum(allocs: seq<Alloc>)
    ensures Applied(allocs) == Sum(Map(allocs, (a: Alloc) => a.amount))
  {
    if allocs != [] {
      AppliedIsTheSum(allocs[1..]);
      assert Map(allocs, (a: Alloc) => a.amount)[1..] == Map(allocs[1..], (a: Alloc) => a.amount);
    }
  }

  /** `after_plan` */
  function Preview(b: Books, plan: Plan, x: QbPid): int {
    LocalSum(b, b.payments, x) - Shed(plan.resets, x) + Added(plan.inserts, x)
  }

  // ---------------------------------------------------------------------
  // The report as it is computed
  // ---------------------------------------------------------------------

  /** Some live row is tied to QB payment `x`. */
  ghost predicate HasRows(b: Books, rows: seq<Payment>, x: QbPid) { exists p :: p in rows && TiedTo(b, p, x) }

  /** The `groups` dictionary, reduced to its sums: every row counts once for each
      QB payment it is tied to. */
  method GroupSums(b: Books) returns (sums: map<QbPid, int>)
    ensures "" !in sums
    ensures forall x :: x in sums ==> sums[x] == LocalSum(b, b.payments, x)
    ensures forall x :: x != "" ==> (x in sums <==> HasRows(b, b.payments, x))
  {
    sums := map[];
    var k := |b.payments|;
    while k > 0
      invariant 0 <= k <= |b.payments| && "" !in sums
      invariant forall x :: x != "" ==> Grouped(b, b.payments[k..], sums, x)
    {
      k := k - 1;
      ghost var before := sums;
      var p := b.payments[k];
      assert b.payments[k..] == [p] + b.payments[k + 1..];
      if !p.voided {
        var mapId := if p.id in b.payMap then b.payMap[p.id] else "";
        var refId := if IsQbRef(p.reference) then p.reference[3..] else "";
        if mapId != "" {
          sums := sums[mapId := (if mapId in sums then sums[mapId] else 0) + p.amount];
        }
        if refId != "" && refId != mapId {
          sums := sums[refId := (if refId in sums then sums[refId] else 0) + p.amount];
        }
      }
      forall x | x != "" ensures Grouped(b, b.payments[k..], sums, x) {
        RefIdIs(p.reference);
        GroupedStep(b, p, b.payments[k + 1..], before, sums, x);
      }
    }
    assert b.payments[0..] == b.payments;
    forall x | x != ""
      ensures x in sums ==> sums[x] == LocalSum(b, b.payments, x)
      ensures x in sums <==> HasRows(b, b.payments, x)
    {
      assert Grouped(b, b.payments, sums, x);
    }
  }

  /** One id's entry is the sum of its rows, and is there if it has any. */
  ghost predicate Grouped(b: Books, rows: seq<Payment>, sums: map<QbPid, int>, x: QbPid) {
    if HasRows(b, rows, x) then x in sums && sums[x] == LocalSum(b, rows, x) else x !in sums
  }

  lemma GroupedStep(b: Books, p: Payment, rows: seq<Payment>, before: map<QbPid, int>, sums: map<QbPid, int>, x: QbPid)
    requires Grouped(b, rows, before, x)
    requires if TiedTo(b, p, x) then x in sums && sums[x] == (if x in before then before[x] else 0) + p.amount
             else (x in sums <==> x in before) && (x in sums ==> sums[x] == before[x])
    ensures Grouped(b, [p] + rows, sums, x)
  {
    assert ([p] + rows)[1..] == rows;
    assert p in [p] + rows && forall q :: q in rows ==> q in [p] + rows;
    if !HasRows(b, rows, x) {
      NoRowsNoSum(b, rows, x);
    }
  }

  lemma {:induction false} NoRowsNoSum(b: Books, rows: seq<Payment>, x: QbPid)
    requires !HasRows(b, rows, x)
    ensures LocalSum(b, rows, x) == 0
  {
    if rows != [] {
      assert rows[0] in rows && forall q :: q in rows[1..] ==> q in rows;
      NoRowsNoSum(b, rows[1..], x);
    }
  }

  lemma RefIdIs(reference: string)
    ensures forall x: QbPid :: reference == Ref(x) <==> IsQbRef(reference) && reference[3..] == x
  {
    forall x: QbPid ensures reference == Ref(x) <==> IsQbRef(reference) && reference[3..] == x {
      if reference == Ref(x) {
        RefIsQb(x);
        assert Ref(x)[3..] == x;
      }
    }
  }

  datatype OverSummed = OverSummed(pid: QbPid, applied: int, localSum: int, afterPlan: int)

  /** Python's order on strings. */
  predicate Less(a: string, b: string) {
    b != "" && (a == "" || a[0] < b[0] || (a[0] == b[0] && Less(a[1..], b[1..])))
  }

  lemma {:induction false} LessIsTotal(a: string, b: string)
    ensures a == b || Less(a, b) || Less(b, a)
  {
    if a != "" && b != "" && a[0] == b[0] {
      LessIsTotal(a[1..], b[1..]);
      assert a == [a[0]] + a[1..] && b == [b[0]] + b[1..];
    }
  }

  lemma {:induction false} LessIsTransitive(a: string, b: string, c: string)
    requires Less(a, b) && Less(b, c)
    ensures Less(a, c)
  {
    if a != "" && a[0] == b[0] == c[0] {
      LessIsTransitive(a[1..], b[1..], c[1..]);
    }
  }

  ghost predicate IsLeast(ids: set<QbPid>, x: QbPid) { x in ids && forall y :: y in ids ==> y == x || Less(x, y) }

  lemma {:induction false} LeastExists(ids: set<QbPid>) returns (x: QbPid)
    requires ids != {}
    ensures IsLeast(ids, x)
  {
    var y :| y in ids;
    x := y;
    if ids != {y} {
      assert ids == (ids - {y}) + {y};
      var z := LeastExists(ids - {y});
      LessIsTotal(y, z);
      x := if Less(y, z) then y else z;
      forall w | w in ids ensures w == x || Less(x, w) {
        if Less(y, z) && w != y && w != z {
          LessIsTransitive(y, z, w);
        }
      }
    }
  }

  ghost predicate Ascending(ids: seq<QbPid>) { forall j: nat, k: nat :: j < k < |ids| ==> Less(ids[j], ids[k]) }

  /** `sorted` on a dictionary's keys. */
  method SortedIds(ids: set<QbPid>) returns (sorted: seq<QbPid>)
    ensures Ascending(sorted) && forall x :: x in sorted <==> x in ids
  {
    sorted := [];
    var left := ids;
    while left != {}
      invariant left <= ids && Ascending(sorted)
      invariant forall x :: x in sorted <==> x in ids && x !in left
      invariant forall x, y :: x in sorted && y in left ==> Less(x, y)
      decreases left
    {
      var least := LeastExists(left);
      var x :| x in left && forall y :: y in left ==> y == x || Less(x, y);
      sorted := sorted + [x];
      left := left - {x};
    }
  }

  /** Reported: QB knows the payment, and its rows exceed its allocations by more than a cent. */
  predicate IsOverSummed(b: Books, x: QbPid) {
    x in b.qb && LocalSum(b, b.payments, x) > Applied(b.qb[x]) + 1
  }

  function ReportFor(b: Books, plan: Plan, x: QbPid): OverSummed
    requires x in b.qb
  {
    OverSummed(x, Applied(b.qb[x]), LocalSum(b, b.payments, x), Preview(b, plan, x))
  }

  function ReportsOf(b: Books, plan: Plan, ids: seq<QbPid>): seq<OverSummed> {
    if ids == [] then []
    else
      var x := ids[|ids| - 1];
      ReportsOf(b, plan, ids[..|ids| - 1]) + if IsOverSummed(b, x) then [ReportFor(b, plan, x)] else []
  }

  /** The reports over ascending ids: one for each over-summed payment among them, ascending. */
  lemma {:induction false} ReportsOfAre(b: Books, plan: Plan, ids: seq<QbPid>)
    requires Ascending(ids)
    ensures forall o :: o in ReportsOf(b, plan, ids) <==>
      o.pid in ids && IsOverSummed(b, o.pid) && o == ReportFor(b, plan, o.pid)
    ensures forall j: nat, k: nat :: j < k < |ReportsOf(b, plan, ids)| ==>
      Less(ReportsOf(b, plan, ids)[j].pid, ReportsOf(b, plan, ids)[k].pid)
  {
    if ids != [] {
      var n := |ids| - 1;
      ReportsOfAre(b, plan, ids[..n]);
      assert ids == ids[..n] + [ids[n]];
      forall o | o in ReportsOf(b, plan, ids[..n]) ensures Less(o.pid, ids[n]) {
        var k: nat :| k < n && ids[..n][k] == o.pid;
      }
      var before := ReportsOf(b, plan, ids[..n]);
      assert forall j: nat :: j < |before| ==> before[j] in before;
    }
  }

  /** `_detect_over_summed`: one report for each over-summed payment that has rows, in
      the order of their ids. */
  method DetectOverSummed(b: Books, plan: Plan) returns (reports: seq<OverSummed>)
    ensures forall o :: o in reports <==>
      o.pid != "" && HasRows(b, b.payments, o.pid) && IsOverSummed(b, o.pid) && o == ReportFor(b, plan, o.pid)
    ensures forall o :: o in reports ==> o.pid in b.qb && o.localSum > o.applied + 1
    ensures forall j: nat, k: nat :: j < k < |reports| ==> Less(reports[j].pid, reports[k].pid)
  {
    var sums := GroupSums(b);
    var ids := SortedIds(sums.Keys);
    reports := [];
    for k := 0 to |ids|
      invariant reports == ReportsOf(b, plan, ids[..k])
    {
      var x := ids[k];
      assert ids[..k + 1][..k] == ids[..k] && x in ids;
      if x in b.qb && sums[x] > Applied(b.qb[x]) + 1 {
        var after := sums[x] - Shed(plan.resets, x) + Added(plan.inserts, x);
        reports := reports + [OverSummed(x, Applied(b.qb[x]), sums[x], after)];
      }
    }
    assert ids[..|ids|] == ids;
    ReportsOfAre(b, plan, ids);
  }

  // ---------------------------------------------------------------------
  // Is the preview true?
  // ---------------------------------------------------------------------

  function ShedRow(b: Books, p: Payment, x: QbPid): int {
    if Due(b, p) && PidOf(b, p) == x then p.amount - OwnAlloc(b, p).value else 0
  }

  function ShedRows(b: Books, rows: seq<Payment>, x: QbPid): int {
    if rows == [] then 0 else ShedRow(b, rows[0], x) + ShedRows(b, rows[1..], x)
  }

  /** A row that references `x` and is about to be given another payment's reference. */
  function MovedRow(b: Books, p: Payment, x: QbPid): int {
    if Due(b, p) && PidOf(b, p) != x && p.reference == Ref(x) then p.amount else 0
  }

  function Moved(b: Books, rows: seq<Payment>, x: QbPid): int {
    if rows == [] then 0 else MovedRow(b, rows[0], x) + Moved(b, rows[1..], x)
  }

  lemma RepairedRowSum(b: Books, p: Payment, x: QbPid)
    ensures TiedAmount(b, Repaired(b, p), x) == TiedAmount(b, p, x) - ShedRow(b, p, x) - MovedRow(b, p, x)
  {
    if Due(b, p) && Ref(PidOf(b, p)) == Ref(x) {
      RefIsInjective(PidOf(b, p), x);
    }
  }

  lemma {:induction false} RepairedSum(b: Books, rows: seq<Payment>, x: QbPid)
    ensures LocalSum(b, Map(rows, p => Repaired(b, p)), x)
         == LocalSum(b, rows, x) - ShedRows(b, rows, x) - Moved(b, rows, x)
  {
    if rows != [] {
      RepairedRowSum(b, rows[0], x);
      RepairedSum(b, rows[1..], x);
      assert Map(rows, p => Repaired(b, p))[1..] == Map(rows[1..], p => Repaired(b, p));
    }
  }

  lemma {:induction false} InsertedSum(b: Books, inserts: seq<Insert>, ids: seq<PayId>, x: QbPid)
    requires |ids| == |inserts| && forall id :: id in ids ==> id !in b.payMap
    ensures LocalSum(b, InsertedRows(inserts, ids), x) == Added(inserts, x)
  {
    if inserts != [] {
      assert ids[0] in ids;
      assert forall id :: id in ids[1..] ==> id in ids;
      InsertedSum(b, inserts[1..], ids[1..], x);
      assert InsertedRows(inserts, ids)[1..] == InsertedRows(inserts[1..], ids[1..]);
      if Ref(inserts[0].pid) == Ref(x) {
        RefIsInjective(inserts[0].pid, x);
      }
    }
  }

  lemma {:induction false} LocalSumConcat(b: Books, s: seq<Payment>, t: seq<Payment>, x: QbPid)
    ensures LocalSum(b, s + t, x) == LocalSum(b, s, x) + LocalSum(b, t, x)
  {
    if s == [] {
      assert s + t == t;
    } else {
      assert (s + t)[1..] == s[1..] + t;
      LocalSumConcat(b, s[1..], t, x);
    }
  }

  // The planner's resets are the due rows, once each, in the query's order.

  function ResetsIn(actions: seq<Action>): seq<Reset> {
    if actions == [] then []
    else (if actions[0].DoReset? then [Reset(actions[0].payment, actions[0].amount, actions[0].pid)] else [])
         + ResetsIn(actions[1..])
  }

  lemma {:induction false} ResetsInConcat(s: seq<Action>, t: seq<Action>)
    ensures ResetsIn(s + t) == ResetsIn(s) + ResetsIn(t)
  {
    if s == [] {
      assert s + t == t;
    } else {
      assert (s + t)[0] == s[0] && (s + t)[1..] == s[1..] + t;
      ResetsInConcat(s[1..], t);
      var mine := if s[0].DoReset? then [Reset(s[0].payment, s[0].amount, s[0].pid)] else [];
      assert mine + (ResetsIn(s[1..]) + ResetsIn(t)) == mine + ResetsIn(s[1..]) + ResetsIn(t);
    }
  }

  lemma {:induction false} ResetsAre(b: Books, plan: Plan, actions: seq<Action>)
    ensures ActAll(b, plan, actions).resets == plan.resets + ResetsIn(actions)
    decreases |actions|
  {
    if actions != [] {
      var next := Act(b, plan, actions[0]);
      var mine := if actions[0].DoReset? then [Reset(actions[0].payment, actions[0].amount, actions[0].pid)] else [];
      ResetsAre(b, next, actions[1..]);
      assert next.resets == plan.resets + mine;
      assert plan.resets + mine + ResetsIn(actions[1..]) == plan.resets + (mine + ResetsIn(actions[1..]));
    }
  }

  lemma {:induction false} OnlyWants(actions: seq<Action>)
    requires forall a :: a in actions ==> a.Want?
    ensures ResetsIn(actions) == []
  {
    if actions != [] {
      assert actions[0] in actions;
      OnlyWants(actions[1..]);
    }
  }

  lemma RowResets(b: Books, p: Payment)
    ensures ResetsIn(RowActions(b, p)) ==
      if Resettable(b, p) then [Reset(p, OwnAlloc(b, p).value, PidOf(b, p))] else []
  {
    if Resettable(b, p) {
      var wants := SiblingWants(b, PidOf(b, p), b.invMap[p.invoice], b.qb[PidOf(b, p)]);
      forall a | a in wants ensures a.Want? {
        SiblingWantsAre(b, PidOf(b, p), b.invMap[p.invoice], b.qb[PidOf(b, p)], a);
      }
      OnlyWants(wants);
      var first := DoReset(p, OwnAlloc(b, p).value, PidOf(b, p));
      assert ([first] + wants)[1..] == wants;
    }
  }

  lemma {:induction false} ShedConcat(s: seq<Reset>, t: seq<Reset>, x: QbPid)
    ensures Shed(s + t, x) == Shed(s, x) + Shed(t, x)
  {
    if s == [] {
      assert s + t == t;
    } else {
      assert (s + t)[1..] == s[1..] + t;
      ShedConcat(s[1..], t, x);
    }
  }

  lemma {:induction false} SplitShed(b: Books, over: seq<Payment>, x: QbPid)
    requires forall p :: p in over ==> Over(b, p)
    ensures Shed(ResetsIn(SplitActions(b, over)), x) == ShedRows(b, over, x)
  {
    if over != [] {
      var p := over[0];
      assert p in over;
      assert forall q :: q in over[1..] ==> q in over;
      SplitShed(b, over[1..], x);
      ResetsInConcat(RowActions(b, p), SplitActions(b, over[1..]));
      RowResets(b, p);
      ShedConcat(ResetsIn(RowActions(b, p)), ResetsIn(SplitActions(b, over[1..])), x);
      OneReset(b, p, x);
    }
  }

  lemma OneReset(b: Books, p: Payment, x: QbPid)
    requires Over(b, p)
    ensures Shed(if Resettable(b, p) then [Reset(p, OwnAlloc(b, p).value, PidOf(b, p))] else [], x) == ShedRow(b, p, x)
  {
    if Resettable(b, p) {
      var r := Reset(p, OwnAlloc(b, p).value, PidOf(b, p));
      assert [r][1..] == [];
    }
  }

  lemma {:induction false} ShedRemove(b: Books, rows: seq<Payment>, k: nat, x: QbPid)
    requires k < |rows|
    ensures ShedRows(b, rows, x) == ShedRow(b, rows[k], x) + ShedRows(b, rows[..k] + rows[k + 1..], x)
  {
    if k == 0 {
      assert rows[..0] + rows[1..] == rows[1..];
    } else {
      ShedRemove(b, rows[1..], k - 1, x);
      assert (rows[..k] + rows[k + 1..])[1..] == rows[1..][..k - 1] + rows[1..][k..];
      assert (rows[..k] + rows[k + 1..])[0] == rows[0];
    }
  }

  lemma {:induction false} ShedNothing(b: Books, rows: seq<Payment>, x: QbPid)
    requires forall p :: p in rows ==> ShedRow(b, p, x) == 0
    ensures ShedRows(b, rows, x) == 0
  {
    if rows != [] {
      assert rows[0] in rows;
      ShedNothing(b, rows[1..], x);
    }
  }

  function Without(rows: seq<Payment>, k: nat): seq<Payment>
    requires k < |rows|
  {
    rows[..k] + rows[k + 1..]
  }

  lemma WithoutIs(rows: seq<Payment>, k: nat)
    requires k < |rows| && Distinct(rows)
    ensures Distinct(Without(rows, k))
    ensures forall q :: q in Without(rows, k) ==> q in rows && q != rows[k]
  {
    var rest := Without(rows, k);
    forall i: nat | i < |rest| ensures rest[i] == rows[if i < k then i else i + 1] {
    }
  }

  lemma WithoutKeeps(rows: seq<Payment>, k: nat, q: Payment)
    requires k < |rows| && q in rows && q != rows[k]
    ensures q in Without(rows, k)
  {
    var m: nat :| m < |rows| && rows[m] == q;
    assert Without(rows, k)[if m < k then m else m - 1] == q;
  }

  /** Only the over-allocated rows shed anything, and each is read once. */
  lemma {:induction false} ShedSame(b: Books, over: seq<Payment>, rows: seq<Payment>, x: QbPid)
    requires Distinct(over) && Distinct(rows)
    requires forall p :: p in over ==> p in rows
    requires forall p :: p in rows && p !in over ==> ShedRow(b, p, x) == 0
    ensures ShedRows(b, over, x) == ShedRows(b, rows, x)
    decreases |over|
  {
    if over == [] {
      ShedNothing(b, rows, x);
    } else {
      assert over[0] in over;
      var k: nat :| k < |rows| && rows[k] == over[0];
      var rest := Without(rows, k);
      ShedRemove(b, rows, k, x);
      WithoutIs(rows, k);
      forall q | q in over[1..] ensures q in rest {
        WithoutKeeps(rows, k, q);
      }
      forall q | q in rest && q !in over[1..] ensures ShedRow(b, q, x) == 0 {
        assert q !in over;
      }
      ShedSame(b, over[1..], rest, x);
    }
  }

  lemma PlannedShed(b: Books, r: Read, x: QbPid)
    requires Valid(b) && IsRead(b, r)
    ensures Shed(PlanOf(b, r).resets, x) == ShedRows(b, b.payments, x)
  {
    var splits, backfills := SplitActions(b, r.over), BackfillActions(b, r.missing);
    ResetsAre(b, NoPlan, Actions(b, r));
    ResetsInConcat(splits, backfills);
    forall a | a in backfills ensures a.Want? {
      BackfillActionsAre(b, r.missing, a);
    }
    OnlyWants(backfills);
    assert [] + (ResetsIn(splits) + []) == ResetsIn(splits);
    SplitShed(b, r.over, x);
    assert Distinct(b.payments);
    ShedSame(b, r.over, b.payments, x);
  }

  /** The rows tied to a QB payment add up, after the plan is applied, to the
      previewed figure less what was moved to another payment's reference: so the
      preview is right exactly when those moved rows add up to nothing. */
  lemma PreviewIsTrueIff(b: Books, r: Read, ids: seq<PayId>, x: QbPid)
    requires Valid(b) && IsRead(b, r) && FreshIds(b, PlanOf(b, r).inserts, ids)
    ensures LocalSum(b, After(b, r, ids).payments, x) == Preview(b, PlanOf(b, r), x) - Moved(b, b.payments, x)
    ensures LocalSum(b, After(b, r, ids).payments, x) == Preview(b, PlanOf(b, r), x) <==> Moved(b, b.payments, x) == 0
  {
    var inserts := PlanOf(b, r).inserts;
    AfterRows(b, r, ids);
    RepairedSum(b, b.payments, x);
    InsertedSum(b, inserts, ids, x);
    LocalSumConcat(b, Map(b.payments, p => Repaired(b, p)), InsertedRows(inserts, ids), x);
    PlannedShed(b, r, x);
  }

  /** Where map and reference agree nothing moves, so the preview is right. */
  lemma {:induction false} AgreeingLinksMoveNothing(b: Books, rows: seq<Payment>, x: QbPid)
    requires LinksAgree(b) && forall p :: p in rows ==> p in b.payments
    ensures Moved(b, rows, x) == 0
  {
    if rows != [] {
      var p := rows[0];
      assert p in rows;
      AgreeingLinksMoveNothing(b, rows[1..], x);
      RefIsQb(x);
      if Due(b, p) && p.reference == Ref(x) {
        RefIsInjective(PidOf(b, p), x);
      }
    }
  }

  /** Books on which the preview is wrong: whatever was read and inserted, the row that
      is moved from X's reference to Y's leaves X's rows 900 below the preview. */
  lemma MovedRowsBreakThePreview(r: Read, ids: seq<PayId>)
    requires IsRead(StaleBooks, r) && FreshIds(StaleBooks, PlanOf(StaleBooks, r).inserts, ids)
    ensures LocalSum(StaleBooks, After(StaleBooks, r, ids).payments, "X")
         == Preview(StaleBooks, PlanOf(StaleBooks, r), "X") - 900
  {
    BothRowsAreDue();
    PreviewIsTrueIff(StaleBooks, r, ids, "X");
    RowBMoves();
  }

  lemma RowBMoves()
    ensures Moved(StaleBooks, StaleBooks.payments, "X") == 900
  {
    BothRowsAreDue();
    NamesDiffer();
    assert MovedRow(StaleBooks, RowA, "X") == 0;
    assert MovedRow(StaleBooks, RowB, "X") == 900;
    TwoMoved(StaleBooks, RowA, RowB, "X");
  }

  lemma TwoMoved(b: Books, p: Payment, q: Payment, x: QbPid)
    ensures Moved(b, [p, q], x) == MovedRow(b, p, x) + MovedRow(b, q, x)
  {
    assert [p, q][1..] == [q] && [q][1..] == [];
    assert Moved(b, [q], x) == MovedRow(b, q, x) + Moved(b, [], x);
  }
}
