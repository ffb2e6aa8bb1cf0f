/**
 * Many transactions append to one audit chain: begin, append (taking the tip
 * lock, held to the end), write rows outside the chain, roll back to a
 * savepoint, commit, roll back, interleaved in any way and with any clocks.
 */
module AuditRuns {
  import opened Basics
  import opened AuditChain
  import opened AuditShape

  type TxnId = nat

  /** `open`: each open transaction's own uncommitted rows. */
  datatype State = State(committed: seq<Row>, open: map<TxnId, seq<Row>>, lock: Option<TxnId>)

  datatype Step =
    | Begin(t: TxnId)
    | Append(t: TxnId, e: Event, id: nat, clock: int)
    | AppendUnchained(t: TxnId, row: Row)
    | RollbackTo(t: TxnId, mark: nat, keepsLock: bool)
    | Commit(t: TxnId)
    | Rollback(t: TxnId)

  predicate Plain(r: Row) { r.rowHash == Empty ==> r.legacyHash == Empty }

  function Freed(s: State, t: TxnId): Option<TxnId> { if s.lock == Some(t) then None else s.lock }

  predicate Enabled(s: State, step: Step) {
    match step
    case Begin(t) => t !in s.open
    case Append(t, _, _, _) => t in s.open && (s.lock.None? || s.lock == Some(t))
    case AppendUnchained(t, row) => t in s.open && !IsChained(row) && Plain(row)
    case RollbackTo(t, mark, keepsLock) =>
      // a lock taken before the savepoint survives it; one taken after may not
      t in s.open && mark <= |s.open[t]| && (Chained(s.open[t][..mark]) != [] ==> keepsLock)
    case Commit(t) => t in s.open
    case Rollback(t) => t in s.open
  }

  function Next(s: State, step: Step): State {
    if !Enabled(s, step) then s else
    match step
    case Begin(t) => s.(open := s.open[t := []])
    case Append(t, e, id, clock) =>
      var row := NewRow(e, id, clock, Tip(s.committed + s.open[t]));
      s.(open := s.open[t := s.open[t] + [row]], lock := Some(t))
    case AppendUnchained(t, row) => s.(open := s.open[t := s.open[t] + [row]])
    case RollbackTo(t, mark, keepsLock) =>
      s.(open := s.open[t := s.open[t][..mark]], lock := if keepsLock then s.lock else Freed(s, t))
    case Commit(t) => State(s.committed + s.open[t], s.open - {t}, Freed(s, t))
    case Rollback(t) => State(s.committed, s.open - {t}, Freed(s, t))
  }

  function Exec(s: State, steps: seq<Step>): State
    decreases |steps|
  {
    if steps == [] then s else Exec(Next(s, steps[0]), steps[1..])
  }

  // ---------------------------------------------------------------------
  // A whole chain
  // ---------------------------------------------------------------------

  predicate LinksUp(c: seq<Row>, i: nat)
    requires i < |c|
  {
    && c[i].rowHash == Expected(c[i], c[i].prevHash)
    && c[i].prevHash == (if i == 0 then Empty else c[i - 1].rowHash)
    && (i > 0 ==> c[i - 1].at < c[i].at)
  }

  /** One chain from its start, in strictly increasing time. */
  ghost predicate IsWhole(c: seq<Row>) { forall i: nat :: i < |c| ==> LinksUp(c, i) }

  lemma {:induction false} TimeGoesOn(c: seq<Row>, i: nat, j: nat)
    requires IsWhole(c) && i < j < |c|
    ensures c[i].at < c[j].at
    decreases j
  {
    assert LinksUp(c, j);
    if i < j - 1 {
      TimeGoesOn(c, i, j - 1);
    }
  }

  lemma WholePrefix(c: seq<Row>, d: seq<Row>)
    requires IsWhole(c + d)
    ensures IsWhole(c)
  {
    forall i: nat | i < |c| ensures LinksUp(c, i) {
      assert LinksUp(c + d, i);
    }
  }

  lemma TipIsLast(rows: seq<Row>)
    requires IsWhole(Chained(rows))
    ensures var c := Chained(rows);
      Tip(rows) == if c == [] then None else Some(c[|c| - 1])
  {
    var c := Chained(rows);
    var tip := Tip(rows);
    if tip.None? {
      NoneLeft(rows, r => IsChained(r));
    } else {
      assert tip.value in c;
      var k: nat :| k < |c| && c[k] == tip.value;
      var last := |c| - 1;
      assert c[last] in c;
      if k < last {
        TimeGoesOn(c, k, last);
      }
    }
  }

  lemma NewRowBindsItsText(e: Event, id: nat, clock: int, tip: Option<Row>)
    ensures var r := NewRow(e, id, clock, tip);
      && r.rowHash == Expected(r, r.prevHash) && r.legacyHash == r.rowHash
      && r.prevHash == (if tip.Some? then tip.value.rowHash else Empty)
      && r.at >= clock && (tip.Some? ==> r.at > tip.value.at)
  {
  }

  /** Appending after the visible tip extends a whole chain, whatever the clock says. */
  lemma AppendExtends(rows: seq<Row>, e: Event, id: nat, clock: int)
    requires IsWhole(Chained(rows))
    ensures var r := NewRow(e, id, clock, Tip(rows));
      IsChained(r) && Plain(r) && IsWhole(Chained(rows) + [r])
  {
    var c := Chained(rows);
    var r := NewRow(e, id, clock, Tip(rows));
    TipIsLast(rows);
    NewRowBindsItsText(e, id, clock, Tip(rows));
    forall i: nat | i < |c + [r]| ensures LinksUp(c + [r], i) {
      assert i < |c| ==> LinksUp(c, i);
    }
  }

  // ---------------------------------------------------------------------
  // What every step keeps
  // ---------------------------------------------------------------------

  /** What the lock holder would commit; everyone else has no chained row. */
  function Held(s: State): seq<Row> {
    if s.lock.Some? && s.lock.value in s.open then Chained(s.open[s.lock.value]) else []
  }

  ghost predicate AllPlain(rows: seq<Row>) { forall r :: r in rows ==> Plain(r) }

  ghost predicate Safe(s: State) {
    && IsWhole(Chained(s.committed) + Held(s))
    && (forall t :: t in s.open && s.lock != Some(t) ==> Chained(s.open[t]) == [])
    && AllPlain(s.committed)
    && (forall t :: t in s.open ==> AllPlain(s.open[t]))
  }

  lemma ChainedTake(s: seq<Row>, mark: nat)
    requires mark <= |s|
    ensures Chained(s) == Chained(s[..mark]) + Chained(s[mark..])
  {
    assert s == s[..mark] + s[mark..];
    ChainedConcat(s[..mark], s[mark..]);
  }

  lemma AppendStep(s: State, step: Step)
    requires Safe(s) && step.Append? && Enabled(s, step)
    ensures Safe(Next(s, step))
  {
    var mine := s.open[step.t];
    var row := NewRow(step.e, step.id, step.clock, Tip(s.committed + mine));
    VisibleIsWhole(s, step.t);
    AppendExtends(s.committed + mine, step.e, step.id, step.clock);
    AddOne(mine, row);
    ChainedConcat(s.committed, mine);
    assert Chained(s.committed) + (Chained(mine) + [row]) == Chained(s.committed) + Chained(mine) + [row];
  }

  /** What the writer that gets the lock sees is one whole chain. */
  lemma VisibleIsWhole(s: State, t: TxnId)
    requires Safe(s) && t in s.open && (s.lock.None? || s.lock == Some(t))
    ensures IsWhole(Chained(s.committed + s.open[t]))
  {
    ChainedConcat(s.committed, s.open[t]);
    assert s.lock.None? ==> Chained(s.open[t]) == Held(s);
  }

  lemma AddOne(rows: seq<Row>, row: Row)
    requires AllPlain(rows) && Plain(row)
    ensures AllPlain(rows + [row])
    ensures Chained(rows + [row]) == if IsChained(row) then Chained(rows) + [row] else Chained(rows)
  {
    ChainedConcat(rows, [row]);
    ChainedOne(row);
  }

  lemma UnchainedStep(s: State, step: Step)
    requires Safe(s) && step.AppendUnchained? && Enabled(s, step)
    ensures Safe(Next(s, step))
  {
    AddOne(s.open[step.t], step.row);
    assert Held(Next(s, step)) == Held(s);
  }

  lemma RollbackToStep(s: State, step: Step)
    requires Safe(s) && step.RollbackTo? && Enabled(s, step)
    ensures Safe(Next(s, step))
  {
    var s' := Next(s, step);
    var mine := s.open[step.t];
    ChainedTake(mine, step.mark);
    if s.lock == Some(step.t) {
      WholeTake(Chained(s.committed), Chained(mine[..step.mark]), Chained(mine[step.mark..]));
    } else {
      assert Held(s') == Held(s);
    }
    assert AllPlain(mine[..step.mark]);
  }

  lemma WholeTake(c: seq<Row>, kept: seq<Row>, gone: seq<Row>)
    requires IsWhole(c + (kept + gone))
    ensures IsWhole(c + kept) && IsWhole(c + [])
  {
    assert c + (kept + gone) == c + kept + gone;
    WholePrefix(c + kept, gone);
    WholePrefix(c, kept);
    assert c + [] == c;
  }

  lemma EndStep(s: State, step: Step)
    requires Safe(s) && (step.Commit? || step.Rollback?) && Enabled(s, step)
    ensures Safe(Next(s, step))
  {
    var t := step.t;
    var c := Chained(s.committed);
    ChainedConcat(s.committed, s.open[t]);
    WholePrefix(c, Held(s));
    assert c + [] == c;
    assert s.lock == Some(t) ==> Held(s) == Chained(s.open[t]) && Chained(s.committed + s.open[t]) + [] == c + Held(s);
    assert s.lock != Some(t) ==> Held(Next(s, step)) == Held(s);
  }

  lemma StepKeepsSafe(s: State, step: Step)
    requires Safe(s)
    ensures Safe(Next(s, step))
  {
    if Enabled(s, step) {
      match step
      case Begin(t) =>
        assert Held(Next(s, step)) == Held(s) by { assert Chained([]) == []; }
      case Append(_, _, _, _) => AppendStep(s, step);
      case AppendUnchained(_, _) => UnchainedStep(s, step);
      case RollbackTo(_, _, _) => RollbackToStep(s, step);
      case _ => EndStep(s, step);
    }
  }

  lemma {:induction false} ExecKeepsSafe(s: State, steps: seq<Step>)
    requires Safe(s)
    ensures Safe(Exec(s, steps))
    decreases |steps|
  {
    if steps != [] {
      StepKeepsSafe(s, steps[0]);
      ExecKeepsSafe(Next(s, steps[0]), steps[1..]);
    }
  }

  // ---------------------------------------------------------------------
  // Main results
  // ---------------------------------------------------------------------

  /** A log with nothing in flight whose chained rows are one whole chain. */
  ghost predicate Settled(s: State) {
    s.open == map[] && s.lock.None? && IsWhole(Chained(s.committed)) && AllPlain(s.committed)
  }

  /** Whatever the interleaving and the clocks, the committed chained rows are
      one chain in commit order with strictly increasing times. */
  lemma CommittedRowsAreOneChain(s: State, steps: seq<Step>)
    requires Settled(s)
    ensures IsWhole(Chained(Exec(s, steps).committed))
  {
    assert Chained(s.committed) + [] == Chained(s.committed);
    ExecKeepsSafe(s, steps);
    var done := Exec(s, steps);
    WholePrefix(Chained(done.committed), Held(done));
  }

  /** Nothing committed is ever lost. */
  lemma {:induction false} CommittedRowsStay(s: State, steps: seq<Step>)
    ensures s.committed <= Exec(s, steps).committed
    decreases |steps|
  {
    if steps != [] {
      CommittedRowsStay(Next(s, steps[0]), steps[1..]);
    }
  }

  /** A commit adds exactly the transaction's own rows, and a rollback none. */
  lemma CommitAddsItsRows(s: State, t: TxnId)
    requires t in s.open
    ensures Next(s, Commit(t)).committed == s.committed + s.open[t] && t !in Next(s, Commit(t)).open
    ensures Next(s, Rollback(t)).committed == s.committed && t !in Next(s, Rollback(t)).open
    ensures Next(s, Commit(t)).lock != Some(t) && Next(s, Rollback(t)).lock != Some(t)
  {
  }

  /** Whoever can get the lock appends a row that follows the tip, and keeps the lock. */
  lemma AppendWritesAndLocks(s: State, t: TxnId, e: Event, id: nat, clock: int)
    requires t in s.open && (s.lock.None? || s.lock == Some(t))
    ensures var s' := Next(s, Append(t, e, id, clock));
      && t in s'.open && s'.lock == Some(t) && s'.committed == s.committed
      && s'.open[t] == s.open[t] + [NewRow(e, id, clock, Tip(s.committed + s.open[t]))]
  {
  }

  lemma {:induction false} DepthGrows(c: seq<Row>, i: nat)
    requires IsWhole(c) && i < |c|
    ensures Depth(c[i].prevHash) == i
    decreases i
  {
    assert LinksUp(c, i);
    if i > 0 {
      assert LinksUp(c, i - 1);
      DepthGrows(c, i - 1);
    }
  }

  lemma WholeIsShaped(c: seq<Row>)
    requires IsWhole(c)
    ensures Shaped(c)
  {
    forall r | r in c ensures !BadHash(r) && Follows(c, r) {
      var i: nat :| i < |c| && c[i] == r;
      assert LinksUp(c, i);
      assert i > 0 ==> c[i - 1] in c;
    }
    forall i: nat, j: nat | i < j < |c| ensures c[i].prevHash != c[j].prevHash {
      DepthGrows(c, i);
      DepthGrows(c, j);
    }
  }

  /** `rows` is the table read in (created_at, id) order. */
  ghost predicate OrderBy(rows: seq<Row>, table: seq<Row>) {
    && multiset(rows) == multiset(table)
    && forall i: nat, j: nat :: i < j < |rows| ==>
         rows[i].at < rows[j].at || (rows[i].at == rows[j].at && rows[i].id <= rows[j].id)
  }

  lemma {:induction false} OrderIsChainOrder(rows: seq<Row>, c: seq<Row>)
    requires IsWhole(c) && OrderBy(rows, c)
    ensures rows == c
    decreases |c|
  {
    assert |rows| == |multiset(rows)| == |c|;
    if c != [] {
      var n := |c| - 1;
      LastInOrder(rows, c);
      DropLast(rows);
      DropLast(c);
      WholePrefix(c[..n], [c[n]]);
      assert OrderBy(rows[..n], c[..n]);
      OrderIsChainOrder(rows[..n], c[..n]);
    }
  }

  lemma DropLast(rows: seq<Row>)
    requires rows != []
    ensures var n := |rows| - 1;
      rows == rows[..n] + [rows[n]] && multiset(rows[..n]) == multiset(rows) - multiset{rows[n]}
  {
  }

  lemma LastInOrder(rows: seq<Row>, c: seq<Row>)
    requires IsWhole(c) && OrderBy(rows, c) && c != [] && |rows| == |c|
    ensures rows[|rows| - 1] == c[|c| - 1]
  {
    var n := |c| - 1;
    SameMembers(rows, c, rows[n]);
    SameMembers(c, rows, c[n]);
    var k: nat :| k < |c| && c[k] == rows[n];
    var m: nat :| m < |rows| && rows[m] == c[n];
    if k < n {
      TimeGoesOn(c, k, n);
    }
  }

  lemma AllChained(rows: seq<Row>)
    ensures |Chained(rows)| == |rows| <==> forall r :: r in rows ==> IsChained(r)
    ensures (forall r :: r in rows ==> IsChained(r)) ==> Chained(rows) == rows
  {
    if rows != [] {
      AllChained(rows[1..]);
      assert rows == [rows[0]] + rows[1..];
      assert forall r :: r in rows <==> r == rows[0] || r in rows[1..];
    }
  }

  /** The ordered walk passes exactly when no row was written outside the chain. */
  lemma WalkPassesIff(s: State, steps: seq<Step>, rows: seq<Row>)
    requires Settled(s) && OrderBy(rows, Exec(s, steps).committed)
    ensures Linked(rows) <==> ReportOf(Exec(s, steps).committed).unchained == 0
  {
    var table := Exec(s, steps).committed;
    CommittedRowsAreOneChain(s, steps);
    assert Chained(s.committed) + [] == Chained(s.committed);
    ExecKeepsSafe(s, steps);
    AllChained(table);
    if forall r :: r in table ==> IsChained(r) {
      OrderIsChainOrder(rows, table);
      forall i: nat | i < |rows| ensures LinkedAt(rows, i) {
        assert LinksUp(table, i);
        assert i > 0 ==> LinksUp(table, i - 1);
      }
    } else {
      var r :| r in table && !IsChained(r);
      SameMembers(table, rows, r);
      var k: nat :| k < |rows| && rows[k] == r;
      assert Plain(r);
      assert !LinkedAt(rows, k);
    }
  }

  /** Over every history the report is clean and the alert stays silent, with or
      without rows outside the chain. */
  lemma NeverAlerts(s: State, steps: seq<Step>, rows: seq<Row>)
    requires Settled(s) && OrderBy(rows, Exec(s, steps).committed)
    ensures var table := Exec(s, steps).committed;
      Clean(ReportOf(table)) && !ChainBroken(Linked(rows), ReportOf(table))
  {
    var table := Exec(s, steps).committed;
    CommittedRowsAreOneChain(s, steps);
    WholeIsShaped(Chained(table));
    CleanIffShaped(table);
    BrokenIff(table);
    WalkPassesIff(s, steps, rows);
  }
}
