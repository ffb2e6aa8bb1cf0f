/**
 * What a whole run of restatements is billed when builds interleave: each
 * closeout row has its own lock, and what is left to bill is read before it.
 */
module ClaimOverlap {
  import opened Basics
  import opened Closeouts
  import opened ClaimRace

  // ---------------------------------------------------------------------
  // Stamping one row
  // ---------------------------------------------------------------------

  /** Nothing above `c` in a run through it is held: the run holds what `c`'s does. */
  lemma {:induction false} NothingHeldAbove(t: seq<Closeout>, live: set<InvoiceId>, c: nat, d: nat)
    requires Linear(t) && c <= d < |t| && InRun(t, c, d)
    requires forall k: nat :: c < k <= d && InRun(t, c, k) ==> HeldBy(t[k], live) == 0
    ensures HeldAcross(t, live, d) == HeldAcross(t, live, c) && ManHours(t[c]) <= Largest(t, d)
    decreases d
  {
    AcrossStep(t, live, d);
    if c < d {
      NothingHeldAbove(t, live, c, d - 1);
    }
  }

  /** `t'` is `t` with row `c`, free before, now billed `n` half hours; no other row bills more or less. */
  ghost predicate Bills(
    t: seq<Closeout>, live: set<InvoiceId>, t': seq<Closeout>, live': set<InvoiceId>, c: nat, n: nat)
  {
    && Linear(t) && SameLinks(t, t') && c < |t|
    && HeldBy(t[c], live) == 0 && HeldBy(t'[c], live') == n
    && forall k: nat :: k < |t| && k != c ==> HeldBy(t'[k], live') == HeldBy(t[k], live)
  }

  lemma {:induction false} BillsAdds(
    t: seq<Closeout>, live: set<InvoiceId>, t': seq<Closeout>, live': set<InvoiceId>, c: nat, n: nat, d: nat)
    requires Bills(t, live, t', live', c, n) && d < |t|
    ensures Largest(t', d) == Largest(t, d) && (forall a: nat :: InRun(t', a, d) <==> InRun(t, a, d))
    ensures BilledBefore(t', live', d) == BilledBefore(t, live, d) + if c != d && InRun(t, c, d) then n else 0
    ensures HeldAcross(t', live', d) == HeldAcross(t, live, d) + if InRun(t, c, d) then n else 0
    decreases d
  {
    BillsAddsAt(t, live, t', live', c, n, d);
    if d > 0 && t[d].restates {
      BillsAdds(t, live, t', live', c, n, d - 1);
    }
    forall a: nat ensures InRun(t', a, d) <==> InRun(t, a, d) {
      InRunFrame(t, t', a, d);
    }
  }

  lemma BillsAddsAt(
    t: seq<Closeout>, live: set<InvoiceId>, t': seq<Closeout>, live': set<InvoiceId>, c: nat, n: nat, d: nat)
    requires Bills(t, live, t', live', c, n) && d < |t|
    ensures HeldBy(t'[d], live') == HeldBy(t[d], live) + if c == d then n else 0
    ensures var on := d > 0 && t[d].restates;
      && BilledBefore(t, live, d) == (if on then HeldAcross(t, live, d - 1) else 0)
      && BilledBefore(t', live', d) == (if on then HeldAcross(t', live', d - 1) else 0)
      && Largest(t, d) == Max(ManHours(t[d]), if on then Largest(t, d - 1) else 0)
      && Largest(t', d) == Max(ManHours(t[d]), if on then Largest(t', d - 1) else 0)
  {
    assert t'[d] == t[d].(billedBy := t'[d].billedBy, manHoursBilled := t'[d].manHoursBilled);
    AcrossStep(t, live, d);
    AcrossStep(t', live', d);
  }

  lemma CommitBills(s: State, i: InvoiceId)
    requires Safe(s) && i in s.open && s.open[i].phase.Claiming?
    ensures Bills(s.rows, Live(s), SeenRows(s, i), Live(s) + {i}, s.open[i].cid, s.open[i].phase.toBill)
  {
    assert VerdictStands(s, i);
    StampBills(s, i, s.open[i].cid, s.open[i].phase.toBill);
  }

  lemma StampBills(s: State, i: InvoiceId, c: nat, n: nat)
    requires Safe(s) && i in s.open && c < |s.rows| && Free(s, c)
    ensures Bills(s.rows, Live(s), Stamped(s.rows, c, i, n), Live(s) + {i}, c, n)
  {
    forall k: nat | k < |s.rows| ensures s.rows[k].billedBy != Some(i) {
      NobodyNames(s, i, k);
    }
  }

  // ---------------------------------------------------------------------
  // Builds that keep apart
  // ---------------------------------------------------------------------

  /** A build starts only while no build is open on a row of the current closeout's run. */
  predicate KeepsApart(s: State, step: Step) {
    step.Start? && Enabled(s, step) ==> forall j :: j in s.open ==> s.open[j].cid !in WholeRun(s.rows, |s.rows| - 1)
  }

  predicate AllKeepApart(s: State, steps: seq<Step>)
    decreases |steps|
  {
    steps == [] || (KeepsApart(s, steps[0]) && AllKeepApart(Next(s, steps[0]), steps[1..]))
  }

  predicate Asks(p: Phase) { p.Waiting? || p.Locked? || p.Claiming? }

  /** What the build read still fits its closeout, and no row above its closeout is billed. */
  ghost predicate Fits(t: seq<Closeout>, live: set<InvoiceId>, x: Txn) {
    && x.cid < |t|
    && (Asks(x.phase) ==> x.phase.toBill + BilledBefore(t, live, x.cid) <= ManHours(t[x.cid]))
    && (forall d: nat :: x.cid < d < |t| && InRun(t, x.cid, d) ==> HeldBy(t[d], live) == 0)
  }

  /** Row `a` is not in the run of row `b`. */
  predicate Clear(t: seq<Closeout>, a: nat, b: nat) { b < |t| ==> !InRun(t, a, b) }

  ghost predicate Apart(t: seq<Closeout>, open: map<InvoiceId, Txn>) {
    forall i, j :: i in open && j in open && i != j ==> Clear(t, open[i].cid, open[j].cid)
  }

  ghost predicate AllCovered(t: seq<Closeout>, live: set<InvoiceId>) {
    forall d: nat :: d < |t| ==> Covered(t, live, d)
  }

  ghost predicate AllFit(t: seq<Closeout>, live: set<InvoiceId>, open: map<InvoiceId, Txn>) {
    forall i :: i in open ==> Fits(t, live, open[i])
  }

  ghost predicate Tidy(s: State) {
    Safe(s) && Apart(s.rows, s.open) && AllCovered(s.rows, Live(s)) && AllFit(s.rows, Live(s), s.open)
  }

  lemma CloseOutKeepsTidy(s: State, h: int, n: int, still: bool)
    requires Tidy(s)
    ensures Tidy(Next(s, CloseOut(h, n, still)))
  {
    var row := NextRow(s.rows, h, n, still);
    var s' := Next(s, CloseOut(h, n, still));
    StepKeepsSafe(s, CloseOut(h, n, still));
    assert Live(s') == Live(s);
    forall d: nat | d < |s'.rows| ensures Covered(s'.rows, Live(s'), d) {
      CoveredAfterCloseOut(s.rows, Live(s), row, d);
    }
    forall a: nat, d: nat | d < |s.rows| ensures InRun(s'.rows, a, d) <==> InRun(s.rows, a, d) {
      InRunFrame(s.rows, s'.rows, a, d);
    }
    forall i | i in s'.open ensures Fits(s'.rows, Live(s'), s'.open[i]) {
      CloseOutKeepsFit(s.rows, Live(s), row, s.open[i]);
    }
  }

  lemma CloseOutKeepsFit(t: seq<Closeout>, live: set<InvoiceId>, row: Closeout, x: Txn)
    requires Linear(t) && Linear(t + [row]) && row.billedBy.None? && Fits(t, live, x)
    ensures Fits(t + [row], live, x)
  {
    RunOfPrefix(t, row, x.cid);
    RunShape(t, x.cid);
    HeldFrame(t, live, t + [row], live, Run(t, x.cid));
    forall d: nat | x.cid < d < |t| && InRun(t + [row], x.cid, d) ensures HeldBy(t[d], live) == 0 {
      InRunFrame(t, t + [row], x.cid, d);
    }
  }

  lemma CommitKeepsTidy(s: State, i: InvoiceId)
    requires Tidy(s) && Enabled(s, Commit(i)) && s.open[i].phase.Claiming?
    ensures Tidy(Next(s, Commit(i)))
  {
    CommitBills(s, i);
    CommitKeepsRunsCovered(s, i);
    CommitKeepsFits(s, i);
    ApartOnSameLinks(s.rows, SeenRows(s, i), s.open, s.open - {i});
    StepKeepsSafe(s, Commit(i));
    CommitIs(s, i);
  }

  lemma CommitIs(s: State, i: InvoiceId)
    requires Enabled(s, Commit(i))
    ensures var s' := Next(s, Commit(i));
      s'.rows == SeenRows(s, i) && s'.open == s.open - {i} && Live(s') == Live(s) + {i}
  {
  }

  lemma CommitKeepsRunsCovered(s: State, i: InvoiceId)
    requires Tidy(s) && i in s.open && s.open[i].phase.Claiming?
    ensures AllCovered(SeenRows(s, i), Live(s) + {i})
  {
    CommitBills(s, i);
    forall d: nat | d < |s.rows| ensures Covered(SeenRows(s, i), Live(s) + {i}, d) {
      assert Covered(s.rows, Live(s), d) && Fits(s.rows, Live(s), s.open[i]);
      CommitCovers(s.rows, Live(s), SeenRows(s, i), Live(s) + {i}, s.open[i], d);
    }
  }

  lemma CommitKeepsFits(s: State, i: InvoiceId)
    requires Tidy(s) && i in s.open && s.open[i].phase.Claiming?
    ensures AllFit(SeenRows(s, i), Live(s) + {i}, s.open - {i})
  {
    CommitBills(s, i);
    forall j | j in s.open && j != i ensures Fits(SeenRows(s, i), Live(s) + {i}, s.open[j]) {
      assert Fits(s.rows, Live(s), s.open[j]) && Fits(s.rows, Live(s), s.open[i]);
      assert Clear(s.rows, s.open[i].cid, s.open[j].cid) && Clear(s.rows, s.open[j].cid, s.open[i].cid);
      CommitKeepsFit(s.rows, Live(s), SeenRows(s, i), Live(s) + {i}, s.open[i].cid, s.open[i].phase.toBill, s.open[j]);
    }
  }

  lemma CommitCovers(t: seq<Closeout>, live: set<InvoiceId>, t': seq<Closeout>, live': set<InvoiceId>, x: Txn, d: nat)
    requires x.phase.Claiming? && Bills(t, live, t', live', x.cid, x.phase.toBill) && Fits(t, live, x)
    requires d < |t| && Covered(t, live, d)
    ensures Covered(t', live', d)
  {
    BillsAdds(t, live, t', live', x.cid, x.phase.toBill, d);
    BillsAdds(t, live, t', live', x.cid, x.phase.toBill, x.cid);
    if InRun(t, x.cid, d) {
      NothingHeldAbove(t, live, x.cid, d);
    }
  }

  lemma CommitKeepsFit(
    t: seq<Closeout>, live: set<InvoiceId>, t': seq<Closeout>, live': set<InvoiceId>, c: nat, n: nat, x: Txn)
    requires Bills(t, live, t', live', c, n) && Fits(t, live, x)
    requires !InRun(t, c, x.cid) && !InRun(t, x.cid, c)
    ensures Fits(t', live', x)
  {
    BillsAdds(t, live, t', live', c, n, x.cid);
    forall d: nat | x.cid < d < |t| && InRun(t', x.cid, d) ensures HeldBy(t'[d], live') == 0 {
      InRunFrame(t, t', x.cid, d);
    }
  }

  lemma VoidKeepsTidy(s: State, v: InvoiceId)
    requires Tidy(s) && CanVoid(s, v)
    ensures Tidy(Next(s, Void(v)))
  {
    var s' := Next(s, Void(v));
    StepKeepsSafe(s, Void(v));
    VoidShrinks(s, v);
    forall d: nat | d < |s.rows| ensures Covered(s'.rows, Live(s'), d) {
      CoveredAfterShrink(s.rows, Live(s), s'.rows, Live(s'), d);
      assert Covered(s.rows, Live(s), d);
    }
    forall i | i in s'.open ensures Fits(s'.rows, Live(s'), s'.open[i]) {
      ShrinkKeepsFit(s.rows, Live(s), s'.rows, Live(s'), s.open[i]);
    }
    ApartOnSameLinks(s.rows, s'.rows, s.open, s.open);
  }

  lemma VoidShrinks(s: State, v: InvoiceId)
    requires Safe(s) && CanVoid(s, v)
    ensures var s' := Next(s, Void(v));
      && SameLinks(s.rows, s'.rows) && s'.open == s.open
      && forall k: nat :: k < |s.rows| ==> HeldBy(s'.rows[k], Live(s')) <= HeldBy(s.rows[k], Live(s))
  {
    assert Live(Next(s, Void(v))) == Live(s) - {v};
  }

  lemma ApartOnSameLinks(t: seq<Closeout>, t': seq<Closeout>, open: map<InvoiceId, Txn>, open': map<InvoiceId, Txn>)
    requires Apart(t, open) && SameLinks(t, t') && forall i :: i in open' ==> i in open && open'[i] == open[i]
    ensures Apart(t', open')
  {
    forall a: nat, d: nat | d < |t| ensures InRun(t', a, d) <==> InRun(t, a, d) {
      InRunFrame(t, t', a, d);
    }
  }

  lemma ShrinkKeepsFit(t: seq<Closeout>, live: set<InvoiceId>, t': seq<Closeout>, live': set<InvoiceId>, x: Txn)
    requires SameLinks(t, t') && Fits(t, live, x)
    requires forall k: nat :: k < |t| ==> HeldBy(t'[k], live') <= HeldBy(t[k], live)
    ensures Fits(t', live', x)
  {
    RunFromFrame(t, t', x.cid, {});
    RunShape(t, x.cid);
    HeldShrinks(t, live, t', live', Run(t, x.cid));
    forall d: nat | x.cid < d < |t| && InRun(t', x.cid, d) ensures HeldBy(t'[d], live') == 0 {
      InRunFrame(t, t', x.cid, d);
    }
  }

  /** Steps that neither stamp nor release a row. */
  lemma OtherStepKeepsTidy(s: State, step: Step)
    requires Tidy(s) && KeepsApart(s, step) && Enabled(s, step)
    requires !step.CloseOut? && !step.Void? && !(step.Commit? && s.open[step.i].phase.Claiming?)
    ensures Tidy(Next(s, step))
  {
    var s' := Next(s, step);
    StepKeepsSafe(s, step);
    SameHoldings(s, step);
    forall d: nat | d < |s.rows| ensures Covered(s'.rows, Live(s'), d) {
      AcrossFrame(s.rows, Live(s), s'.rows, Live(s'), d);
      assert Covered(s.rows, Live(s), d);
    }
    forall j | j in s'.open ensures Fits(s'.rows, Live(s'), s'.open[j]) {
      MoveKeepsFit(s, step, j);
    }
    ApartAfterMove(s, step);
  }

  lemma SameHoldings(s: State, step: Step)
    requires Safe(s) && Enabled(s, step)
    requires !step.CloseOut? && !step.Void? && !(step.Commit? && s.open[step.i].phase.Claiming?)
    ensures Next(s, step).rows == s.rows
    ensures forall k: nat :: k < |s.rows| ==> HeldBy(s.rows[k], Live(Next(s, step))) == HeldBy(s.rows[k], Live(s))
  {
    var s' := Next(s, step);
    if step.Commit? {
      assert Live(s') == Live(s) + {step.i};
      forall k: nat | k < |s.rows| ensures HeldBy(s.rows[k], Live(s')) == HeldBy(s.rows[k], Live(s)) {
        NobodyNames(s, step.i, k);
      }
    } else {
      assert Live(s') == Live(s);
    }
  }

  lemma MoveKeepsFit(s: State, step: Step, j: InvoiceId)
    requires Tidy(s) && Enabled(s, step) && j in Next(s, step).open
    requires !step.CloseOut? && !step.Void? && !(step.Commit? && s.open[step.i].phase.Claiming?)
    ensures Fits(s.rows, Live(Next(s, step)), Next(s, step).open[j])
  {
    var s' := Next(s, step);
    SameHoldings(s, step);
    if j in s.open {
      assert Fits(s.rows, Live(s), s.open[j]);
      SeesTheCommitted(s, j);
      AsksNoMore(s, step, j);
      FitFrame(s.rows, Live(s), Live(s'), s.open[j], s'.open[j]);
    }
  }

  lemma AsksNoMore(s: State, step: Step, j: InvoiceId)
    requires Safe(s) && j in s.open && j in Next(s, step).open
    ensures var x, y := s.open[j], Next(s, step).open[j];
      && y.cid == x.cid
      && (Asks(y.phase) ==>
            (Asks(x.phase) && y.phase.toBill == x.phase.toBill) || y.phase.toBill == SeenToBill(s, j) > 0)
  {
  }

  lemma FitFrame(t: seq<Closeout>, live: set<InvoiceId>, live': set<InvoiceId>, x: Txn, y: Txn)
    requires Fits(t, live, x) && y.cid == x.cid
    requires forall k: nat :: k < |t| ==> HeldBy(t[k], live') == HeldBy(t[k], live)
    requires Asks(y.phase) ==>
      (Asks(x.phase) && y.phase.toBill == x.phase.toBill) || y.phase.toBill == ToBill(t, live, x.cid) > 0
    ensures Fits(t, live', y)
  {
    RunShape(t, x.cid);
    HeldFrame(t, live, t, live', Run(t, x.cid));
  }

  /** A build's closeout is the one it started with, and it starts with the current one. */
  lemma StartsOnTheCurrent(s: State, step: Step, j: InvoiceId)
    requires Enabled(s, step) && j in Next(s, step).open
    ensures if j in s.open then Next(s, step).open[j].cid == s.open[j].cid
            else step == Start(j) && Next(s, step).open[j].cid == |s.rows| - 1
  {
  }

  lemma ApartAfterMove(s: State, step: Step)
    requires Tidy(s) && KeepsApart(s, step) && Enabled(s, step)
    requires !step.CloseOut? && !step.Void? && !(step.Commit? && s.open[step.i].phase.Claiming?)
    ensures Apart(s.rows, Next(s, step).open)
  {
    forall i, j | i in Next(s, step).open && j in Next(s, step).open && i != j
      ensures Clear(s.rows, Next(s, step).open[i].cid, Next(s, step).open[j].cid)
    {
      StartsOnTheCurrent(s, step, i);
      StartsOnTheCurrent(s, step, j);
      if i in s.open && j in s.open {
        assert Clear(s.rows, s.open[i].cid, s.open[j].cid);
      } else {
        ClearOfTheNew(s, step, if i in s.open then i else j);
      }
    }
  }

  /** An open build and one that starts now are clear of each other. */
  lemma ClearOfTheNew(s: State, step: Step, j: InvoiceId)
    requires Safe(s) && step.Start? && Enabled(s, step) && KeepsApart(s, step) && j in s.open
    ensures Clear(s.rows, s.open[j].cid, |s.rows| - 1) && Clear(s.rows, |s.rows| - 1, s.open[j].cid)
  {
    InRunIs(s.rows, s.open[j].cid, |s.rows| - 1);
  }

  lemma StepKeepsTidy(s: State, step: Step)
    requires Tidy(s) && KeepsApart(s, step)
    ensures Tidy(Next(s, step))
  {
    if Enabled(s, step) {
      if step.CloseOut? {
        CloseOutKeepsTidy(s, step.hoursWorked, step.techsOnSite, step.stillCompleted);
      } else if step.Void? {
        VoidKeepsTidy(s, step.i);
      } else if step.Commit? && s.open[step.i].phase.Claiming? {
        CommitKeepsTidy(s, step.i);
      } else {
        OtherStepKeepsTidy(s, step);
      }
    }
  }

  lemma {:induction false} ExecKeepsTidy(s: State, steps: seq<Step>)
    requires Tidy(s) && AllKeepApart(s, steps)
    ensures Tidy(Exec(s, steps))
    decreases |steps|
  {
    if steps != [] {
      StepKeepsTidy(s, steps[0]);
      ExecKeepsTidy(Next(s, steps[0]), steps[1..]);
    }
  }

  /** In every interleaving in which builds on rows of one run keep apart, with voids,
      new closeouts and builds of other runs anywhere, no run ever holds more than the
      largest attestation in it. */
  lemma ApartBuildsNeverOverbill(steps: seq<Step>, d: nat)
    requires AllKeepApart(Idle, steps) && d < |Exec(Idle, steps).rows|
    ensures var s := Exec(Idle, steps); HeldAcross(s.rows, Live(s), d) <= Largest(s.rows, d)
  {
    ExecKeepsTidy(Idle, steps);
    assert Covered(Exec(Idle, steps).rows, Live(Exec(Idle, steps)), d);
  }

  // ---------------------------------------------------------------------
  // Builds that overlap
  // ---------------------------------------------------------------------

  /** Whatever else is going on, a build that finishes adds what it read to every run
      through its closeout: nothing nets it against rows written since. */
  lemma FinishingAdds(s: State, i: InvoiceId, d: nat)
    requires Safe(s) && CanFinish(s, i) && d < |s.rows| && s.open[i].cid in WholeRun(s.rows, d)
    ensures var done := Exec(s, Finishing(i));
      && |done.rows| == |s.rows| && Largest(done.rows, d) == Largest(s.rows, d)
      && HeldAcross(done.rows, Live(done), d) == HeldAcross(s.rows, Live(s), d) + s.open[i].phase.toBill
  {
    var t := s.open[i];
    FinishingIs(s, i);
    assert Live(Exec(s, Finishing(i))) == Live(s) + {i};
    StampBills(s, i, t.cid, t.phase.toBill);
    InRunIs(s.rows, t.cid, d);
    BillsAdds(s.rows, Live(s), Stamped(s.rows, t.cid, i, t.phase.toBill), Live(s) + {i}, t.cid, t.phase.toBill, d);
  }

  /** Build `j` can still finish after build `i` on another row has. */
  lemma StillCanFinish(s: State, i: InvoiceId, j: InvoiceId)
    requires Safe(s) && CanFinish(s, i) && CanFinish(s, j) && s.open[i].cid != s.open[j].cid
    ensures var mid := Exec(s, Finishing(i));
      CanFinish(mid, j) && mid.open[j] == s.open[j] && |mid.rows| == |s.rows|
  {
    FinishingIs(s, i);
    NobodyNames(s, i, s.open[j].cid);
    assert Live(Exec(s, Finishing(i))) == Live(s) + {i};
  }

  /** Two builds that have both read before either commits, one on a row of the other's
      run: in every reachable state, however they came there, the run ends billed for
      what its newest closeout attests and, on top, all that the older build read. */
  lemma OverlapOverbills(s: State, i: InvoiceId, j: InvoiceId)
    requires Safe(s) && CanFinish(s, i) && CanFinish(s, j)
    requires s.open[i].cid in Run(s.rows, s.open[j].cid) && s.open[j].phase.toBill == Left(s, s.open[j].cid)
    ensures var d := s.open[j].cid; var done := Exec(s, Finishing(i) + Finishing(j));
      && |done.rows| == |s.rows| && Largest(done.rows, d) == Largest(s.rows, d)
      && HeldAcross(done.rows, Live(done), d) == ManHours(s.rows[d]) + s.open[i].phase.toBill > ManHours(s.rows[d])
  {
    var d := s.open[j].cid;
    var mid := Exec(s, Finishing(i));
    assert VerdictStands(s, i) && VerdictStands(s, j);
    RunStep(s.rows, d);
    ExecConcat(s, Finishing(i), Finishing(j));
    FinishingAdds(s, i, d);
    StillCanFinish(s, i, j);
    ExecKeepsSafe(s, Finishing(i));
    FinishingAdds(mid, j, d);
  }

  /** A build reads, the closeout is restated, a build of the restatement reads. */
  function BothRead(s: State, i: InvoiceId, j: InvoiceId, h: int, n: int): State {
    Exec(Next(Exec(s, Opening(i)), CloseOut(h, n, true)), Opening(j))
  }

  ghost predicate BothWait(s: State, s': State, i: InvoiceId, j: InvoiceId, h: int, n: int)
    requires s.rows != []
  {
    && Safe(s') && s'.rows == s.rows + [NextRow(s.rows, h, n, true)] && BothHaveReadOn(s', i, j, |s.rows|)
    && s'.open[i] == Txn(|s.rows| - 1, Waiting(Left(s, |s.rows| - 1)), None)
  }

  predicate BothHaveReadOn(s: State, i: InvoiceId, j: InvoiceId, d: nat) {
    && CanFinish(s, i) && CanFinish(s, j) && d < |s.rows|
    && s.open[j].cid == d && s.open[j].phase.toBill == Left(s, d)
  }

  /** From every reachable state whose current closeout is free and has hours left: if it
      is restated, with hours left, while a build stands behind its read, both builds are
      paid in full. */
  lemma OvertakenBuildOverbills(s: State, i: InvoiceId, j: InvoiceId, h: int, n: int)
    requires Safe(s) && Enabled(s, Start(i)) && Enabled(s, Start(j)) && i != j
    requires var p := |s.rows| - 1; Free(s, p) && p !in s.locks && Left(s, p) > 0
    requires var p := |s.rows| - 1; ManHours(NextRow(s.rows, h, n, true)) > BilledBefore(s.rows, Live(s), p)
    ensures var p := |s.rows| - 1; var done := Exec(BothRead(s, i, j, h, n), Finishing(i) + Finishing(j));
      && |done.rows| == |s.rows| + 1
      && HeldAcross(done.rows, Live(done), p + 1) == ManHours(NextRow(s.rows, h, n, true)) + Left(s, p)
      && Largest(done.rows, p + 1) == Max(ManHours(NextRow(s.rows, h, n, true)), Largest(s.rows, p))
  {
    BothReadIs(s, i, j, h, n);
    BothFinish(s, BothRead(s, i, j, h, n), i, j, h, n);
  }

  lemma BothFinish(s: State, s': State, i: InvoiceId, j: InvoiceId, h: int, n: int)
    requires Safe(s) && s.rows != [] && Free(s, |s.rows| - 1) && BothWait(s, s', i, j, h, n)
    ensures var p := |s.rows| - 1; var done := Exec(s', Finishing(i) + Finishing(j));
      && |done.rows| == |s.rows| + 1
      && HeldAcross(done.rows, Live(done), p + 1) == ManHours(NextRow(s.rows, h, n, true)) + Left(s, p)
      && Largest(done.rows, p + 1) == Max(ManHours(NextRow(s.rows, h, n, true)), Largest(s.rows, p))
  {
    RestatedLeftOver(s.rows, Live(s), NextRow(s.rows, h, n, true));
    OverlapOverbills(s', i, j);
  }

  function Restate(s: State, h: int, n: int): State { s.(rows := s.rows + [NextRow(s.rows, h, n, true)]) }

  /** Build `i` waits on the current row, which is then restated. */
  function WaitsRestated(s: State, i: InvoiceId, h: int, n: int): State
    requires s.rows != []
  {
    Opened(Restate(s, h, n), i, Txn(|s.rows| - 1, Waiting(Left(s, |s.rows| - 1)), None))
  }

  lemma ReadThenRestated(s: State, i: InvoiceId, h: int, n: int)
    requires Safe(s) && Enabled(s, Start(i)) && Left(s, |s.rows| - 1) > 0
    ensures Next(Exec(s, Opening(i)), CloseOut(h, n, true)) == WaitsRestated(s, i, h, n)
    ensures Safe(WaitsRestated(s, i, h, n))
  {
    var t := Txn(|s.rows| - 1, Waiting(Left(s, |s.rows| - 1)), None);
    WaitingIsSafe(s, i);
    RestatePassesBy(s, i, t, h, n);
    CloseOutKeepsSafe(Opened(s, i, t), h, n, true);
  }

  lemma WaitingIsSafe(s: State, i: InvoiceId)
    requires Safe(s) && Enabled(s, Start(i)) && Left(s, |s.rows| - 1) > 0
    ensures var s1 := Opened(s, i, Txn(|s.rows| - 1, Waiting(Left(s, |s.rows| - 1)), None));
      Exec(s, Opening(i)) == s1 && Safe(s1)
  {
    OpeningIs(s, i);
    ExecKeepsSafe(s, Opening(i));
  }

  lemma RestatePassesBy(s: State, i: InvoiceId, t: Txn, h: int, n: int)
    ensures Next(Opened(s, i, t), CloseOut(h, n, true)) == Opened(Restate(s, h, n), i, t)
  {
  }

  lemma BothReadIs(s: State, i: InvoiceId, j: InvoiceId, h: int, n: int)
    requires Safe(s) && Enabled(s, Start(i)) && Enabled(s, Start(j)) && i != j
    requires var p := |s.rows| - 1; Free(s, p) && p !in s.locks && Left(s, p) > 0
    requires var p := |s.rows| - 1; ManHours(NextRow(s.rows, h, n, true)) > BilledBefore(s.rows, Live(s), p)
    ensures BothWait(s, BothRead(s, i, j, h, n), i, j, h, n)
  {
    ReadThenRestated(s, i, h, n);
    RestatedWhileWaiting(s, i, h, n);
    RestatedRead(WaitsRestated(s, i, h, n), i, j);
    ExecKeepsSafe(WaitsRestated(s, i, h, n), Opening(j));
  }

  lemma RestatedWhileWaiting(s: State, i: InvoiceId, h: int, n: int)
    requires Safe(s) && s.rows != [] && i !in s.bills
    requires var p := |s.rows| - 1; Free(s, p) && p !in s.locks
    requires var p := |s.rows| - 1; ManHours(NextRow(s.rows, h, n, true)) > BilledBefore(s.rows, Live(s), p)
    ensures var d := |s.rows|; var s2 := WaitsRestated(s, i, h, n);
      CanFinish(s2, i) && Free(s2, d) && d !in s2.locks && Left(s2, d) > 0
  {
    var d := |s.rows|;
    var s2 := WaitsRestated(s, i, h, n);
    RestatedLeftOver(s.rows, Live(s), NextRow(s.rows, h, n, true));
    assert Live(s2) == Live(s) && d !in s.locks;
  }

  /** Another build reads while `i` waits on the row before the current one. */
  lemma RestatedRead(s: State, i: InvoiceId, j: InvoiceId)
    requires Safe(s) && i != j && Enabled(s, Start(j)) && CanFinish(s, i)
    requires var d := |s.rows| - 1; Free(s, d) && d !in s.locks && Left(s, d) > 0
    ensures var s' := Exec(s, Opening(j)); var d := |s.rows| - 1;
      s'.rows == s.rows && BothHaveReadOn(s', i, j, d) && s'.open[i] == s.open[i]
  {
    OpeningIs(s, j);
    assert Live(Exec(s, Opening(j))) == Live(s);
  }

  /** What a restatement of a free row has left to bill. */
  lemma RestatedLeftOver(t: seq<Closeout>, live: set<InvoiceId>, row: Closeout)
    requires t != [] && Linear(t + [row]) && row.restates && HeldBy(t[|t| - 1], live) == 0
    ensures |t| - 1 in Run(t + [row], |t|)
    ensures Largest(t + [row], |t|) == Max(ManHours(row), Largest(t, |t| - 1))
    ensures ToBill(t + [row], live, |t|) == Max(0, ManHours(row) - BilledBefore(t, live, |t| - 1))
  {
    var d := |t|;
    assert Linear(t) by {
      assert forall k: nat :: k < |t| ==> (t + [row])[k] == t[k];
    }
    RunStep(t + [row], d);
    AcrossStep(t + [row], live, d);
    AcrossStep(t, live, d - 1);
    AcrossFrame(t, live, t + [row], live, d - 1);
  }

  /** The same as one sequence of steps. */
  function OvertakenSteps(i: InvoiceId, j: InvoiceId, h: int, n: int): seq<Step> {
    (Opening(i) + [CloseOut(h, n, true)] + Opening(j)) + (Finishing(i) + Finishing(j))
  }

  lemma OvertakenIsARun(s: State, i: InvoiceId, j: InvoiceId, h: int, n: int)
    ensures Exec(s, OvertakenSteps(i, j, h, n)) == Exec(BothRead(s, i, j, h, n), Finishing(i) + Finishing(j))
  {
    ThreeRuns(s, Opening(i), CloseOut(h, n, true), Opening(j), Finishing(i) + Finishing(j));
  }

  lemma ThreeRuns(s: State, a: seq<Step>, step: Step, b: seq<Step>, c: seq<Step>)
    ensures Exec(s, (a + [step] + b) + c) == Exec(Exec(Next(Exec(s, a), step), b), c)
  {
    ExecConcat(s, a + [step] + b, c);
    ExecConcat(s, a + [step], b);
    ExecSnoc(s, a, step);
  }

  /** It happens without a single void: 2 h attested, read by one build, restated at
      2 h and read by another; both bill them, 4 h on a run that never attested more than 2. */
  lemma RestatingUnderABuildDoubleBills()
    ensures var s := Exec(Idle, [CloseOut(200, 1, false)] + OvertakenSteps(10, 11, 200, 1));
      |s.rows| == 2 && HeldAcross(s.rows, Live(s), 1) == 8 && Largest(s.rows, 1) == 4
  {
    FirstRowIsReachable();
    LoneRow(FirstRow);
    AcrossStep(FirstRow.rows, {}, 0);
    assert BilledBefore(FirstRow.rows, Live(FirstRow), 0) == 0;
    OvertakenBuildOverbills(FirstRow, 10, 11, 200, 1);
    OvertakenIsARun(FirstRow, 10, 11, 200, 1);
    ExecConcat(Idle, [CloseOut(200, 1, false)], OvertakenSteps(10, 11, 200, 1));
  }
}
