/**
 * Whole histories of one job: closeouts are written, restated or written anew,
 * invoices are opened, claim the current closeout, are voided, and give their
 * stamps back, in any order and any number.
 */
module CloseoutRuns {
  import opened Basics
  import opened Closeouts

  /** `gone` holds invoices that were voided or deleted; none comes back. */
  datatype State = State(rows: seq<Closeout>, live: set<InvoiceId>, gone: set<InvoiceId>)

  datatype Step =
    | CloseOut(hoursWorked: int, techsOnSite: int, stillCompleted: bool)
    | OpenInvoice(inv: InvoiceId)
    | ClaimCurrent(inv: InvoiceId)
    | Void(inv: InvoiceId)
    | GiveBack(inv: InvoiceId)

  const Start := State([], {}, {})

  function Current(s: State): nat
    requires s.rows != []
  {
    |s.rows| - 1
  }

  function Next(s: State, step: Step): State {
    match step
    case CloseOut(h, n, still) => s.(rows := s.rows + [NextRow(s.rows, h, n, still)])
    case OpenInvoice(i) => if i in s.gone then s else s.(live := s.live + {i})
    case ClaimCurrent(i) =>
      if s.rows == [] || i !in s.live then s
      else s.(rows := Claim(s.rows, s.live, i, Current(s)))
    case Void(i) => s.(live := s.live - {i}, gone := s.gone + {i})
    case GiveBack(i) => s.(rows := Release(s.rows, i))
  }

  function Exec(s: State, steps: seq<Step>): State
    decreases |steps|
  {
    if steps == [] then s else Exec(Next(s, steps[0]), steps[1..])
  }

  // ---------------------------------------------------------------------
  // What every step keeps
  // ---------------------------------------------------------------------

  ghost predicate Sound(s: State) {
    && Linear(s.rows)
    && s.live !! s.gone
    && (forall i: nat :: i < |s.rows| && s.rows[i].billedBy.Some? ==> s.rows[i].billedBy.value in s.live + s.gone)
    && forall i: nat :: i < |s.rows| ==> Covered(s.rows, s.live, i)
  }

  lemma {:induction false} CoveredAfterClaim(t: seq<Closeout>, live: set<InvoiceId>, inv: InvoiceId, i: nat)
    requires Linear(t) && i < |t| && inv in live && Covered(t, live, i)
    ensures Covered(Claim(t, live, inv, |t| - 1), live, i)
  {
    var c := |t| - 1;
    var t' := Claim(t, live, inv, c);
    if Claimable(t, live, c) {
      RunStep(t, i);
      if i == c {
        ClaimSettlesTheRun(t, live, inv, c);
        RunStep(t', c);
        AcrossStep(t', live, c);
      } else {
        AcrossFrame(t, live, t', live, i);
      }
    }
  }

  lemma StepKeepsSound(s: State, step: Step)
    requires Sound(s)
    ensures Sound(Next(s, step))
  {
    match step
    case CloseOut(h, n, still) => CloseOutKeepsSound(s, h, n, still);
    case ClaimCurrent(inv) =>
      if s.rows != [] && inv in s.live {
        forall i: nat | i < |s.rows| ensures Covered(Claim(s.rows, s.live, inv, Current(s)), s.live, i) {
          CoveredAfterClaim(s.rows, s.live, inv, i);
        }
      }
    case _ => ShrinkKeepsSound(s, Next(s, step));
  }

  lemma CloseOutKeepsSound(s: State, h: int, n: int, still: bool)
    requires Sound(s)
    ensures Sound(Next(s, CloseOut(h, n, still)))
  {
    var row := NextRow(s.rows, h, n, still);
    assert Linear(s.rows + [row]);
    forall i: nat | i < |s.rows + [row]| ensures Covered(s.rows + [row], s.live, i) {
      CoveredAfterCloseOut(s.rows, s.live, row, i);
    }
  }

  /** Opening, voiding and giving back never make a row bill more. */
  lemma ShrinkKeepsSound(s: State, s': State)
    requires Sound(s) && SameLinks(s.rows, s'.rows) && s'.live !! s'.gone && s.live + s.gone <= s'.live + s'.gone
    requires forall i: nat :: i < |s.rows| ==> s'.rows[i].billedBy.None? || s'.rows[i].billedBy == s.rows[i].billedBy
    requires forall i: nat :: i < |s.rows| ==> HeldBy(s'.rows[i], s'.live) <= HeldBy(s.rows[i], s.live)
    ensures Sound(s')
  {
    forall i: nat | i < |s.rows| ensures Covered(s'.rows, s'.live, i) {
      CoveredAfterShrink(s.rows, s.live, s'.rows, s'.live, i);
    }
  }

  lemma {:induction false} ExecKeepsSound(s: State, steps: seq<Step>)
    requires Sound(s)
    ensures Sound(Exec(s, steps))
    decreases |steps|
  {
    if steps != [] {
      StepKeepsSound(s, steps[0]);
      ExecKeepsSound(Next(s, steps[0]), steps[1..]);
    }
  }

  // ---------------------------------------------------------------------
  // Main results
  // ---------------------------------------------------------------------

  /** Over every history, the man-hours live invoices hold across any run of
      restatements never exceed the largest attestation in that run. */
  lemma NeverOverbilled(steps: seq<Step>, c: nat)
    requires c < |Exec(Start, steps).rows|
    ensures var s := Exec(Start, steps); HeldAcross(s.rows, s.live, c) <= Largest(s.rows, c)
  {
    ExecKeepsSound(Start, steps);
    var s := Exec(Start, steps);
    assert Covered(s.rows, s.live, c);
  }

  /** Over every history, a claim that goes through brings the run to exactly
      what the current closeout attests, and touches no older run. */
  lemma ClaimBillsTheDelta(steps: seq<Step>, inv: InvoiceId)
    requires var s := Exec(Start, steps); s.rows != [] && inv in s.live
    requires var s := Exec(Start, steps); Claimable(s.rows, s.live, Current(s))
    ensures var s := Exec(Start, steps); var s' := Next(s, ClaimCurrent(inv));
      && |s'.rows| == |s.rows|
      && HeldAcross(s'.rows, s'.live, Current(s)) == ManHours(s.rows[Current(s)])
      && HeldAcross(s'.rows, s'.live, Current(s)) > HeldAcross(s.rows, s.live, Current(s))
      && forall i: nat :: i < Current(s) ==> HeldAcross(s'.rows, s'.live, i) == HeldAcross(s.rows, s.live, i)
  {
    var s := Exec(Start, steps);
    var s' := Next(s, ClaimCurrent(inv));
    ExecKeepsSound(Start, steps);
    RunStep(s.rows, Current(s));
    ClaimSettlesTheRun(s.rows, s.live, inv, Current(s));
    forall i: nat | i < Current(s)
      ensures HeldAcross(s'.rows, s'.live, i) == HeldAcross(s.rows, s.live, i)
    {
      RunStep(s.rows, i);
      RunShape(s.rows, i);
      RunFromFrame(s.rows, s'.rows, i, {});
      HeldFrame(s.rows, s.live, s'.rows, s'.live, Run(s.rows, i));
    }
  }

  /** In every reachable state, what the run holds plus what the code still
      reports is the larger of the newest attestation and what is held; so a
      void of hours that were not over-billed conserves the sum of the two. */
  lemma VoidStrandsNothing(steps: seq<Step>, inv: InvoiceId)
    requires Exec(Start, steps).rows != []
    ensures var s := Exec(Start, steps); var s' := Next(s, Void(inv)); var c := Current(s);
      && HeldAcross(s'.rows, s'.live, c) <= HeldAcross(s.rows, s.live, c)
      && HeldAcross(s'.rows, s'.live, c) + Reported(s'.rows, s'.live, c)
         == Max(ManHours(s.rows[c]), HeldAcross(s'.rows, s'.live, c))
      && (HeldAcross(s.rows, s.live, c) <= ManHours(s.rows[c]) ==>
            HeldAcross(s'.rows, s'.live, c) + Reported(s'.rows, s'.live, c)
            == HeldAcross(s.rows, s.live, c) + Reported(s.rows, s.live, c))
  {
    var s := Exec(Start, steps);
    var s' := Next(s, Void(inv));
    var c := Current(s);
    RunShape(s.rows, c);
    HeldShrinks(s.rows, s.live, s'.rows, s'.live, Run(s.rows, c));
    HeldPlusReported(s.rows, s.live, c);
    HeldPlusReported(s'.rows, s'.live, c);
  }

  /** In every reachable state, a closeout of a job that was reopened is new work: it
      offers all its hours, whatever is billed. One of a job still completed offers what
      its hours exceed the hours already held by. */
  lemma ReopenedWorkBillsInFull(steps: seq<Step>, h: int, n: int)
    requires Exec(Start, steps).rows != []
    ensures var s := Exec(Start, steps); var s' := Next(s, CloseOut(h, n, false)); var d := |s.rows|;
      |s'.rows| == d + 1 && ToBill(s'.rows, s'.live, d) == ManHours(s'.rows[d])
    ensures var s := Exec(Start, steps); var s' := Next(s, CloseOut(h, n, true)); var d := |s.rows|;
      && |s'.rows| == d + 1 && s'.rows[d].hoursWorked == h && s'.rows[d].techsOnSite == n
      && ToBill(s'.rows, s'.live, d) == Max(0, ManHours(s'.rows[d]) - HeldAcross(s.rows, s.live, Current(s)))
  {
    ExecKeepsSound(Start, steps);
    NewWork(Exec(Start, steps), h, n);
    Restatement(Exec(Start, steps), h, n);
  }

  lemma NewWork(s: State, h: int, n: int)
    requires Sound(s) && s.rows != []
    ensures var t := s.rows + [NextRow(s.rows, h, n, false)]; ToBill(t, s.live, |s.rows|) == ManHours(t[|s.rows|])
  {
    CloseOutKeepsSound(s, h, n, false);
    AcrossStep(s.rows + [NextRow(s.rows, h, n, false)], s.live, |s.rows|);
  }

  lemma Restatement(s: State, h: int, n: int)
    requires Sound(s) && s.rows != []
    ensures var t := s.rows + [NextRow(s.rows, h, n, true)];
      ToBill(t, s.live, |s.rows|) == Max(0, ManHours(t[|s.rows|]) - HeldAcross(s.rows, s.live, |s.rows| - 1))
  {
    var t := s.rows + [NextRow(s.rows, h, n, true)];
    CloseOutKeepsSound(s, h, n, true);
    AcrossStep(t, s.live, |s.rows|);
    AcrossFrame(s.rows, s.live, t, s.live, |s.rows| - 1);
  }

  /** In every reachable state a void takes off the run exactly what the invoice's claims
      there bill, and giving its stamps back frees exactly its rows. */
  lemma VoidGivesBackExactly(steps: seq<Step>, inv: InvoiceId)
    requires var s := Exec(Start, steps); s.rows != [] && inv in s.live
    ensures var s := Exec(Start, steps); var s' := Next(s, Void(inv)); var c := Current(s);
      && (forall k: nat :: k < |WholeRun(s.rows, c)| ==> WholeRun(s.rows, c)[k] < |s.rows|)
      && |s'.rows| == |s.rows|
      && HeldAcross(s'.rows, s'.live, c) + StampedBy(s.rows, inv, WholeRun(s.rows, c)) == HeldAcross(s.rows, s.live, c)
    ensures var s := Exec(Start, steps); var freed := Next(s, GiveBack(inv)).rows;
      |freed| == |s.rows| && forall k: nat :: k < |freed| ==>
        freed[k] == if s.rows[k].billedBy == Some(inv) then s.rows[k].(billedBy := None) else s.rows[k]
  {
    var s := Exec(Start, steps);
    var c := Current(s);
    RunShape(s.rows, c);
    HeldWithout(s.rows, s.live, inv, Run(s.rows, c));
    assert WholeRun(s.rows, c)[1..] == Run(s.rows, c);
  }

  /** Restating the current closeout at the hours it already attests offers
      exactly what the code reported as still billable before the restatement:
      hours a void stranded behind a taken stamp come back on offer. */
  lemma RestatingOffersWhatWasReported(steps: seq<Step>)
    requires Exec(Start, steps).rows != []
    ensures var s := Exec(Start, steps); var c := Current(s); var row := s.rows[c];
      var s' := Next(s, CloseOut(row.hoursWorked, row.techsOnSite, true));
      && |s'.rows| == |s.rows| + 1
      && Claimable(s'.rows, s'.live, c + 1) == (Reported(s.rows, s.live, c) > 0)
      && ToBill(s'.rows, s'.live, c + 1) == Reported(s.rows, s.live, c)
  {
    var s := Exec(Start, steps);
    var c := Current(s);
    var row := s.rows[c];
    var s' := Next(s, CloseOut(row.hoursWorked, row.techsOnSite, true));
    ExecKeepsSound(Start, steps);
    StepKeepsSound(s, CloseOut(row.hoursWorked, row.techsOnSite, true));
    RunStep(s'.rows, c + 1);
    RunOfPrefix(s.rows, s'.rows[c + 1], c);
    RunShape(s.rows, c);
    HeldFrame(s.rows, s.live, s'.rows, s'.live, WholeRun(s.rows, c));
    assert WholeRun(s.rows, c)[1..] == Run(s.rows, c);
    HeldPlusReported(s.rows, s.live, c);
  }
}
