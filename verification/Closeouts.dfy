/**
 * A job's closeouts and the labor claims invoices hold on them.
 *
 * Man-hours are counted in half hours: `closeout_man_hours` rounds up to the
 * half hour before it multiplies by the crew, so every figure below is whole.
 * A table is a sequence of rows; a row's id is its index. `supersedes` may name
 * any row, a missing row, or form a cycle.
 */
module Closeouts {
  import opened Basics

  type InvoiceId = nat

  datatype Status = Draft | Sent | Overdue | Paid | VoidStatus

  /** `_live_invoice_ids`: an invoice that is neither deleted nor void. */
  predicate Standing(status: Status, deleted: bool) { !deleted && status != VoidStatus }

  datatype Closeout = Closeout(
    hoursWorked: int,              // hundredths of an hour, as attested
    techsOnSite: int,
    supersedes: Option<nat>,
    restates: bool,                // what `_restates` answers for this row
    billedBy: Option<InvoiceId>,
    manHoursBilled: Option<nat>)   // half hours; None is a claim made before they were recorded

  /** `roundup_to_half`, in half hours, for a figure in hundredths of an hour. */
  function RoundUpToHalf(hundredths: int): (r: nat)
    requires hundredths >= 0
    ensures 50 * r - 50 < hundredths <= 50 * r
  {
    (hundredths + 49) / 50
  }

  function Crew(c: Closeout): (r: nat)
    ensures r >= 1
  {
    Max(1, c.techsOnSite)
  }

  /** `closeout_man_hours`: the closeout's attested final day, as billed. */
  function ManHours(c: Closeout): nat {
    if c.hoursWorked <= 0 then 0 else RoundUpToHalf(c.hoursWorked) * Crew(c)
  }

  /** The crew counts in full: for hours on site, the billed half hours cover every
      technician's attested time and exceed it by less than half an hour each; without
      hours nothing is billed. */
  lemma ManHoursCoverTheCrew(c: Closeout)
    ensures c.hoursWorked <= 0 ==> ManHours(c) == 0
    ensures var crew := if c.techsOnSite > 1 then c.techsOnSite else 1;
      c.hoursWorked > 0 ==> c.hoursWorked * crew <= 50 * ManHours(c) < (c.hoursWorked + 50) * crew
  {
    if c.hoursWorked > 0 {
      ScaleByCrew(c.hoursWorked, RoundUpToHalf(c.hoursWorked), if c.techsOnSite > 1 then c.techsOnSite else 1);
    }
  }

  lemma ScaleByCrew(hundredths: int, half: nat, crew: nat)
    requires 50 * half - 50 < hundredths <= 50 * half
    ensures hundredths * crew <= 50 * (half * crew) <= hundredths * crew + 49 * crew
    ensures crew > 0 ==> 50 * (half * crew) < (hundredths + 50) * crew
  {
    var slack := 50 * half - hundredths;
    assert 50 * (half * crew) == (hundredths + slack) * crew;
    assert (hundredths + slack) * crew == hundredths * crew + slack * crew;
    assert (hundredths + 50) * crew == hundredths * crew + 50 * crew;
    assert 0 <= slack * crew <= 49 * crew;
  }

  // ---------------------------------------------------------------------
  // The run of closeouts that one closeout restates
  // ---------------------------------------------------------------------

  ghost function IdsBelow(n: nat): (ids: set<nat>)
    ensures forall i: nat :: i in ids <==> i < n
  {
    if n == 0 then {} else IdsBelow(n - 1) + {n - 1}
  }

  ghost function Ids(t: seq<Closeout>): set<nat> { IdsBelow(|t|) }

  /** The row `cur` restates, if there is one to step to. */
  function Prior(t: seq<Closeout>, cur: nat): Option<nat>
    requires cur < |t|
  {
    if t[cur].supersedes.Some? && t[cur].supersedes.value < |t| && t[cur].restates
    then t[cur].supersedes
    else None
  }

  function RunFrom(t: seq<Closeout>, cur: nat, seen: set<nat>): seq<nat>
    requires cur < |t|
    decreases Ids(t) - seen
  {
    var p := Prior(t, cur);
    if p.Some? && p.value !in seen then
      assert p.value in Ids(t) - seen;
      [p.value] + RunFrom(t, p.value, seen + {p.value})
    else []
  }

  /** `_restated_run`, newest first. */
  function Run(t: seq<Closeout>, c: nat): seq<nat>
    requires c < |t|
  {
    RunFrom(t, c, {})
  }

  /** The row the walk stands on after `i` steps along `run`. */
  function At(c: nat, run: seq<nat>, i: nat): nat
    requires i <= |run|
  {
    if i == 0 then c else run[i - 1]
  }

  /** What the walk promises, without saying how it walks: each row is the one
      its predecessor restates, no row repeats, and the walk only stops where
      there is no unvisited row to step to. */
  ghost predicate IsRestatedRun(t: seq<Closeout>, c: nat, run: seq<nat>) {
    && c < |t|
    && (forall i: nat :: i < |run| ==> run[i] < |t|)
    && (forall i: nat {:trigger At(c, run, i)} :: i < |run| ==> Prior(t, At(c, run, i)) == Some(run[i]))
    && Distinct(run)
    && (var end := Prior(t, At(c, run, |run|)); end.Some? ==> end.value in run)
  }

  /** Two walks that keep the promise are the same walk. */
  lemma {:induction false} RestatedRunIsUnique(t: seq<Closeout>, c: nat, a: seq<nat>, b: seq<nat>)
    requires IsRestatedRun(t, c, a) && IsRestatedRun(t, c, b)
    ensures a == b
  {
    AgreeUpTo(t, c, a, b, if |a| <= |b| then |a| else |b|);
    if |a| <= |b| {
      NoStepPastEnd(t, c, a, b);
    } else {
      NoStepPastEnd(t, c, b, a);
    }
  }

  lemma {:induction false} AgreeUpTo(t: seq<Closeout>, c: nat, a: seq<nat>, b: seq<nat>, n: nat)
    requires IsRestatedRun(t, c, a) && IsRestatedRun(t, c, b)
    requires n <= |a| && n <= |b|
    ensures a[..n] == b[..n]
  {
    if n > 0 {
      AgreeUpTo(t, c, a, b, n - 1);
      SameStand(c, a, b, n - 1);
      assert a[..n] == a[..n - 1] + [a[n - 1]];
      assert b[..n] == b[..n - 1] + [b[n - 1]];
    }
  }

  lemma SameStand(c: nat, a: seq<nat>, b: seq<nat>, n: nat)
    requires n <= |a| && n <= |b| && a[..n] == b[..n]
    ensures At(c, a, n) == At(c, b, n)
  {
    assert n > 0 ==> a[n - 1] == a[..n][n - 1] && b[n - 1] == b[..n][n - 1];
  }

  lemma NoStepPastEnd(t: seq<Closeout>, c: nat, a: seq<nat>, b: seq<nat>)
    requires IsRestatedRun(t, c, a) && IsRestatedRun(t, c, b)
    requires |a| <= |b| && a == b[..|a|]
    ensures a == b
  {
    SameStand(c, a, b, |a|);
  }

  /** `_restated_run` as it is written: a loop with a `seen` set. It ends on
      every `supersedes` graph, cycles included. */
  method RestatedRun(t: seq<Closeout>, c: nat) returns (run: seq<nat>)
    requires c < |t|
    ensures run == Run(t, c)
    ensures IsRestatedRun(t, c, run)
  {
    run := [];
    var seen: set<nat> := {};
    var cur: nat := c;
    while t[cur].supersedes.Some? && t[cur].supersedes.value !in seen
      invariant cur < |t|
      invariant seen <= Ids(t)
      invariant Run(t, c) == run + RunFrom(t, cur, seen)
      decreases Ids(t) - seen
    {
      var next := t[cur].supersedes.value;
      if next >= |t| || !t[cur].restates {
        break;
      }
      assert next in Ids(t) - seen;
      seen := seen + {next};
      run := run + [next];
      cur := next;
    }
    assert RunFrom(t, cur, seen) == [];
    assert run + [] == run;
    RunIsRestatedRun(t, c);
  }

  /** A walk from `cur` that may not visit `seen`. */
  ghost predicate IsRunFrom(t: seq<Closeout>, cur: nat, seen: set<nat>, run: seq<nat>) {
    && cur < |t|
    && (forall i: nat :: i < |run| ==> run[i] < |t| && run[i] !in seen)
    && (forall i: nat {:trigger At(cur, run, i)} :: i < |run| ==> Prior(t, At(cur, run, i)) == Some(run[i]))
    && Distinct(run)
    && (var end := Prior(t, At(cur, run, |run|)); end.Some? ==> end.value in run || end.value in seen)
  }

  lemma {:induction false} RunFromIs(t: seq<Closeout>, cur: nat, seen: set<nat>)
    requires cur < |t|
    ensures IsRunFrom(t, cur, seen, RunFrom(t, cur, seen))
    decreases Ids(t) - seen
  {
    var p := Prior(t, cur);
    if p.Some? && p.value !in seen {
      assert p.value in Ids(t) - seen;
      RunFromIs(t, p.value, seen + {p.value});
      PrependToRun(t, cur, seen, p.value, RunFrom(t, p.value, seen + {p.value}));
    }
  }

  lemma PrependToRun(t: seq<Closeout>, cur: nat, seen: set<nat>, next: nat, rest: seq<nat>)
    requires cur < |t| && Prior(t, cur) == Some(next) && next !in seen
    requires IsRunFrom(t, next, seen + {next}, rest)
    ensures IsRunFrom(t, cur, seen, [next] + rest)
  {
    var run := [next] + rest;
    forall i: nat {:trigger At(cur, run, i)} | i < |run| ensures Prior(t, At(cur, run, i)) == Some(run[i]) {
      if i > 0 {
        assert At(cur, run, i) == At(next, rest, i - 1);
      }
    }
    assert At(cur, run, |run|) == At(next, rest, |rest|);
    assert run[0] == next && forall x :: x in rest ==> x in run;
  }

  lemma RunIsRestatedRun(t: seq<Closeout>, c: nat)
    requires c < |t|
    ensures IsRestatedRun(t, c, Run(t, c))
  {
    RunFromIs(t, c, {});
  }

  lemma RunShape(t: seq<Closeout>, c: nat)
    requires c < |t|
    ensures forall i: nat :: i < |Run(t, c)| ==> Run(t, c)[i] < |t|
    ensures Distinct(Run(t, c))
  {
    RunFromIs(t, c, {});
  }

  // ---------------------------------------------------------------------
  // What live invoices hold
  // ---------------------------------------------------------------------

  /** `closeout_hours_holder`: only a live, non-void invoice holds. */
  function Holder(c: Closeout, live: set<InvoiceId>): Option<InvoiceId> {
    if c.billedBy.Some? && c.billedBy.value in live then c.billedBy else None
  }

  /** `_claim_man_hours` */
  function ClaimManHours(c: Closeout): nat {
    match c.manHoursBilled
    case Some(h) => h
    case None => ManHours(c)
  }

  /** Half hours that live invoices bill for this row. */
  function HeldBy(c: Closeout, live: set<InvoiceId>): nat {
    if Holder(c, live).Some? then ClaimManHours(c) else 0
  }

  function Held(t: seq<Closeout>, live: set<InvoiceId>, ids: seq<nat>): nat
    requires forall i: nat :: i < |ids| ==> ids[i] < |t|
  {
    if ids == [] then 0 else HeldBy(t[ids[0]], live) + Held(t, live, ids[1..])
  }

  /** `closeout_hours_billed_before` */
  function BilledBefore(t: seq<Closeout>, live: set<InvoiceId>, c: nat): nat
    requires c < |t|
  {
    RunShape(t, c);
    Held(t, live, Run(t, c))
  }

  /** `closeout_man_hours_to_bill` */
  function ToBill(t: seq<Closeout>, live: set<InvoiceId>, c: nat): nat
    requires c < |t|
  {
    Max(0, ManHours(t[c]) - BilledBefore(t, live, c))
  }

  /** `closeout_man_hours_left_unbilled` */
  function LeftUnbilled(t: seq<Closeout>, live: set<InvoiceId>, c: nat): nat
    requires c < |t|
  {
    if Holder(t[c], live).None? then 0
    else Max(0, ToBill(t, live, c) - ClaimManHours(t[c]))
  }

  /** The stamp of `claim_closeout_hours`: taken when there is something to bill
      and no live invoice holds the row; it records what the claim bills. */
  predicate Claimable(t: seq<Closeout>, live: set<InvoiceId>, c: nat)
    requires c < |t|
  {
    ToBill(t, live, c) > 0 && Holder(t[c], live).None?
  }

  /** Row `c` stamped as billed by `inv` for `half` half hours. */
  function Stamped(t: seq<Closeout>, c: nat, inv: InvoiceId, half: nat): seq<Closeout>
    requires c < |t|
  {
    t[c := t[c].(billedBy := Some(inv), manHoursBilled := Some(half))]
  }

  function Claim(t: seq<Closeout>, live: set<InvoiceId>, inv: InvoiceId, c: nat): seq<Closeout>
    requires c < |t|
  {
    if Claimable(t, live, c) then Stamped(t, c, inv, ToBill(t, live, c)) else t
  }

  function ReleaseRow(c: Closeout, inv: InvoiceId): Closeout {
    if c.billedBy == Some(inv) then c.(billedBy := None) else c
  }

  /** `release_closeout_hours`: clears the stamps, keeps the recorded figure. */
  function Release(t: seq<Closeout>, inv: InvoiceId): seq<Closeout> {
    Map(t, c => ReleaseRow(c, inv))
  }

  /** The run with the closeout itself in front, and what is held across it. */
  function WholeRun(t: seq<Closeout>, c: nat): seq<nat>
    requires c < |t|
  {
    [c] + Run(t, c)
  }

  function HeldAcross(t: seq<Closeout>, live: set<InvoiceId>, c: nat): nat
    requires c < |t|
  {
    HeldBy(t[c], live) + BilledBefore(t, live, c)
  }

  /** What the code still reports as billable for the newest closeout. */
  function Reported(t: seq<Closeout>, live: set<InvoiceId>, c: nat): nat
    requires c < |t|
  {
    if Holder(t[c], live).None? then ToBill(t, live, c) else LeftUnbilled(t, live, c)
  }

  function MaxAttested(t: seq<Closeout>, ids: seq<nat>): nat
    requires forall i: nat :: i < |ids| ==> ids[i] < |t|
  {
    if ids == [] then 0 else Max(ManHours(t[ids[0]]), MaxAttested(t, ids[1..]))
  }

  // ---------------------------------------------------------------------
  // Facts that hold on every table
  // ---------------------------------------------------------------------

  /** Held hours plus reported hours are the larger of what was attested and
      what is billed, on every table: nothing attested goes unreported. */
  lemma HeldPlusReported(t: seq<Closeout>, live: set<InvoiceId>, c: nat)
    requires c < |t|
    ensures HeldAcross(t, live, c) + Reported(t, live, c)
         == Max(ManHours(t[c]), HeldAcross(t, live, c))
  {
  }

  lemma {:induction false} HeldFrame(
    t: seq<Closeout>, live: set<InvoiceId>, t': seq<Closeout>, live': set<InvoiceId>, ids: seq<nat>)
    requires forall i: nat :: i < |ids| ==> ids[i] < |t| && ids[i] < |t'|
    requires forall i: nat :: i < |ids| ==> HeldBy(t'[ids[i]], live') == HeldBy(t[ids[i]], live)
    ensures Held(t', live', ids) == Held(t, live, ids)
  {
    if ids != [] {
      HeldFrame(t, live, t', live', ids[1..]);
    }
  }

  lemma {:induction false} HeldShrinks(
    t: seq<Closeout>, live: set<InvoiceId>, t': seq<Closeout>, live': set<InvoiceId>, ids: seq<nat>)
    requires forall i: nat :: i < |ids| ==> ids[i] < |t| && ids[i] < |t'|
    requires forall i: nat :: i < |ids| ==> HeldBy(t'[ids[i]], live') <= HeldBy(t[ids[i]], live)
    ensures Held(t', live', ids) <= Held(t, live, ids)
  {
    if ids != [] {
      HeldShrinks(t, live, t', live', ids[1..]);
    }
  }

  ghost predicate SameLinks(t: seq<Closeout>, t': seq<Closeout>) {
    && |t'| == |t|
    && forall i: nat :: i < |t| ==>
         t'[i] == t[i].(billedBy := t'[i].billedBy, manHoursBilled := t'[i].manHoursBilled)
  }

  lemma {:induction false} RunFromFrame(t: seq<Closeout>, t': seq<Closeout>, cur: nat, seen: set<nat>)
    requires SameLinks(t, t') && cur < |t|
    ensures RunFrom(t', cur, seen) == RunFrom(t, cur, seen)
    decreases Ids(t) - seen
  {
    var p := Prior(t, cur);
    assert Prior(t', cur) == p;
    if p.Some? && p.value !in seen {
      assert p.value in Ids(t) - seen;
      RunFromFrame(t, t', p.value, seen + {p.value});
    }
  }

  /** What the stamps of `inv` bill on the rows `ids`: the recorded figure, or the whole
      attested day for a claim from before figures were recorded. */
  function StampedBy(t: seq<Closeout>, inv: InvoiceId, ids: seq<nat>): nat
    requires forall i: nat :: i < |ids| ==> ids[i] < |t|
  {
    if ids == [] then 0
    else
      var row := t[ids[0]];
      var bills := if row.manHoursBilled.Some? then row.manHoursBilled.value else ManHours(row);
      (if row.billedBy == Some(inv) then bills else 0) + StampedBy(t, inv, ids[1..])
  }

  lemma {:induction false} HeldWithout(t: seq<Closeout>, live: set<InvoiceId>, inv: InvoiceId, ids: seq<nat>)
    requires forall i: nat :: i < |ids| ==> ids[i] < |t|
    ensures Held(t, live, ids) == Held(t, live - {inv}, ids) + if inv in live then StampedBy(t, inv, ids) else 0
  {
    if ids != [] {
      HeldWithout(t, live, inv, ids[1..]);
    }
  }

  /** Voiding one invoice gives back exactly what its claims in the run billed, whether or
      not its stamps are cleared. */
  lemma VoidGivesBackItsClaims(t: seq<Closeout>, live: set<InvoiceId>, inv: InvoiceId, c: nat)
    requires c < |t| && inv in live
    ensures forall k: nat :: k < |Run(t, c)| ==> Run(t, c)[k] < |t|
    ensures BilledBefore(t, live, c) - BilledBefore(t, live - {inv}, c) == StampedBy(t, inv, Run(t, c))
  {
    RunShape(t, c);
    HeldWithout(t, live, inv, Run(t, c));
  }

  /** A closeout that a live invoice holds, or that has nothing left to bill, is never
      stamped; any other is, with what is left. */
  lemma ClaimStampsIff(t: seq<Closeout>, live: set<InvoiceId>, inv: InvoiceId, c: nat)
    requires c < |t|
    ensures var t' := Claim(t, live, inv, c); var row := t[c];
      if (row.billedBy.Some? && row.billedBy.value in live) || ManHours(row) <= BilledBefore(t, live, c)
      then t' == t
      else |t'| == |t| && (forall k: nat :: k < |t| && k != c ==> t'[k] == t[k])
           && t'[c] == row.(billedBy := Some(inv), manHoursBilled := Some(ManHours(row) - BilledBefore(t, live, c)))
  {
  }

  /** A claim bills exactly the gap: if the closeout is not part of its own run,
      a successful claim brings what is held across the run to what the closeout
      attests; if it is (a cycle of `supersedes`), the row counts twice and the
      claim overshoots by what it billed. */
  lemma ClaimSettlesTheRun(t: seq<Closeout>, live: set<InvoiceId>, inv: InvoiceId, c: nat)
    requires c < |t| && inv in live && Claimable(t, live, c)
    ensures HeldAcross(Claim(t, live, inv, c), live, c) == ManHours(t[c])
       <==> c !in Run(t, c)
    ensures c !in Run(t, c) ==>
      BilledBefore(Claim(t, live, inv, c), live, c) == BilledBefore(t, live, c)
    ensures c in Run(t, c) ==>
      BilledBefore(Claim(t, live, inv, c), live, c) == ManHours(t[c])
  {
    var t' := Claim(t, live, inv, c);
    var run := Run(t, c);
    RunFromFrame(t, t', c, {});
    RunShape(t, c);
    if c !in run {
      HeldFrame(t, live, t', live, run);
    } else {
      HeldGains(t, live, t', live, c, run);
    }
  }

  lemma {:induction false} HeldGains(
    t: seq<Closeout>, live: set<InvoiceId>, t': seq<Closeout>, live': set<InvoiceId>, c: nat, ids: seq<nat>)
    requires c < |t| && |t'| == |t|
    requires forall i: nat :: i < |ids| ==> ids[i] < |t|
    requires Distinct(ids) && c in ids
    requires forall i: nat :: i < |t| && i != c ==> HeldBy(t'[i], live') == HeldBy(t[i], live)
    ensures Held(t', live', ids) - HeldBy(t'[c], live') == Held(t, live, ids) - HeldBy(t[c], live)
  {
    if ids[0] == c {
      assert c !in ids[1..];
      HeldFrame(t, live, t', live', ids[1..]);
    } else {
      HeldGains(t, live, t', live', c, ids[1..]);
    }
  }

  /** A closeout in its own run: one row that supersedes itself. The claim is made,
      and then counts against the closeout it was made for. */
  const SelfRestating := [Closeout(100, 1, Some(0), true, None, None)]

  lemma SelfRestatingOvershoots()
    ensures Claimable(SelfRestating, {7}, 0)
    ensures HeldAcross(Claim(SelfRestating, {7}, 7, 0), {7}, 0) == 2 * ManHours(SelfRestating[0]) == 4
  {
    var t := SelfRestating;
    assert Run(t, 0) == [0] by {
      assert RunFrom(t, 0, {0}) == [] && {} + {0} == {0};
    }
    assert BilledBefore(t, {7}, 0) == HeldBy(t[0], {7}) + Held(t, {7}, []);
    ClaimSettlesTheRun(t, {7}, 7, 0);
  }

  // ---------------------------------------------------------------------
  // Tables that `closeout_job` writes: each row supersedes the one before it
  // ---------------------------------------------------------------------

  ghost predicate Linear(t: seq<Closeout>) {
    forall i: nat :: i < |t| ==> t[i].supersedes == if i == 0 then None else Some(i - 1)
  }

  /** The row `closeout_job` writes: it points at the current row, and restates it
      exactly when the job was still completed. */
  function NextRow(t: seq<Closeout>, hoursWorked: int, techsOnSite: int, stillCompleted: bool): Closeout {
    Closeout(hoursWorked, techsOnSite, if t == [] then None else Some(|t| - 1), t != [] && stillCompleted, None, None)
  }

  lemma {:induction false} RunGoesDown(t: seq<Closeout>, i: nat, seen: set<nat>)
    requires Linear(t) && i < |t|
    requires forall x :: x in seen ==> x >= i
    ensures RunFrom(t, i, seen) == RunFrom(t, i, {})
    ensures forall k: nat :: k < |RunFrom(t, i, seen)| ==> RunFrom(t, i, seen)[k] < i
    decreases i
  {
    if i > 0 && t[i].restates {
      RunGoesDown(t, i - 1, seen + {i - 1});
      RunGoesDown(t, i - 1, {i - 1});
      assert {} + {i - 1} == {i - 1};
    }
  }

  lemma RunStep(t: seq<Closeout>, i: nat)
    requires Linear(t) && i < |t|
    ensures Run(t, i) == if i > 0 && t[i].restates then WholeRun(t, i - 1) else []
    ensures forall k: nat :: k < |Run(t, i)| ==> Run(t, i)[k] < i
  {
    RunGoesDown(t, i, {});
    if i > 0 && t[i].restates {
      RunGoesDown(t, i - 1, {i - 1});
      assert {} + {i - 1} == {i - 1};
    }
  }

  lemma {:induction false} RunOfPrefix(t: seq<Closeout>, row: Closeout, i: nat)
    requires Linear(t) && Linear(t + [row]) && i < |t|
    ensures Run(t + [row], i) == Run(t, i)
  {
    RunStep(t, i);
    RunStep(t + [row], i);
    if i > 0 {
      RunOfPrefix(t, row, i - 1);
    }
  }

  /** Row `c` is in the run of row `d`, its own included: every row from there up to `d`
      restates the one before it. */
  predicate InRun(t: seq<Closeout>, c: nat, d: nat)
    requires d < |t|
    decreases d
  {
    c == d || (c < d && t[d].restates && InRun(t, c, d - 1))
  }

  lemma {:induction false} InRunIs(t: seq<Closeout>, c: nat, d: nat)
    requires Linear(t) && d < |t|
    ensures InRun(t, c, d) <==> c in WholeRun(t, d)
    decreases d
  {
    RunStep(t, d);
    if c < d {
      InRunIs(t, c, d - 1);
    }
  }

  lemma {:induction false} InRunFrame(t: seq<Closeout>, t': seq<Closeout>, c: nat, d: nat)
    requires d < |t| && d < |t'| && forall k: nat :: k <= d ==> t'[k].restates == t[k].restates
    ensures InRun(t', c, d) <==> InRun(t, c, d)
    decreases d
  {
    if c < d {
      InRunFrame(t, t', c, d - 1);
    }
  }

  /** The largest attestation in the run, the closeout's own included. */
  function Largest(t: seq<Closeout>, c: nat): nat
    requires c < |t|
  {
    RunShape(t, c);
    MaxAttested(t, WholeRun(t, c))
  }

  /** What a run holds and attests, one row further. */
  lemma AcrossStep(t: seq<Closeout>, live: set<InvoiceId>, d: nat)
    requires Linear(t) && d < |t|
    ensures var on := d > 0 && t[d].restates;
      && HeldAcross(t, live, d) == HeldBy(t[d], live) + (if on then HeldAcross(t, live, d - 1) else 0)
      && Largest(t, d) == Max(ManHours(t[d]), if on then Largest(t, d - 1) else 0)
  {
    RunStep(t, d);
    RunShape(t, d);
    assert WholeRun(t, d)[1..] == Run(t, d);
    assert Largest(t, d) == Max(ManHours(t[d]), MaxAttested(t, Run(t, d)));
    if d > 0 && t[d].restates {
      RunShape(t, d - 1);
      assert WholeRun(t, d - 1)[1..] == Run(t, d - 1);
    }
  }

  /** No run holds more than the largest attestation in it. */
  predicate Covered(t: seq<Closeout>, live: set<InvoiceId>, i: nat)
    requires i < |t|
  {
    HeldAcross(t, live, i) <= Largest(t, i)
  }

  lemma {:induction false} AcrossFrame(
    t: seq<Closeout>, live: set<InvoiceId>, t': seq<Closeout>, live': set<InvoiceId>, d: nat)
    requires Linear(t) && Linear(t') && d < |t| && d < |t'|
    requires forall k: nat :: k <= d ==> SameAttestation(t[k], t'[k])
    requires forall k: nat :: k <= d && k in WholeRun(t, d) ==> HeldBy(t'[k], live') == HeldBy(t[k], live)
    ensures WholeRun(t', d) == WholeRun(t, d)
    ensures HeldAcross(t', live', d) == HeldAcross(t, live, d) && Largest(t', d) == Largest(t, d)
  {
    RunStep(t, d);
    if d > 0 && t[d].restates {
      assert forall k :: k in WholeRun(t, d - 1) ==> k in WholeRun(t, d);
      AcrossFrame(t, live, t', live', d - 1);
    }
    assert d in WholeRun(t, d) && SameAttestation(t[d], t'[d]);
    RunStep(t', d);
    AcrossStep(t, live, d);
    AcrossStep(t', live', d);
  }

  predicate SameAttestation(a: Closeout, b: Closeout) { a.restates == b.restates && ManHours(a) == ManHours(b) }

  lemma {:induction false} CoveredAfterShrink(
    t: seq<Closeout>, live: set<InvoiceId>, t': seq<Closeout>, live': set<InvoiceId>, d: nat)
    requires Linear(t) && Linear(t') && |t| == |t'| && d < |t|
    requires forall k: nat :: k <= d ==> SameAttestation(t[k], t'[k]) && HeldBy(t'[k], live') <= HeldBy(t[k], live)
    ensures HeldAcross(t', live', d) <= HeldAcross(t, live, d) && Largest(t', d) == Largest(t, d)
    ensures Covered(t, live, d) ==> Covered(t', live', d)
  {
    AcrossStep(t, live, d);
    AcrossStep(t', live', d);
    assert SameAttestation(t[d], t'[d]);
    if d > 0 {
      CoveredAfterShrink(t, live, t', live', d - 1);
    }
  }

  lemma CoveredAfterCloseOut(t: seq<Closeout>, live: set<InvoiceId>, row: Closeout, d: nat)
    requires Linear(t) && Linear(t + [row]) && row.billedBy.None? && d <= |t|
    requires forall k: nat :: k < |t| ==> Covered(t, live, k)
    ensures Covered(t + [row], live, d)
  {
    if d < |t| {
      AcrossFrame(t, live, t + [row], live, d);
      assert Covered(t, live, d);
    } else {
      AcrossStep(t + [row], live, d);
      if d > 0 {
        AcrossFrame(t, live, t + [row], live, d - 1);
        assert Covered(t, live, d - 1);
      }
    }
  }
}
