/**
 * The billing operations as they run against the database: each method changes
 * rows in place and is proved against the function that says what it means.
 */
module BillingStore {
  import opened Basics
  import opened Closeouts
  import opened LaborPricing
  import opened Autodraft
  import FirstHour

  class Store {
    var day: seq<DayRow>
    var closeouts: seq<Closeout>
    var parts: seq<Part>
    var invoices: seq<Invoice>

    constructor ()
      ensures View() == Db([], [], [], [])
    {
      day, closeouts, parts, invoices := [], [], [], [];
    }

    function View(): Db
      reads this
    {
      Db(day, closeouts, parts, invoices)
    }

    /** `claim_day_rows` on the job's unbilled day rows: free rows only. */
    method ClaimDayRows(inv: InvoiceId) returns (stamped: nat)
      modifies this`day
      ensures day == Map(old(day), r => ClaimDay(r, inv))
      ensures stamped == 0 <==> day == old(day)
      ensures forall k: nat :: k < |day| ==>
        var r := old(day)[k];
        var free := r.dayClosed && r.clockedOut && !r.deleted && r.minutes > 0 && r.billedBy == None;
        day[k] == if free then r.(billedBy := Some(inv)) else r
    {
      stamped := 0;
      var k := 0;
      while k < |day|
        invariant 0 <= k <= |day| == |old(day)|
        invariant forall i :: 0 <= i < k ==> day[i] == ClaimDay(old(day)[i], inv)
        invariant forall i :: k <= i < |day| ==> day[i] == old(day)[i]
        invariant stamped == 0 <==> forall i :: 0 <= i < k ==> day[i] == old(day)[i]
      {
        if IsDayRow(day[k]) && day[k].billedBy.None? {
          day := day[k := day[k].(billedBy := Some(inv))];
          stamped := stamped + 1;
        }
        k := k + 1;
      }
    }

    /** `held_day_rows`, summed as `job_labor_lines` sums them. */
    method HeldDayMinutes(inv: InvoiceId) returns (minutes: nat)
      ensures minutes == HeldMinutes(day, inv)
    {
      minutes := 0;
      var k := |day|;
      while k > 0
        invariant 0 <= k <= |day|
        invariant minutes == HeldMinutes(day[k..], inv)
      {
        k := k - 1;
        assert day[k..][1..] == day[k + 1..];
        if IsDayRow(day[k]) && day[k].billedBy == Some(inv) {
          minutes := minutes + day[k].minutes;
        }
      }
      assert day[0..] == day;
    }

    /** `claim_closeout_hours` */
    method ClaimCloseoutHours(inv: InvoiceId, c: nat) returns (stamped: bool)
      requires c < |closeouts|
      modifies this`closeouts
      ensures stamped == old(Claimable(closeouts, LiveIds(invoices), c))
      ensures closeouts == Claim(old(closeouts), LiveIds(invoices), inv, c)
    {
      var live := LiveIds(invoices);
      var toBill := ToBill(closeouts, live, c);
      if !(toBill > 0) {
        return false;
      }
      var held := closeouts[c].billedBy.Some? && closeouts[c].billedBy.value in live;
      if !held {
        closeouts := closeouts[c := closeouts[c].(billedBy := Some(inv), manHoursBilled := Some(toBill))];
      }
      stamped := !held;
    }

    /** `release_day_rows`: day rows and closeout hours go back together. */
    method ReleaseDayRows(inv: InvoiceId)
      modifies this`day, this`closeouts
      ensures day == Map(old(day), r => ReleaseDay(r, inv))
      ensures closeouts == Release(old(closeouts), inv)
      ensures forall k: nat :: k < |day| ==> day[k].billedBy != Some(inv)
      ensures forall k: nat :: k < |closeouts| ==> closeouts[k].billedBy != Some(inv)
      ensures forall k: nat :: k < |day| && old(day)[k].billedBy != Some(inv) ==> day[k] == old(day)[k]
      ensures forall k: nat :: k < |closeouts| && old(closeouts)[k].billedBy != Some(inv) ==>
        closeouts[k] == old(closeouts)[k]
      ensures forall k: nat :: k < |day| ==> day[k].minutes == old(day)[k].minutes
      ensures forall k: nat :: k < |closeouts| ==> closeouts[k].manHoursBilled == old(closeouts)[k].manHoursBilled
    {
      closeouts := Release(closeouts, inv);
      day := Map(day, r => ReleaseDay(r, inv));
    }

    /** The part loop of `build_closeout_lines`: claim, then line. */
    method ClaimAndLineParts(inv: InvoiceId, taxable: bool) returns (lines: seq<Line>, total: nat, taxed: nat)
      modifies this`parts
      ensures parts == Map(old(parts), p => ClaimPart(p, inv))
      ensures lines == PartLines(old(parts), taxable, |old(parts)|)
      ensures total == SumTotals(lines) && taxed == SumTaxable(lines)
    {
      lines, total, taxed := [], 0, 0;
      ghost var was := parts;
      var k := 0;
      while k < |parts|
        invariant 0 <= k <= |parts| == |was|
        invariant forall i :: 0 <= i < k ==> parts[i] == ClaimPart(was[i], inv)
        invariant forall i :: k <= i < |parts| ==> parts[i] == was[i]
        invariant lines == PartLines(was, taxable, k)
        invariant total == SumTotals(lines) && taxed == SumTaxable(lines)
      {
        var p := parts[k];
        if BillablePart(p) {
          parts := parts[k := p.(billedBy := Some(inv))];
          lines, total, taxed := LinePart(was, k, p, taxable, lines, total, taxed);
        } else {
          NoLineForPart(was, taxable, k);
        }
        k := k + 1;
      }
    }

    /** The service lane of `build_closeout_lines`: claim first, then price what is held. */
    method BuildServiceLabor(inv: InvoiceId, c: nat, s: Setting) returns (labor: seq<LaborLine>)
      requires c < |closeouts|
      modifies this`day, this`closeouts
      ensures View() == Stamp(old(View()), inv, c)
      ensures labor == LaborPriced(Stamp(old(View()), inv, c), inv, c, s)
    {
      var _ := ClaimDayRows(inv);
      var _ := ClaimCloseoutHours(inv, c);
      assert View() == Stamp(old(View()), inv, c);
      var minutes := HeldDayMinutes(inv);
      labor := PriceHeldLabor(View(), minutes, inv, c, s);
    }

    /** `build_closeout_lines` */
    method BuildCloseoutLines(inv: InvoiceId, c: nat, s: Setting) returns (added: nat, total: nat, taxed: nat)
      requires c < |closeouts| && inv < |invoices|
      modifies this
      ensures View() == Build(old(View()), inv, c, s)
      ensures var lines := NewLines(old(View()), inv, c, s);
        added == |lines| && total == SumTotals(lines) && taxed == SumTaxable(lines)
    {
      var lines := [];
      if s.lane.Install? && s.lane.flatPrice.Some? && s.lane.flatPrice.value > 0 {
        var price := s.lane.flatPrice.value;
        lines := [Line(InstallLabor, 1, price, price, s.laborTaxable, true, false)];
      }
      if s.lane.Service? {
        var labor := BuildServiceLabor(inv, c, s);
        lines := Map(labor, l => LaborAsLine(l, s.laborTaxable));
      }
      total, taxed := AddUp(lines);
      var partLines, partTotal, partTaxed := ClaimAndLineParts(inv, s.partsTaxable);
      JoinLines(lines, partLines);
      lines := lines + partLines;
      added, total, taxed := |lines|, total + partTotal, taxed + partTaxed;
      invoices := invoices[inv := invoices[inv].(lines := invoices[inv].lines + lines)];
    }

    /** `release_untouched_autodraft`, on the draft the query picked. */
    method ReleaseUntouchedAutodraft(inv: InvoiceId) returns (mine: bool)
      requires inv < |invoices|
      modifies this
      ensures mine == old(Live(invoices[inv]) && Untouched(invoices[inv]))
      ensures View() == ReleaseUntouched(old(View()), inv)
    {
      mine := Live(invoices[inv]) && Untouched(invoices[inv]);
      if mine {
        parts := Map(parts, p => ReleasePart(p, inv));
        ReleaseDayRows(inv);
        invoices := invoices[inv := Emptied(invoices[inv])];
      }
    }

    /** `void_untouched_autodraft`: everything the draft claimed goes back, then it is void. */
    method VoidUntouchedAutodraft(inv: InvoiceId)
      requires inv < |invoices|
      modifies this
      ensures View() == VoidDraft(old(View()), inv)
      ensures HoldsNothing(View(), inv)
    {
      parts := Map(parts, p => ReleasePart(p, inv));
      ReleaseDayRows(inv);
      invoices := invoices[inv := invoices[inv].(status := VoidStatus, balance := 0)];
    }

    /** `autodraft_invoice_for_closeout`. `eligible`: billable job, a customer, no
        accepted estimate. */
    method AutodraftForCloseout(c: nat, s: Setting, reuse: Option<InvoiceId>, eligible: bool, number: nat, created: int)
      returns (draft: Option<InvoiceId>)
      requires c < |closeouts| && (reuse.Some? ==> reuse.value < |invoices|)
      modifies this
      ensures !eligible ==> draft.None? && View() == old(View())
      ensures eligible && reuse.Some? ==> draft == reuse && View() == Rebuild(old(View()), reuse.value, c, s)
      ensures eligible && reuse.None? ==> View() == NewDraft(old(View()), c, s, number, created)
      ensures eligible && reuse.None? && draft.None? ==> |invoices| == |old(invoices)|
      ensures eligible && reuse.None? && draft.Some? ==> draft.value == |old(invoices)| == |invoices| - 1
    {
      draft := None;
      if !eligible {
        return;
      }
      var inv: InvoiceId;
      if reuse.Some? {
        inv := reuse.value;
      } else {
        if LiveIds(invoices) != {} {
          return;
        }
        inv := |invoices|;
        invoices := invoices + [FreshDraft(number, created)];
      }
      ghost var drafted := View();
      var added, total, taxed := BuildCloseoutLines(inv, c, s);
      if added == 0 && reuse.None? {
        invoices := invoices[..inv];
        DroppedInvoices(drafted, inv, c, s);
        return;
      }
      invoices := invoices[inv := Totalled(invoices[inv], total, TaxOn(taxed, s.taxRate), s.taxRate)];
      draft := Some(inv);
    }
  }

  /** Prices what `inv` holds now, beside the job's other invoices. */
  method PriceHeldLabor(db: Db, minutes: nat, inv: InvoiceId, c: nat, s: Setting) returns (labor: seq<LaborLine>)
    requires c < |db.closeouts| && minutes == HeldMinutes(db.day, inv)
    ensures labor == LaborPriced(db, inv, c, s)
  {
    var offered := OfferedHalf(db.closeouts, LiveIds(db.invoices), c, inv);
    var siblings := FirstHour.Siblings(JobOf(db, s.rates), inv);
    LaborPricedIs(db, inv, c, s, offered + RowsMan(minutes), siblings);
    labor := LinesBeside(siblings, offered, minutes, s.rates);
  }

  /** The labor lines for offered half hours and held minutes beside the siblings' lines. */
  method LinesBeside(siblings: seq<SiblingLine>, offered: nat, minutes: nat, rates: Rates)
    returns (labor: seq<LaborLine>)
    ensures labor == LaborLines(offered + RowsMan(minutes), Carried(siblings, rates), Hours(siblings), rates)
  {
    var charged, elsewhere := FirstHourElsewhere(siblings, rates);
    labor := JobLaborLines(true, offered, minutes, charged, elsewhere, rates);
  }

  lemma LaborPricedIs(db: Db, inv: InvoiceId, c: nat, s: Setting, half: nat, siblings: seq<SiblingLine>)
    requires c < |db.closeouts| && half == LaborHalf(db, inv, c)
    requires siblings == FirstHour.Siblings(JobOf(db, s.rates), inv)
    ensures LaborPriced(db, inv, c, s) == LaborLines(half, Carried(siblings, s.rates), Hours(siblings), s.rates)
  {
  }

  /** One more line, and the running totals with it. */
  method AddLineTo(before: seq<Line>, totalBefore: nat, taxedBefore: nat, line: Line)
    returns (lines: seq<Line>, total: nat, taxed: nat)
    requires totalBefore == SumTotals(before) && taxedBefore == SumTaxable(before)
    ensures lines == before + [line] && total == SumTotals(lines) && taxed == SumTaxable(lines)
  {
    AddLine(before, line);
    lines, total, taxed := before + [line], totalBefore + line.total, taxedBefore;
    if line.taxable {
      taxed := taxed + line.total;
    }
  }

  /** The line of a claimed part; `was` are the part rows before the loop. */
  method LinePart(ghost was: seq<Part>, k: nat, p: Part, taxable: bool,
                  before: seq<Line>, totalBefore: nat, taxedBefore: nat)
    returns (lines: seq<Line>, total: nat, taxed: nat)
    requires k < |was| && was[k] == p && BillablePart(p) && before == PartLines(was, taxable, k)
    requires totalBefore == SumTotals(before) && taxedBefore == SumTaxable(before)
    ensures lines == PartLines(was, taxable, k + 1) && total == SumTotals(lines) && taxed == SumTaxable(lines)
  {
    lines, total, taxed := AddLineTo(before, totalBefore, taxedBefore, LineForPart(k, p, taxable));
  }

  lemma NoLineForPart(parts: seq<Part>, taxable: bool, k: nat)
    requires k < |parts| && !BillablePart(parts[k])
    ensures PartLines(parts, taxable, k + 1) == PartLines(parts, taxable, k)
  {
    assert PartLines(parts, taxable, k) + [] == PartLines(parts, taxable, k);
  }

  /** The running totals the builder keeps beside its labor lines. */
  method AddUp(lines: seq<Line>) returns (total: nat, taxed: nat)
    ensures total == SumTotals(lines) && taxed == SumTaxable(lines)
  {
    total, taxed := 0, 0;
    var done: seq<Line> := [];
    for k := 0 to |lines|
      invariant done == lines[..k] && total == SumTotals(done) && taxed == SumTaxable(done)
    {
      done, total, taxed := AddLineTo(done, total, taxed, lines[k]);
    }
    assert lines[..|lines|] == lines;
  }

  lemma AddLine(lines: seq<Line>, line: Line)
    ensures SumTotals(lines + [line]) == SumTotals(lines) + line.total
    ensures SumTaxable(lines + [line]) == SumTaxable(lines) + if line.taxable then line.total else 0
  {
    assert (lines + [line])[..|lines|] == lines;
  }

  lemma {:induction false} JoinLines(a: seq<Line>, b: seq<Line>)
    ensures SumTotals(a + b) == SumTotals(a) + SumTotals(b)
    ensures SumTaxable(a + b) == SumTaxable(a) + SumTaxable(b)
    decreases |b|
  {
    if b == [] {
      assert a + b == a;
    } else {
      var front, last := b[..|b| - 1], b[|b| - 1];
      JoinLines(a, front);
      AddLine(front, last);
      AddLine(a + front, last);
      assert front + [last] == b;
      assert a + front + [last] == a + b;
    }
  }

  lemma DroppedInvoices(db: Db, inv: InvoiceId, c: nat, s: Setting)
    requires c < |db.closeouts| && inv < |db.invoices|
    ensures Rebuild(db, inv, c, s).invoices[..inv] == Build(db, inv, c, s).invoices[..inv]
  {
  }
}
