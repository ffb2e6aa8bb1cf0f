/**
 * What a build puts on an invoice, line by line, and which drafts the machine may
 * touch: each fact said on the rows and fields themselves.
 */
module DraftLines {
  import opened Basics
  import opened Closeouts
  import opened LaborPricing
  import opened Autodraft
  import FirstHour

  // ---------------------------------------------------------------------
  // Parts
  // ---------------------------------------------------------------------

  /** An allowed source, not dismissed, not billed, a price above 0 and no recorded
      quantity of 0 or less. */
  predicate IsDue(p: Part) {
    && p.billableSource && !p.wontBill && p.billedBy == None
    && p.unitPrice.Some? && p.unitPrice.value > 0
    && (p.quantity.Some? ==> p.quantity.value > 0)
  }

  /** The line of a part: its own quantity, 1 if none is recorded, at its own price. */
  predicate IsLineOf(l: Line, p: Part, taxable: bool) {
    && p.unitPrice.Some? && l.unit == p.unitPrice.value
    && l.qty == (if p.quantity.Some? then p.quantity.value else 1)
    && l.total == l.qty * l.unit && l.taxable == taxable
  }

  function LinesOfPart(lines: seq<Line>, k: nat): nat {
    if lines == [] then 0
    else LinesOfPart(lines[..|lines| - 1], k) + if lines[|lines| - 1].kind == PartOf(k) then 1 else 0
  }

  lemma OneMoreLine(lines: seq<Line>, l: Line, k: nat)
    ensures LinesOfPart(lines + [l], k) == LinesOfPart(lines, k) + if l.kind == PartOf(k) then 1 else 0
  {
    assert (lines + [l])[..|lines|] == lines;
  }

  /** Each part that is due has exactly one line, with its quantity, price and their
      product; no other part has a line. */
  lemma PartLinesAre(parts: seq<Part>, taxable: bool, n: nat, k: nat)
    requires n <= |parts|
    ensures LinesOfPart(PartLines(parts, taxable, n), k) == if k < n && IsDue(parts[k]) then 1 else 0
    ensures forall l :: l in PartLines(parts, taxable, n) ==>
      l.kind.PartOf? && l.kind.id < n && IsDue(parts[l.kind.id]) && IsLineOf(l, parts[l.kind.id], taxable)
  {
    PartLinesCount(parts, taxable, n, k);
    forall l | l in PartLines(parts, taxable, n)
      ensures l.kind.PartOf? && l.kind.id < n && IsDue(parts[l.kind.id]) && IsLineOf(l, parts[l.kind.id], taxable)
    {
      EachPartLine(parts, taxable, n, l);
    }
  }

  lemma {:induction false} PartLinesCount(parts: seq<Part>, taxable: bool, n: nat, k: nat)
    requires n <= |parts|
    ensures LinesOfPart(PartLines(parts, taxable, n), k) == if k < n && IsDue(parts[k]) then 1 else 0
    decreases n
  {
    if n > 0 {
      var m := n - 1;
      PartLinesCount(parts, taxable, m, k);
      var before, more := PartLines(parts, taxable, m), PartLine(m, parts[m], taxable);
      NextPartCounts(before, m, parts[m], taxable, k);
      PartLinesNext(parts, taxable, m, before, more);
    }
  }

  lemma PartLinesNext(parts: seq<Part>, taxable: bool, m: nat, before: seq<Line>, more: seq<Line>)
    requires m < |parts| && before == PartLines(parts, taxable, m) && more == PartLine(m, parts[m], taxable)
    ensures PartLines(parts, taxable, m + 1) == before + more
  {
  }

  lemma NextPartCounts(before: seq<Line>, m: nat, p: Part, taxable: bool, k: nat)
    ensures LinesOfPart(before + PartLine(m, p, taxable), k)
         == LinesOfPart(before, k) + if k == m && IsDue(p) then 1 else 0
  {
    DueIsBilled(m, p, taxable);
    AddsAtMostOne(before, PartLine(m, p, taxable), k);
  }

  lemma AddsAtMostOne(before: seq<Line>, more: seq<Line>, k: nat)
    requires more == [] || more == [more[0]]
    ensures LinesOfPart(before + more, k)
         == LinesOfPart(before, k) + if more != [] && more[0].kind == PartOf(k) then 1 else 0
  {
    if more == [] {
      assert before + more == before;
    } else {
      OneMoreLine(before, more[0], k);
    }
  }

  lemma {:induction false} EachPartLine(parts: seq<Part>, taxable: bool, n: nat, l: Line)
    requires n <= |parts| && l in PartLines(parts, taxable, n)
    ensures l.kind.PartOf? && l.kind.id < n && IsDue(parts[l.kind.id]) && IsLineOf(l, parts[l.kind.id], taxable)
    decreases n
  {
    DueIsBilled(n - 1, parts[n - 1], taxable);
    if l !in PartLine(n - 1, parts[n - 1], taxable) {
      EachPartLine(parts, taxable, n - 1, l);
    }
  }

  lemma DueIsBilled(k: nat, p: Part, taxable: bool)
    ensures if IsDue(p) then
              var lines := PartLine(k, p, taxable);
              |lines| == 1 && lines == [lines[0]] && lines[0].kind == PartOf(k) && IsLineOf(lines[0], p, taxable)
            else PartLine(k, p, taxable) == []
  {
  }

  /** A build stamps exactly the parts that are due, and leaves every other part alone. */
  lemma BuildStampsDueParts(db: Db, inv: InvoiceId, c: nat, s: Setting, k: nat)
    requires c < |db.closeouts| && inv < |db.invoices| && k < |db.parts|
    ensures |Build(db, inv, c, s).parts| == |db.parts|
    ensures Build(db, inv, c, s).parts[k] ==
      if IsDue(db.parts[k]) then db.parts[k].(billedBy := Some(inv)) else db.parts[k]
  {
  }

  // ---------------------------------------------------------------------
  // Day rows
  // ---------------------------------------------------------------------

  /** One person's attested minutes of a closed day. */
  predicate Counts(r: DayRow) { r.dayClosed && r.clockedOut && !r.deleted && r.minutes > 0 }

  /** A service build stamps exactly the free rows that count; no other lane stamps any. */
  lemma BuildStampsFreeDays(db: Db, inv: InvoiceId, c: nat, s: Setting, k: nat)
    requires c < |db.closeouts| && inv < |db.invoices| && k < |db.day|
    ensures |Build(db, inv, c, s).day| == |db.day|
    ensures Build(db, inv, c, s).day[k] ==
      if s.lane.Service? && Counts(db.day[k]) && db.day[k].billedBy == None
      then db.day[k].(billedBy := Some(inv)) else db.day[k]
  {
  }

  /** An invoice holds the minutes of the rows that count and name it. */
  lemma {:induction false} HeldMinutesAre(day: seq<DayRow>, r: DayRow, inv: InvoiceId)
    ensures HeldMinutes([], inv) == 0
    ensures HeldMinutes(day + [r], inv)
         == HeldMinutes(day, inv) + if Counts(r) && r.billedBy == Some(inv) then r.minutes else 0
  {
    if day == [] {
      assert [] + [r] == [r] && [r][1..] == [];
    } else {
      HeldMinutesAre(day[1..], r, inv);
      assert (day + [r])[1..] == day[1..] + [r];
    }
  }

  // ---------------------------------------------------------------------
  // Labor
  // ---------------------------------------------------------------------

  predicate IsLaborLine(l: Line, p: LaborLine, taxable: bool) {
    && l.kind == (if p.firstHour then FirstHourLabor else HourlyLabor)
    && l.qty == p.qty && l.unit == p.unit && l.total == p.total
    && l.taxable == taxable && l.machine && !l.deleted
  }

  /** The lines a build adds: in the service lane the priced labor, line by line; in the
      install lane one piece at the flat price, if there is one; in the office lane none;
      and behind them, in every lane, the part lines. */
  lemma NewLinesAre(db: Db, inv: InvoiceId, c: nat, s: Setting)
    requires c < |db.closeouts|
    ensures var lines := NewLines(db, inv, c, s); var parts := PartLines(db.parts, s.partsTaxable, |db.parts|);
      |parts| <= |lines| && lines[|lines| - |parts|..] == parts
    ensures var labor := LaborBuilt(db, inv, c, s); NewLines(db, inv, c, s)[..|labor|] == labor
    ensures s.lane.Service? ==>
      var labor, priced := LaborBuilt(db, inv, c, s), LaborPriced(Stamp(db, inv, c), inv, c, s);
      |labor| == |priced| && forall m: nat :: m < |labor| ==> IsLaborLine(labor[m], priced[m], s.laborTaxable)
    ensures s.lane.Install? && s.lane.flatPrice.Some? && s.lane.flatPrice.value > 0 ==>
      var labor := LaborBuilt(db, inv, c, s);
      && |labor| == 1 && labor[0].kind == InstallLabor && labor[0].qty == 1 && labor[0].unit == s.lane.flatPrice.value
      && labor[0].total == s.lane.flatPrice.value && labor[0].taxable == s.laborTaxable
    ensures (s.lane.Install? && (s.lane.flatPrice.None? || s.lane.flatPrice.value == 0)) || s.lane.Office? ==>
      LaborBuilt(db, inv, c, s) == []
  {
    var labor := LaborBuilt(db, inv, c, s);
    assert NewLines(db, inv, c, s) == labor + PartLines(db.parts, s.partsTaxable, |db.parts|);
  }

  /** A line another invoice's attested labor is read from: live, on a live invoice. */
  predicate IsAttestedLine(db: Db, inv: InvoiceId, a: nat, l: Line) {
    && a < |db.invoices| && a != inv && !db.invoices[a].deleted && db.invoices[a].status != VoidStatus
    && l in db.invoices[a].lines && !l.deleted && (l.kind == FirstHourLabor || l.kind == HourlyLabor)
  }

  function ReadAs(l: Line, created: int): SiblingLine {
    SiblingLine(l.kind == FirstHourLabor, l.qty, l.unit, Some(created))
  }

  /** Beside which lines a build prices: the live attested labor lines of the job's other
      live invoices, and no others. */
  lemma SiblingsAre(db: Db, inv: InvoiceId, rates: Rates, r: SiblingLine)
    ensures r in FirstHour.Siblings(JobOf(db, rates), inv) <==>
      exists a: nat, l :: IsAttestedLine(db, inv, a, l) && r == ReadAs(l, db.invoices[a].created)
  {
    var invs := JobOf(db, rates).invoices;
    if r in FirstHour.Siblings(JobOf(db, rates), inv) {
      var a, p := FirstHour.OthersFrom(invs, inv, |invs|, r);
      var l := LaborLineFrom(db.invoices[a].lines, p);
      assert IsAttestedLine(db, inv, a, l);
    }
    if a: nat, l :| IsAttestedLine(db, inv, a, l) && r == ReadAs(l, db.invoices[a].created) {
      LaborLineIn(db.invoices[a].lines, l);
      FirstHour.OthersHas(invs, inv, |invs|, a, AsLabor(l));
    }
  }

  lemma LaborLineFrom(lines: seq<Line>, p: LaborLine) returns (l: Line)
    requires p in Map(Filter(lines, x => Attested(x)), x => AsLabor(x))
    ensures l in lines && !l.deleted && (l.kind == FirstHourLabor || l.kind == HourlyLabor) && p == AsLabor(l)
  {
    var kept := Filter(lines, x => Attested(x));
    var k: nat :| k < |kept| && Map(kept, x => AsLabor(x))[k] == p;
    l := kept[k];
    assert l in kept;
  }

  lemma LaborLineIn(lines: seq<Line>, l: Line)
    requires l in lines && !l.deleted && (l.kind == FirstHourLabor || l.kind == HourlyLabor)
    ensures AsLabor(l) in Map(Filter(lines, x => Attested(x)), x => AsLabor(x))
  {
    var kept := Filter(lines, x => Attested(x));
    assert l in kept;
    var k: nat :| k < |kept| && kept[k] == l;
    assert Map(kept, x => AsLabor(x))[k] == AsLabor(l);
  }

  /** The hours such lines of one invoice bill. */
  function AttestedHours(lines: seq<Line>): int {
    if lines == [] then 0
    else
      var counts := !lines[0].deleted && (lines[0].kind == FirstHourLabor || lines[0].kind == HourlyLabor);
      (if counts then lines[0].qty else 0) + AttestedHours(lines[1..])
  }

  function OtherHours(db: Db, inv: InvoiceId, n: nat): int
    requires n <= |db.invoices|
  {
    if n == 0 then 0
    else
      var v := db.invoices[n - 1];
      OtherHours(db, inv, n - 1)
      + if n - 1 != inv && !v.deleted && v.status != VoidStatus then AttestedHours(v.lines) else 0
  }

  lemma {:induction false} AttestedHoursAre(lines: seq<Line>)
    ensures TotalQty(Map(Filter(lines, l => Attested(l)), l => AsLabor(l))) == AttestedHours(lines)
  {
    var kept := Filter(lines, l => Attested(l));
    if lines == [] {
      assert Map(Map(kept, l => AsLabor(l)), l => LineQty(l)) == [];
    } else {
      AttestedHoursAre(lines[1..]);
      var rest := Filter(lines[1..], l => Attested(l));
      if Attested(lines[0]) {
        assert Map(kept, l => AsLabor(l)) == [AsLabor(lines[0])] + Map(rest, l => AsLabor(l));
        FirstHour.QtyConcat([AsLabor(lines[0])], Map(rest, l => AsLabor(l)));
        TwoLines(AsLabor(lines[0]), AsLabor(lines[0]));
      }
    }
  }

  /** And the hours that count toward the floor are theirs. */
  lemma SiblingHoursAre(db: Db, inv: InvoiceId, rates: Rates)
    ensures Hours(FirstHour.Siblings(JobOf(db, rates), inv)) == OtherHours(db, inv, |db.invoices|)
  {
    OtherHoursAre(db, inv, JobOf(db, rates).invoices, |db.invoices|);
  }

  lemma {:induction false} OtherHoursAre(db: Db, inv: InvoiceId, invs: seq<FirstHour.Invoice>, n: nat)
    requires n <= |db.invoices| == |invs| && forall k: nat :: k < |invs| ==> invs[k] == AsFirstHour(db.invoices[k])
    ensures Hours(FirstHour.Others(invs, inv, n)) == OtherHours(db, inv, n)
    decreases n
  {
    if n == 0 {
      NoLinesNoHours(FirstHour.Others(invs, inv, 0));
    } else {
      OtherHoursAre(db, inv, invs, n - 1);
      FirstHour.OthersStep(invs, inv, n);
      InvoiceHoursAre(db.invoices[n - 1]);
    }
  }

  lemma NoLinesNoHours(rows: seq<SiblingLine>)
    requires rows == []
    ensures Hours(rows) == 0
  {
    assert Map(rows, l => Qty(l)) == [];
  }

  lemma InvoiceHoursAre(v: Invoice)
    ensures FirstHour.LiveQty(AsFirstHour(v))
         == if !v.deleted && v.status != VoidStatus then AttestedHours(v.lines) else 0
  {
    AttestedHoursAre(v.lines);
  }

  // ---------------------------------------------------------------------
  // Tax
  // ---------------------------------------------------------------------

  /** The tax is the nearest cent to the rate on the taxable amount, even on ties, and 0
      without a rate. */
  lemma TaxIsNearest(taxable: nat, rate: Option<nat>)
    ensures rate.None? || rate == Some(0) ==> TaxOn(taxable, rate) == 0
    ensures rate.Some? ==>
      var exact, tax := taxable * rate.value, TaxOn(taxable, rate);
      && 2_000_000 * tax - 1_000_000 <= 2 * exact <= 2_000_000 * tax + 1_000_000
      && (2 * exact == 2_000_000 * tax + 1_000_000 || 2 * exact == 2_000_000 * tax - 1_000_000 ==> tax % 2 == 0)
  {
    if rate.Some? && rate.value > 0 {
      HalfEvenIsNearest(taxable * rate.value, 1_000_000);
    }
  }

  /** Only taxable lines are taxed, each at its whole total. */
  lemma TaxableAdds(lines: seq<Line>, l: Line)
    ensures SumTaxable([]) == 0 && SumTotals([]) == 0
    ensures SumTaxable(lines + [l]) == SumTaxable(lines) + if l.taxable then l.total else 0
    ensures SumTotals(lines + [l]) == SumTotals(lines) + l.total
  {
    assert (lines + [l])[..|lines|] == lines;
  }

  // ---------------------------------------------------------------------
  // Whose draft it is
  // ---------------------------------------------------------------------

  /** A person moved the draft on: past draft, verified, sent, locked or paid, or with a
      live line the machine did not write; or it was never the machine's. */
  ghost predicate IsTouched(v: Invoice) {
    || !v.autodraft || v.status != Draft || v.verified || v.sent || v.locked || v.paidAt || v.paidToDate != 0
    || exists l :: l in v.lines && !l.deleted && !l.machine
  }

  /** A touched or deleted draft is never emptied, and nothing it holds is given back; any
      other is emptied to zero and holds nothing afterwards. */
  lemma ReleaseEmptiesIff(db: Db, inv: InvoiceId)
    requires inv < |db.invoices|
    ensures var v := db.invoices[inv]; var after := ReleaseUntouched(db, inv);
      if IsTouched(v) || v.deleted then after == db
      else
        && |after.invoices| == |db.invoices| && HoldsNothing(after, inv)
        && after.invoices[inv] == v.(lines := [], subtotal := 0, tax := 0, total := 0, balance := 0)
        && (forall i: nat :: i < |db.invoices| && i != inv ==> after.invoices[i] == db.invoices[i])
  {
    var v := db.invoices[inv];
    assert Untouched(v) <==> !IsTouched(v);
    if !IsTouched(v) && !v.deleted {
      var after := ReleaseUntouched(db, inv);
      forall i: nat | i < |db.day| ensures after.day[i].billedBy != Some(inv) {
        assert after.day[i] == ReleaseDay(db.day[i], inv);
      }
      forall i: nat | i < |db.parts| ensures after.parts[i].billedBy != Some(inv) {
        assert after.parts[i] == ReleasePart(db.parts[i], inv);
      }
      forall i: nat | i < |db.closeouts| ensures after.closeouts[i].billedBy != Some(inv) {
        assert after.closeouts[i] == ReleaseRow(db.closeouts[i], inv);
      }
    }
  }

  /** A void keeps the draft's lines and takes its balance; the draft holds nothing
      afterwards, and no other invoice changes. */
  lemma VoidDraftIs(db: Db, inv: InvoiceId)
    requires inv < |db.invoices|
    ensures var after := VoidDraft(db, inv);
      && |after.invoices| == |db.invoices| && HoldsNothing(after, inv)
      && after.invoices[inv].status == VoidStatus && after.invoices[inv].balance == 0
      && after.invoices[inv].lines == db.invoices[inv].lines && after.invoices[inv].total == db.invoices[inv].total
      && (forall i: nat :: i < |db.invoices| && i != inv ==> after.invoices[i] == db.invoices[i])
  {
    var after := VoidDraft(db, inv);
    forall i: nat | i < |db.day| ensures after.day[i].billedBy != Some(inv) {
      assert after.day[i] == ReleaseDay(db.day[i], inv);
    }
    forall i: nat | i < |db.parts| ensures after.parts[i].billedBy != Some(inv) {
      assert after.parts[i] == ReleasePart(db.parts[i], inv);
    }
    forall i: nat | i < |db.closeouts| ensures after.closeouts[i].billedBy != Some(inv) {
      assert after.closeouts[i] == ReleaseRow(db.closeouts[i], inv);
    }
  }

  /** The machine neither empties nor voids a draft a person has touched. */
  lemma TouchedDraftsStay(db: Db, inv: InvoiceId)
    requires inv < |db.invoices| && IsTouched(db.invoices[inv])
    ensures Machine(db, ReleaseStep(inv)) == db && Machine(db, VoidStep(inv)) == db
  {
    ReleaseEmptiesIff(db, inv);
    assert !Untouched(db.invoices[inv]);
  }

  /** Where a live invoice exists nothing is drafted; otherwise the draft that is kept has
      its number, is untouched, and its totals are those of its lines. */
  lemma NewDraftIs(db: Db, c: nat, s: Setting, number: nat, created: int)
    requires c < |db.closeouts|
    ensures (exists i: nat :: i < |db.invoices| && !db.invoices[i].deleted && db.invoices[i].status != VoidStatus) ==>
      NewDraft(db, c, s, number, created) == db
    ensures var after := NewDraft(db, c, s, number, created);
      |after.invoices| != |db.invoices| ==>
        && |after.invoices| == |db.invoices| + 1
        && var v := after.invoices[|db.invoices|];
           && v.number == number && v.created == created && !IsTouched(v) && !v.deleted && v.lines != []
           && v.subtotal == SumTotals(v.lines) && v.total == v.subtotal + v.tax && v.balance == v.total
           && v.tax == TaxOn(SumTaxable(v.lines), s.taxRate)
  {
    var inv := |db.invoices|;
    var drafted := db.(invoices := db.invoices + [FreshDraft(number, created)]);
    if i: nat :| i < |db.invoices| && !db.invoices[i].deleted && db.invoices[i].status != VoidStatus {
      assert i in LiveIds(db.invoices);
    } else {
      assert ReadyDraft(drafted.invoices[inv]);
      BuiltDraftIsUntouched(drafted, inv, c, s);
      TotalsAddUp(drafted, inv, c, s);
    }
  }
}
