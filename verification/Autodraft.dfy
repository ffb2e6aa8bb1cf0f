/**
 * The builder that prices a closeout into invoice lines, and the machine-owned
 * draft around it: claim, price, release, rebuild, drop.
 *
 * One job's rows. Labor quantities are hundredths of an hour, part quantities
 * are pieces, money is cents, the tax rate is in millionths.
 */
module Autodraft {
  import opened Basics
  import opened Closeouts
  import opened LaborPricing
  import FirstHour

  datatype DayRow = DayRow(dayClosed: bool, clockedOut: bool, deleted: bool, minutes: int, billedBy: Option<InvoiceId>)

  datatype Part = Part(billableSource: bool, wontBill: bool, unitPrice: Option<int>, quantity: Option<int>,
                       billedBy: Option<InvoiceId>)

  datatype Kind = FirstHourLabor | HourlyLabor | InstallLabor | PartOf(id: nat) | OtherLine

  /** `machine`: the line's source says the builder wrote it. */
  datatype Line = Line(kind: Kind, qty: nat, unit: nat, total: nat, taxable: bool, machine: bool, deleted: bool)

  datatype Invoice = Invoice(
    number: nat, autodraft: bool, status: Status, deleted: bool, created: int,
    verified: bool, sent: bool, locked: bool, paidAt: bool, paidToDate: int,
    lines: seq<Line>, subtotal: nat, tax: nat, total: nat, balance: nat, taxRate: Option<nat>)

  datatype Db = Db(day: seq<DayRow>, closeouts: seq<Closeout>, parts: seq<Part>, invoices: seq<Invoice>)

  datatype Lane = Service | Install(flatPrice: Option<nat>) | Office

  /** What the builder reads beside the rows: lane, rates, tax flags. */
  datatype Setting = Setting(lane: Lane, rates: Rates, laborTaxable: bool, partsTaxable: bool, taxRate: Option<nat>)

  predicate Live(v: Invoice) { Standing(v.status, v.deleted) }

  function LiveIds(invs: seq<Invoice>): (live: set<InvoiceId>)
    ensures forall i :: i in live <==> 0 <= i < |invs| && Live(invs[i])
  {
    set i | 0 <= i < |invs| && Live(invs[i])
  }

  // ---------------------------------------------------------------------
  // Day rows and parts
  // ---------------------------------------------------------------------

  predicate IsDayRow(r: DayRow) { r.dayClosed && r.clockedOut && !r.deleted && r.minutes > 0 }

  function ClaimDay(r: DayRow, inv: InvoiceId): DayRow {
    if IsDayRow(r) && r.billedBy.None? then r.(billedBy := Some(inv)) else r
  }

  function ReleaseDay(r: DayRow, inv: InvoiceId): DayRow {
    if r.billedBy == Some(inv) then r.(billedBy := None) else r
  }

  function HeldMinutesOf(r: DayRow, inv: InvoiceId): nat {
    if IsDayRow(r) && r.billedBy == Some(inv) then r.minutes else 0
  }

  function HeldMinutes(day: seq<DayRow>, inv: InvoiceId): nat {
    if day == [] then 0 else HeldMinutesOf(day[0], inv) + HeldMinutes(day[1..], inv)
  }

  function RecordedQuantity(p: Part): int { if p.quantity.None? then 1 else p.quantity.value }

  predicate BillablePart(p: Part) {
    && p.billableSource && !p.wontBill && p.billedBy.None?
    && p.unitPrice.Some? && p.unitPrice.value > 0
    && RecordedQuantity(p) > 0
  }

  function ClaimPart(p: Part, inv: InvoiceId): Part {
    if BillablePart(p) then p.(billedBy := Some(inv)) else p
  }

  function ReleasePart(p: Part, inv: InvoiceId): Part {
    if p.billedBy == Some(inv) then p.(billedBy := None) else p
  }

  function LineForPart(k: nat, p: Part, taxable: bool): Line
    requires BillablePart(p)
  {
    var qty, unit := RecordedQuantity(p), p.unitPrice.value;
    Line(PartOf(k), qty, unit, unit * qty, taxable, true, false)
  }

  function PartLine(k: nat, p: Part, taxable: bool): seq<Line> {
    if BillablePart(p) then [LineForPart(k, p, taxable)] else []
  }

  /** Lines for the first `n` part rows. */
  function PartLines(parts: seq<Part>, taxable: bool, n: nat): seq<Line>
    requires n <= |parts|
  {
    if n == 0 then [] else PartLines(parts, taxable, n - 1) + PartLine(n - 1, parts[n - 1], taxable)
  }

  // ---------------------------------------------------------------------
  // Labor
  // ---------------------------------------------------------------------

  /** The half hours `job_labor_lines` offers invoice `inv` for the closeout. */
  function OfferedHalf(t: seq<Closeout>, live: set<InvoiceId>, c: nat, inv: InvoiceId): nat
    requires c < |t|
  {
    var h := Holder(t[c], live);
    if h.Some? && h.value != inv then 0 else ToBill(t, live, c)
  }

  predicate Attested(l: Line) { !l.deleted && (l.kind.FirstHourLabor? || l.kind.HourlyLabor?) }

  function AsLabor(l: Line): LaborLine { LaborLine(l.kind.FirstHourLabor?, l.qty, l.unit, l.total) }

  /** The invoice as `first_hour_elsewhere` reads it. */
  function AsFirstHour(v: Invoice): FirstHour.Invoice {
    FirstHour.Invoice(Map(Filter(v.lines, l => Attested(l)), l => AsLabor(l)), Live(v), v.created)
  }

  function JobOf(db: Db, rates: Rates): FirstHour.Job {
    FirstHour.Job(Map(db.invoices, v => AsFirstHour(v)), rates)
  }

  function LaborAsLine(l: LaborLine, taxable: bool): Line {
    Line(if l.firstHour then FirstHourLabor else HourlyLabor, l.qty, l.unit, l.total, taxable, true, false)
  }

  function LaborHalf(db: Db, inv: InvoiceId, c: nat): nat
    requires c < |db.closeouts|
  {
    OfferedHalf(db.closeouts, LiveIds(db.invoices), c, inv) + RowsMan(HeldMinutes(db.day, inv))
  }

  function Stamp(db: Db, inv: InvoiceId, c: nat): Db
    requires c < |db.closeouts|
  {
    db.(day := Map(db.day, r => ClaimDay(r, inv)),
        closeouts := Claim(db.closeouts, LiveIds(db.invoices), inv, c))
  }

  function LaborPriced(db: Db, inv: InvoiceId, c: nat, s: Setting): seq<LaborLine>
    requires c < |db.closeouts|
  {
    FirstHour.BuiltLines(JobOf(db, s.rates), inv, LaborHalf(db, inv, c))
  }

  /** The rows after the labor claims of `build_closeout_lines`, and its labor lines. */
  function AfterLabor(db: Db, inv: InvoiceId, c: nat, s: Setting): Db
    requires c < |db.closeouts|
  {
    if s.lane.Service? then Stamp(db, inv, c) else db
  }

  function LaborBuilt(db: Db, inv: InvoiceId, c: nat, s: Setting): seq<Line>
    requires c < |db.closeouts|
  {
    match s.lane
    case Service => Map(LaborPriced(Stamp(db, inv, c), inv, c, s), l => LaborAsLine(l, s.laborTaxable))
    case Install(price) =>
      if price.Some? && price.value > 0
      then [Line(InstallLabor, 1, price.value, price.value, s.laborTaxable, true, false)]
      else []
    case Office => []
  }

  function NewLines(db: Db, inv: InvoiceId, c: nat, s: Setting): seq<Line>
    requires c < |db.closeouts|
  {
    LaborBuilt(db, inv, c, s) + PartLines(db.parts, s.partsTaxable, |db.parts|)
  }

  function WithInvoice(db: Db, inv: InvoiceId, v: Invoice): Db
    requires inv < |db.invoices|
  {
    db.(invoices := db.invoices[inv := v])
  }

  /** `build_closeout_lines` */
  function Build(db: Db, inv: InvoiceId, c: nat, s: Setting): Db
    requires c < |db.closeouts| && inv < |db.invoices|
  {
    var v := db.invoices[inv];
    WithInvoice(AfterLabor(db, inv, c, s).(parts := Map(db.parts, p => ClaimPart(p, inv))),
                inv, v.(lines := v.lines + NewLines(db, inv, c, s)))
  }

  function SumTotals(lines: seq<Line>): nat {
    if lines == [] then 0 else SumTotals(lines[..|lines| - 1]) + lines[|lines| - 1].total
  }

  function SumTaxable(lines: seq<Line>): nat {
    if lines == [] then 0
    else SumTaxable(lines[..|lines| - 1]) + if lines[|lines| - 1].taxable then lines[|lines| - 1].total else 0
  }

  function TaxOn(taxable: nat, rate: Option<nat>): nat {
    if rate.Some? && rate.value > 0 then HalfEven(taxable * rate.value, 1_000_000) else 0
  }

  /** The draft's totals, set by `autodraft_invoice_for_closeout` from what the builder returned. */
  function Totalled(v: Invoice, total: nat, tax: nat, rate: Option<nat>): Invoice {
    var w := v.(taxRate := rate);
    if total > 0 then w.(subtotal := total, tax := tax, total := total + tax, balance := total + tax) else w
  }

  /** Build into `inv` and set its totals. */
  function Rebuild(db: Db, inv: InvoiceId, c: nat, s: Setting): Db
    requires c < |db.closeouts| && inv < |db.invoices|
  {
    var lines := NewLines(db, inv, c, s);
    var built := Build(db, inv, c, s);
    var tax := TaxOn(SumTaxable(lines), s.taxRate);
    WithInvoice(built, inv, Totalled(built.invoices[inv], SumTotals(lines), tax, s.taxRate))
  }

  predicate HumanLine(l: Line) { !l.deleted && !l.machine }

  /** `is_untouched_autodraft`, asked with the database. */
  predicate Untouched(v: Invoice) {
    && v.autodraft && v.status == Draft && !v.verified && !v.sent && !v.locked && !v.paidAt
    && v.paidToDate == 0
    && forall l :: l in v.lines ==> !HumanLine(l)
  }

  function ReleaseAll(db: Db, inv: InvoiceId): Db {
    db.(day := Map(db.day, r => ReleaseDay(r, inv)),
        closeouts := Release(db.closeouts, inv),
        parts := Map(db.parts, p => ReleasePart(p, inv)))
  }

  function Emptied(v: Invoice): Invoice {
    v.(lines := [], subtotal := 0, tax := 0, total := 0, balance := 0)
  }

  /** `release_untouched_autodraft` on the draft the query picked. */
  function ReleaseUntouched(db: Db, inv: InvoiceId): Db
    requires inv < |db.invoices|
  {
    if Live(db.invoices[inv]) && Untouched(db.invoices[inv])
    then WithInvoice(ReleaseAll(db, inv), inv, Emptied(db.invoices[inv]))
    else db
  }

  /** `void_untouched_autodraft`, on a draft the caller found untouched. */
  function VoidDraft(db: Db, inv: InvoiceId): Db
    requires inv < |db.invoices|
  {
    WithInvoice(ReleaseAll(db, inv), inv, db.invoices[inv].(status := VoidStatus, balance := 0))
  }

  function FreshDraft(number: nat, created: int): Invoice {
    Invoice(number, true, Draft, false, created, false, false, false, false, 0, [], 0, 0, 0, 0, None)
  }

  /** `autodraft_invoice_for_closeout` for an eligible job with nothing to reuse. */
  function NewDraft(db: Db, c: nat, s: Setting, number: nat, created: int): Db
    requires c < |db.closeouts|
  {
    var inv := |db.invoices|;
    var drafted := db.(invoices := db.invoices + [FreshDraft(number, created)]);
    if LiveIds(db.invoices) != {} then db
    else
      var built := Rebuild(drafted, inv, c, s);
      if NewLines(drafted, inv, c, s) == [] then built.(invoices := built.invoices[..inv])
      else built
  }

  // ---------------------------------------------------------------------
  // What a build claims is what it prices
  // ---------------------------------------------------------------------

  predicate HoldsNothing(db: Db, inv: InvoiceId) {
    && (forall i: nat :: i < |db.day| ==> db.day[i].billedBy != Some(inv))
    && (forall i: nat :: i < |db.closeouts| ==> db.closeouts[i].billedBy != Some(inv))
    && (forall i: nat :: i < |db.parts| ==> db.parts[i].billedBy != Some(inv))
  }

  /** Half hours a build stamped: what the claim recorded, plus its day rows rounded once. */
  function ClaimedHalf(db: Db, inv: InvoiceId, c: nat): nat
    requires c < |db.closeouts|
  {
    (if db.closeouts[c].billedBy == Some(inv) then ClaimManHours(db.closeouts[c]) else 0)
    + RowsMan(HeldMinutes(db.day, inv))
  }

  /** The labor a service build offers itself is the labor it stamped, unless the
      closeout is part of its own run; then a stamped closeout prices nothing. */
  lemma OfferIsTheClaim(db: Db, inv: InvoiceId, c: nat)
    requires c < |db.closeouts| && inv < |db.invoices| && Live(db.invoices[inv]) && HoldsNothing(db, inv)
    ensures var after := Stamp(db, inv, c);
      && (c !in Run(db.closeouts, c) ==> LaborHalf(after, inv, c) == ClaimedHalf(after, inv, c))
      && (c in Run(db.closeouts, c) ==> LaborHalf(after, inv, c) == RowsMan(HeldMinutes(after.day, inv)))
      && (after.closeouts[c].billedBy == Some(inv) ==> ClaimManHours(after.closeouts[c]) > 0)
  {
    var live := LiveIds(db.invoices);
    var t := db.closeouts;
    if Claimable(t, live, c) {
      ClaimSettlesTheRun(t, live, inv, c);
    } else if c in Run(t, c) && Holder(t[c], live).None? {
      assert ToBill(t, live, c) == 0;
    }
  }

  /** Building on an invoice that holds no stamps prices exactly what it claimed:
      the labor quantity is the stamped man-hours plus the held minutes rounded
      up once, or the job's floor if that is higher. */
  lemma BuildPricesWhatItClaims(db: Db, inv: InvoiceId, c: nat, s: Setting)
    requires c < |db.closeouts| && inv < |db.invoices| && Live(db.invoices[inv]) && HoldsNothing(db, inv)
    requires s.lane.Service? && c !in Run(db.closeouts, c)
    ensures var after := Build(db, inv, c, s); var priced := LaborPriced(Stamp(db, inv, c), inv, c, s);
      var siblings := FirstHour.Siblings(JobOf(db, s.rates), inv);
      && TotalQty(priced) == BilledQty(ClaimedHalf(after, inv, c), Carried(siblings, s.rates), Hours(siblings))
      && BillsOrFloor(TotalQty(priced), ClaimedHalf(after, inv, c), Carried(siblings, s.rates), Hours(siblings))
      && (priced == [] <==> ClaimedHalf(after, inv, c) == 0)
      && after.invoices[inv].lines[|db.invoices[inv].lines|..] == NewLines(db, inv, c, s)
      && NewLines(db, inv, c, s)[..|priced|] == Map(priced, l => LaborAsLine(l, s.laborTaxable))
  {
    OfferIsTheClaim(db, inv, c);
    PricedByTheClaim(Stamp(db, inv, c), inv, c, s);
    assert JobOf(Stamp(db, inv, c), s.rates) == JobOf(db, s.rates);
    LinesAreAppended(db, inv, c, s);
  }

  lemma PricedByTheClaim(db: Db, inv: InvoiceId, c: nat, s: Setting)
    requires c < |db.closeouts|
    ensures var siblings := FirstHour.Siblings(JobOf(db, s.rates), inv); var half := LaborHalf(db, inv, c);
      && TotalQty(LaborPriced(db, inv, c, s)) == BilledQty(half, Carried(siblings, s.rates), Hours(siblings))
      && BillsOrFloor(TotalQty(LaborPriced(db, inv, c, s)), half, Carried(siblings, s.rates), Hours(siblings))
      && (LaborPriced(db, inv, c, s) == [] <==> half == 0)
  {
    var siblings := FirstHour.Siblings(JobOf(db, s.rates), inv);
    LaborLinesBillThePrice(LaborHalf(db, inv, c), Carried(siblings, s.rates), Hours(siblings), s.rates);
    LaborLinesBillTheHours(LaborHalf(db, inv, c), Carried(siblings, s.rates), Hours(siblings), s.rates);
  }

  lemma LinesAreAppended(db: Db, inv: InvoiceId, c: nat, s: Setting)
    requires c < |db.closeouts| && inv < |db.invoices| && s.lane.Service?
    ensures Build(db, inv, c, s).invoices[inv].lines[|db.invoices[inv].lines|..] == NewLines(db, inv, c, s)
    ensures var priced := LaborPriced(Stamp(db, inv, c), inv, c, s); var lines := NewLines(db, inv, c, s);
      |priced| <= |lines| && lines[..|priced|] == Map(priced, l => LaborAsLine(l, s.laborTaxable))
  {
  }

  lemma {:induction false} NoMinutesHeld(day: seq<DayRow>, inv: InvoiceId, i: nat)
    requires i < |day| && HeldMinutes(day, inv) == 0
    ensures HeldMinutesOf(day[i], inv) == 0
  {
    if i > 0 {
      NoMinutesHeld(day[1..], inv, i - 1);
    }
  }

  lemma {:induction false} NoPartLines(parts: seq<Part>, taxable: bool, n: nat, i: nat)
    requires i < n <= |parts| && PartLines(parts, taxable, n) == []
    ensures !BillablePart(parts[i])
  {
    if i < n - 1 {
      NoPartLines(parts, taxable, n - 1, i);
    }
  }

  lemma NoLaborNoStamps(db: Db, inv: InvoiceId, c: nat, s: Setting)
    requires c < |db.closeouts| && inv < |db.invoices| && Live(db.invoices[inv]) && HoldsNothing(db, inv)
    requires c !in Run(db.closeouts, c) && s.lane.Service?
    requires LaborPriced(Stamp(db, inv, c), inv, c, s) == []
    ensures Stamp(db, inv, c) == db
  {
    var after := Stamp(db, inv, c);
    OfferIsTheClaim(db, inv, c);
    assert LaborHalf(after, inv, c) == 0;
    forall i: nat | i < |db.day| ensures after.day[i] == db.day[i] {
      NoMinutesHeld(after.day, inv, i);
      assert after.day[i] == ClaimDay(db.day[i], inv);
    }
    assert after.day == db.day;
  }

  lemma NoPartLinesNoStamps(parts: seq<Part>, taxable: bool, inv: InvoiceId)
    requires PartLines(parts, taxable, |parts|) == []
    ensures Map(parts, p => ClaimPart(p, inv)) == parts
  {
    forall i: nat | i < |parts| ensures ClaimPart(parts[i], inv) == parts[i] {
      NoPartLines(parts, taxable, |parts|, i);
    }
  }

  /** A build that writes no line stamps nothing. */
  lemma NoLinesNoStamps(db: Db, inv: InvoiceId, c: nat, s: Setting)
    requires c < |db.closeouts| && inv < |db.invoices| && Live(db.invoices[inv]) && HoldsNothing(db, inv)
    requires c !in Run(db.closeouts, c)
    requires NewLines(db, inv, c, s) == []
    ensures Build(db, inv, c, s) == db
  {
    NoPartLinesNoStamps(db.parts, s.partsTaxable, inv);
    assert LaborBuilt(db, inv, c, s) == [];
    if s.lane.Service? {
      NoLaborNoStamps(db, inv, c, s);
    }
    var v := db.invoices[inv];
    assert v.lines + [] == v.lines;
    assert v.(lines := v.lines) == v;
  }

  /** A new draft that is dropped for having no lines leaves no trace: no day
      row, closeout or part stays stamped. A kept one has a line. */
  lemma DroppedDraftLeavesNoTrace(db: Db, c: nat, s: Setting, number: nat, created: int)
    requires c < |db.closeouts| && HoldsNothing(db, |db.invoices|) && c !in Run(db.closeouts, c)
    ensures var done := NewDraft(db, c, s, number, created);
      if |done.invoices| == |db.invoices| then done == db
      else done.invoices[|db.invoices|].lines != []
  {
    var inv := |db.invoices|;
    var drafted := db.(invoices := db.invoices + [FreshDraft(number, created)]);
    if LiveIds(db.invoices) == {} && NewLines(drafted, inv, c, s) == [] {
      NoLinesNoStamps(drafted, inv, c, s);
      assert Rebuild(drafted, inv, c, s).invoices[..inv] == db.invoices;
    }
  }

  // ---------------------------------------------------------------------
  // Release undoes a build, and a rebuild redoes it
  // ---------------------------------------------------------------------

  /** A draft ready to be built into: the machine's, empty, with zero totals. */
  predicate ReadyDraft(v: Invoice) {
    v == Emptied(v) && Untouched(v) && Live(v)
  }

  lemma BuiltDraftIsUntouched(db: Db, inv: InvoiceId, c: nat, s: Setting)
    requires c < |db.closeouts| && inv < |db.invoices| && ReadyDraft(db.invoices[inv])
    ensures var v := Rebuild(db, inv, c, s).invoices[inv];
      Untouched(v) && Live(v) && v.lines == NewLines(db, inv, c, s)
  {
    assert db.invoices[inv].lines == [];
    AllMachine(db, inv, c, s);
  }

  lemma AllMachine(db: Db, inv: InvoiceId, c: nat, s: Setting)
    requires c < |db.closeouts|
    ensures forall l :: l in NewLines(db, inv, c, s) ==> l.machine && !l.deleted
  {
    PartLinesMachine(db.parts, s.partsTaxable, |db.parts|);
  }

  lemma {:induction false} PartLinesMachine(parts: seq<Part>, taxable: bool, n: nat)
    requires n <= |parts|
    ensures forall l :: l in PartLines(parts, taxable, n) ==> l.machine && !l.deleted
  {
    if n > 0 {
      PartLinesMachine(parts, taxable, n - 1);
    }
  }

  lemma LiveUnchanged(a: seq<Invoice>, b: seq<Invoice>)
    requires |a| == |b| && forall i: nat :: i < |a| ==> Live(a[i]) == Live(b[i])
    ensures LiveIds(a) == LiveIds(b)
  {
    assert forall i :: i in LiveIds(a) <==> i in LiveIds(b);
  }

  lemma DayRoundTrip(day: seq<DayRow>, inv: InvoiceId)
    requires forall i: nat :: i < |day| ==> day[i].billedBy != Some(inv)
    ensures Map(Map(day, r => ClaimDay(r, inv)), r => ReleaseDay(r, inv)) == day
    ensures Map(day, r => ReleaseDay(r, inv)) == day
  {
  }

  lemma PartRoundTrip(parts: seq<Part>, inv: InvoiceId)
    requires forall i: nat :: i < |parts| ==> parts[i].billedBy != Some(inv)
    ensures Map(Map(parts, p => ClaimPart(p, inv)), p => ReleasePart(p, inv)) == parts
  {
  }

  /** Releasing a claim frees the closeout; claiming it again takes the same hours. */
  lemma ClaimRoundTrip(t: seq<Closeout>, live: set<InvoiceId>, inv: InvoiceId, c: nat)
    requires c < |t| && inv in live
    requires forall i: nat :: i < |t| ==> t[i].billedBy != Some(inv)
    ensures var released := Release(Claim(t, live, inv, c), inv);
      && SameLinks(t, released)
      && (forall i: nat :: i < |t| ==>
            released[i].billedBy != Some(inv) && HeldBy(released[i], live) == HeldBy(t[i], live))
      && Claim(released, live, inv, c) == Claim(t, live, inv, c)
    ensures Release(t, inv) == t
  {
    var claimed := Claim(t, live, inv, c);
    var released := Release(claimed, inv);
    assert Release(t, inv) == t;
    if Claimable(t, live, c) {
      RunFromFrame(t, released, c, {});
      RunShape(t, c);
      HeldFrame(t, live, released, live, Run(t, c));
      assert Claim(released, live, inv, c) == claimed;
    } else {
      assert released == t;
    }
  }

  lemma ReleasedDraft(db: Db, inv: InvoiceId, c: nat, s: Setting)
    requires c < |db.closeouts| && inv < |db.invoices|
    requires ReadyDraft(db.invoices[inv]) && HoldsNothing(db, inv)
    ensures var built := Rebuild(db, inv, c, s); var released := ReleaseUntouched(built, inv);
      && |built.invoices| == |db.invoices| && |built.closeouts| == |db.closeouts|
      && released.day == db.day && released.parts == db.parts
      && SameLinks(db.closeouts, released.closeouts)
      && HoldsNothing(released, inv)
      && released.invoices == db.invoices[inv := db.invoices[inv].(taxRate := s.taxRate)]
      && released.closeouts == Release(AfterLabor(db, inv, c, s).closeouts, inv)
  {
    BuiltDraftIsUntouched(db, inv, c, s);
    DayRoundTrip(db.day, inv);
    PartRoundTrip(db.parts, inv);
    LiveUnchanged(db.invoices, db.invoices);
    ClaimRoundTrip(db.closeouts, LiveIds(db.invoices), inv, c);
    var built := Rebuild(db, inv, c, s);
    var v := db.invoices[inv];
    assert Emptied(built.invoices[inv]) == v.(taxRate := s.taxRate);
  }

  lemma SameLabor(a: Db, b: Db, inv: InvoiceId, c: nat, s: Setting)
    requires c < |a.closeouts| && a.closeouts == b.closeouts && a.day == b.day
    requires LiveIds(a.invoices) == LiveIds(b.invoices)
    requires JobOf(a, s.rates) == JobOf(b, s.rates)
    ensures LaborPriced(a, inv, c, s) == LaborPriced(b, inv, c, s)
  {
    assert LaborHalf(a, inv, c) == LaborHalf(b, inv, c);
  }

  lemma SameOffer(a: Db, b: Db, inv: InvoiceId, c: nat, s: Setting)
    requires c < |a.closeouts| && c < |b.closeouts| && |a.invoices| == |b.invoices|
    requires Stamp(a, inv, c).closeouts == Stamp(b, inv, c).closeouts
    requires LiveIds(a.invoices) == LiveIds(b.invoices)
    requires a.day == b.day && a.parts == b.parts
    requires forall i: nat :: i < |a.invoices| ==> AsFirstHour(a.invoices[i]) == AsFirstHour(b.invoices[i])
    ensures NewLines(a, inv, c, s) == NewLines(b, inv, c, s)
  {
    assert JobOf(a, s.rates).invoices == JobOf(b, s.rates).invoices;
    assert JobOf(Stamp(a, inv, c), s.rates) == JobOf(Stamp(b, inv, c), s.rates);
    SameLabor(Stamp(a, inv, c), Stamp(b, inv, c), inv, c, s);
    assert LaborBuilt(a, inv, c, s) == LaborBuilt(b, inv, c, s);
  }

  /** Releasing an untouched draft and rebuilding it from unchanged inputs
      restores every claim, line and total, under the same number. */
  lemma RebuildRestores(db: Db, inv: InvoiceId, c: nat, s: Setting)
    requires c < |db.closeouts| && inv < |db.invoices|
    requires ReadyDraft(db.invoices[inv]) && HoldsNothing(db, inv)
    ensures var built := Rebuild(db, inv, c, s); var released := ReleaseUntouched(built, inv);
      && |released.closeouts| == |db.closeouts| && |released.invoices| == |db.invoices|
      && Rebuild(released, inv, c, s) == built
      && built.invoices[inv].number == db.invoices[inv].number
  {
    var released := ReleaseUntouched(Rebuild(db, inv, c, s), inv);
    ReleasedDraft(db, inv, c, s);
    LiveUnchanged(db.invoices, released.invoices);
    ClaimRoundTrip(db.closeouts, LiveIds(db.invoices), inv, c);
    SameOffer(db, released, inv, c, s);
    SameRebuild(db, released, inv, c, s);
  }

  lemma SameRebuild(a: Db, b: Db, inv: InvoiceId, c: nat, s: Setting)
    requires c < |a.closeouts| && c < |b.closeouts| && inv < |a.invoices|
    requires a.day == b.day && a.parts == b.parts && NewLines(a, inv, c, s) == NewLines(b, inv, c, s)
    requires AfterLabor(a, inv, c, s).closeouts == AfterLabor(b, inv, c, s).closeouts
    requires b.invoices == a.invoices[inv := a.invoices[inv].(taxRate := s.taxRate)]
    ensures Rebuild(b, inv, c, s) == Rebuild(a, inv, c, s)
  {
    RebuildIs(a, inv, c, s, NewLines(a, inv, c, s));
    RebuildIs(b, inv, c, s, NewLines(a, inv, c, s));
    SameFilledDraft(a.invoices[inv], NewLines(a, inv, c, s), s.taxRate);
  }

  /** The draft with its lines and totals. */
  function Filled(v: Invoice, lines: seq<Line>, rate: Option<nat>): Invoice {
    Totalled(v.(lines := v.lines + lines), SumTotals(lines), TaxOn(SumTaxable(lines), rate), rate)
  }

  lemma SameFilledDraft(v: Invoice, lines: seq<Line>, rate: Option<nat>)
    ensures Filled(v.(taxRate := rate), lines, rate) == Filled(v, lines, rate)
  {
    SameTotalled(v.(lines := v.lines + lines), SumTotals(lines), TaxOn(SumTaxable(lines), rate), rate);
  }

  lemma SameTotalled(v: Invoice, total: nat, tax: nat, rate: Option<nat>)
    ensures Totalled(v.(taxRate := rate), total, tax, rate) == Totalled(v, total, tax, rate)
  {
  }

  lemma RebuildIs(db: Db, inv: InvoiceId, c: nat, s: Setting, lines: seq<Line>)
    requires c < |db.closeouts| && inv < |db.invoices| && lines == NewLines(db, inv, c, s)
    ensures Rebuild(db, inv, c, s) == Db(
      if s.lane.Service? then Map(db.day, r => ClaimDay(r, inv)) else db.day, AfterLabor(db, inv, c, s).closeouts,
      Map(db.parts, p => ClaimPart(p, inv)), db.invoices[inv := Filled(db.invoices[inv], lines, s.taxRate)])
  {
  }

  // ---------------------------------------------------------------------
  // Totals, and lines the machine did not write
  // ---------------------------------------------------------------------

  /** After a build into an emptied draft the totals are the lines' totals. */
  lemma TotalsAddUp(db: Db, inv: InvoiceId, c: nat, s: Setting)
    requires c < |db.closeouts| && inv < |db.invoices| && ReadyDraft(db.invoices[inv])
    ensures var v := Rebuild(db, inv, c, s).invoices[inv];
      && v.subtotal == SumTotals(v.lines)
      && v.total == v.subtotal + v.tax && v.balance == v.total
      && v.tax == TaxOn(SumTaxable(v.lines), s.taxRate)
  {
    BuiltDraftIsUntouched(db, inv, c, s);
    var lines := NewLines(db, inv, c, s);
    TaxableWithin(lines);
    if SumTotals(lines) == 0 {
      HalfEvenIsNearest(0, 1_000_000);
    }
  }

  lemma {:induction false} TaxableWithin(lines: seq<Line>)
    ensures SumTaxable(lines) <= SumTotals(lines)
  {
    if lines != [] {
      TaxableWithin(lines[..|lines| - 1]);
    }
  }

  datatype MachineStep =
    | ReleaseStep(inv: InvoiceId)
    | VoidStep(inv: InvoiceId)
    | RebuildStep(inv: InvoiceId, c: nat, setting: Setting)
    | DraftStep(c: nat, setting: Setting, number: nat, created: int)

  function Machine(db: Db, step: MachineStep): Db {
    match step
    case ReleaseStep(inv) => if inv < |db.invoices| then ReleaseUntouched(db, inv) else db
    case VoidStep(inv) => if inv < |db.invoices| && Untouched(db.invoices[inv]) then VoidDraft(db, inv) else db
    case RebuildStep(inv, c, s) =>
      if inv < |db.invoices| && c < |db.closeouts| then Rebuild(db, inv, c, s) else db
    case DraftStep(c, s, number, created) =>
      if c < |db.closeouts| then NewDraft(db, c, s, number, created) else db
  }

  function ExecMachine(db: Db, steps: seq<MachineStep>): Db
    decreases |steps|
  {
    if steps == [] then db else ExecMachine(Machine(db, steps[0]), steps[1..])
  }

  function HumanLines(v: Invoice): seq<Line> { Filter(v.lines, l => HumanLine(l)) }

  /** No sequence of machine steps removes a live line the machine did not write. */
  lemma {:induction false} HumanLinesSurvive(db: Db, steps: seq<MachineStep>, i: nat)
    requires i < |db.invoices|
    ensures var done := ExecMachine(db, steps);
      i < |done.invoices| && HumanLines(done.invoices[i]) == HumanLines(db.invoices[i])
    decreases |steps|
  {
    if steps != [] {
      HumanLinesSurviveStep(db, steps[0], i);
      HumanLinesSurvive(Machine(db, steps[0]), steps[1..], i);
    }
  }

  lemma HumanLinesSurviveStep(db: Db, step: MachineStep, i: nat)
    requires i < |db.invoices|
    ensures var done := Machine(db, step);
      i < |done.invoices| && HumanLines(done.invoices[i]) == HumanLines(db.invoices[i])
  {
    match step
    case ReleaseStep(inv) =>
      if inv == i && Untouched(db.invoices[i]) {
        NoHumanLines(db.invoices[i].lines);
        NoHumanLines([]);
      }
    case VoidStep(_) =>
    case RebuildStep(inv, c, s) =>
      if inv < |db.invoices| && c < |db.closeouts| {
        RebuildKeepsHumanLines(db, inv, c, s, i);
      }
    case DraftStep(c, s, number, created) =>
      if c < |db.closeouts| {
        DraftKeepsOthers(db, c, s, number, created);
      }
  }

  lemma RebuildKeepsHumanLines(db: Db, inv: InvoiceId, c: nat, s: Setting, i: nat)
    requires i < |db.invoices| && inv < |db.invoices| && c < |db.closeouts|
    ensures var done := Rebuild(db, inv, c, s);
      |done.invoices| == |db.invoices| && HumanLines(done.invoices[i]) == HumanLines(db.invoices[i])
  {
    var lines := NewLines(db, inv, c, s);
    var was := db.invoices[inv].lines;
    if inv == i {
      AllMachine(db, inv, c, s);
      NoHumanLines(lines);
      FilterConcat(was, lines, l => HumanLine(l));
      assert Rebuild(db, inv, c, s).invoices[inv].lines == was + lines;
    }
  }

  lemma DraftKeepsOthers(db: Db, c: nat, s: Setting, number: nat, created: int)
    requires c < |db.closeouts|
    ensures var done := NewDraft(db, c, s, number, created);
      |db.invoices| <= |done.invoices| && done.invoices[..|db.invoices|] == db.invoices
  {
  }

  lemma {:induction false} NoHumanLines(lines: seq<Line>)
    requires forall l :: l in lines ==> !HumanLine(l)
    ensures Filter(lines, l => HumanLine(l)) == []
  {
    if lines != [] {
      NoHumanLines(lines[1..]);
    }
  }
}
