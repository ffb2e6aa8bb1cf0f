/**
 * The service lane's labor lines: rounding, the 1 h floor, the first-hour price.
 *
 * Quantities are hundredths of an hour, money is cents. Man-hours before the
 * floor are half hours (see Closeouts).
 */
module LaborPricing {
  import opened Basics
  import opened Closeouts

  // ---------------------------------------------------------------------
  // Rounding
  // ---------------------------------------------------------------------

  /** Hundredths to the nearest whole, ties up: `_money` of billing_lanes. */
  function HalfUp(hundredths: nat): (r: nat)
    ensures 100 * r - 50 <= hundredths < 100 * r + 50
  {
    (hundredths + 50) / 100
  }

  /** n / d to the nearest whole, ties to even: `_money` of closeout_billing. */
  function HalfEven(n: nat, d: nat): nat
    requires d > 0
  {
    TieToEven(n / d, n % d, d)
  }

  function TieToEven(q: nat, rest: nat, d: nat): nat {
    if 2 * rest < d || (2 * rest == d && q % 2 == 0) then q else q + 1
  }

  lemma HalfEvenIsNearest(n: nat, d: nat)
    requires d > 0
    ensures var r := HalfEven(n, d);
      && 2 * (d * r) - d <= 2 * n <= 2 * (d * r) + d
      && (2 * n == 2 * (d * r) - d || 2 * n == 2 * (d * r) + d ==> r % 2 == 0)
  {
    var q, rest := n / d, n % d;
    NearestFromParts(n, d, q, rest, d * q);
  }

  lemma NearestFromParts(n: nat, d: nat, q: nat, rest: nat, product: nat)
    requires product == d * q && n == product + rest && rest < d
    ensures var r := TieToEven(q, rest, d);
      && 2 * (d * r) - d <= 2 * n <= 2 * (d * r) + d
      && (2 * n == 2 * (d * r) - d || 2 * n == 2 * (d * r) + d ==> r % 2 == 0)
  {
    assert d * (q + 1) == product + d;
  }

  /** Day-row minutes in half hours, rounded up once for the whole pool. */
  function RowsMan(minutes: nat): (r: nat)
    ensures 30 * r - 30 < minutes <= 30 * r
  {
    (minutes + 29) / 30
  }

  function Minutes(rows: seq<nat>): nat {
    if rows == [] then 0 else rows[0] + Minutes(rows[1..])
  }

  function RowByRow(rows: seq<nat>): nat {
    if rows == [] then 0 else RowsMan(rows[0]) + RowByRow(rows[1..])
  }

  /** Pooling never bills more than rounding each row on its own would. */
  lemma {:induction false} PooledRounding(rows: seq<nat>)
    ensures RowsMan(Minutes(rows)) <= RowByRow(rows)
  {
    if rows != [] {
      PooledRounding(rows[1..]);
    }
  }

  /** Billed man-hours are never below what was attested, and exceed it by less
      than half an hour per crew member plus half an hour for the day rows.
      In units of 1/6000 hour, so that minutes and hundredths are both whole. */
  lemma RoundingBounds(c: Closeout, minutes: nat)
    ensures var crew := Max(1, c.techsOnSite);
      var attested := 60 * (Max(0, c.hoursWorked) * crew) + 100 * minutes;
      var billed := 3000 * (ManHours(c) + RowsMan(minutes));
      attested <= billed < attested + 3000 * crew + 3000
  {
    var hours := Max(0, c.hoursWorked);
    ScaleByCrew(hours, RoundUpToHalf(hours), Max(1, c.techsOnSite));
  }

  // ---------------------------------------------------------------------
  // Does another invoice carry the first hour?
  // ---------------------------------------------------------------------

  /** A live `labor_attested` line of another live invoice of the job. */
  datatype SiblingLine = SiblingLine(firstHourText: bool, qty: int, unit: int, created: Option<int>)

  datatype Rates = Rates(first: nat, hourly: nat, since: Option<int>)

  /** Priced before the rates last changed, so its price says nothing. */
  predicate Older(l: SiblingLine, rates: Rates) {
    rates.since.Some? && (l.created.None? || l.created.value < rates.since.value)
  }

  function Qty(l: SiblingLine): int { l.qty }

  function OlderQty(l: SiblingLine, rates: Rates): int {
    if !l.firstHourText && Older(l, rates) then l.qty else 0
  }

  predicate SaysFirstHour(l: SiblingLine, rates: Rates) {
    l.firstHourText || (!Older(l, rates) && l.unit != rates.hourly)
  }

  function Hours(rows: seq<SiblingLine>): int { Sum(Map(rows, l => Qty(l))) }

  function OlderHours(rows: seq<SiblingLine>, rates: Rates): int { Sum(Map(rows, l => OlderQty(l, rates))) }

  /** The first hour is carried by text, by price, by enough old hours, or, at
      equal rates, by enough hours of any age. */
  predicate Carried(rows: seq<SiblingLine>, rates: Rates) {
    || (exists l :: l in rows && SaysFirstHour(l, rates))
    || OlderHours(rows, rates) >= 100
    || (rates.first == rates.hourly && Hours(rows) >= 100)
  }

  /** What makes a sibling carry the first hour: a line with its text; a line priced on
      today's rates at anything but the hourly rate; 1 h or more of lines from before the
      rates changed; or, where both rates are the same, 1 h or more of any lines. */
  lemma CarriedWhen(rows: seq<SiblingLine>, rates: Rates, l: SiblingLine)
    ensures l in rows && l.firstHourText ==> Carried(rows, rates)
    ensures l in rows && l.unit != rates.hourly && YoungerThanTheRates(l, rates) ==> Carried(rows, rates)
    ensures Hours(FromOldRates(rows, rates)) >= 100 ==> Carried(rows, rates)
    ensures rates.first == rates.hourly && Hours(rows) >= 100 ==> Carried(rows, rates)
  {
    assert SaysFirstHour(l, rates) <==> l.firstHourText || (l.unit != rates.hourly && YoungerThanTheRates(l, rates));
    OlderHoursAre(rows, rates);
  }

  /** And nothing else does. */
  lemma NotCarriedWhen(rows: seq<SiblingLine>, rates: Rates)
    requires forall l :: l in rows ==> !l.firstHourText && (YoungerThanTheRates(l, rates) ==> l.unit == rates.hourly)
    requires Hours(FromOldRates(rows, rates)) < 100
    requires rates.first != rates.hourly || Hours(rows) < 100
    ensures !Carried(rows, rates)
  {
    OlderHoursAre(rows, rates);
  }

  /** Created when today's rates were already set, as far as is known. */
  predicate YoungerThanTheRates(l: SiblingLine, rates: Rates) {
    rates.since.None? || (l.created.Some? && l.created.value >= rates.since.value)
  }

  /** The lines that say nothing by themselves, because their rates are no longer known. */
  function FromOldRates(rows: seq<SiblingLine>, rates: Rates): seq<SiblingLine> {
    if rows == [] then []
    else if !rows[0].firstHourText && !YoungerThanTheRates(rows[0], rates)
    then [rows[0]] + FromOldRates(rows[1..], rates)
    else FromOldRates(rows[1..], rates)
  }

  lemma {:induction false} OlderHoursAre(rows: seq<SiblingLine>, rates: Rates)
    ensures OlderHours(rows, rates) == Hours(FromOldRates(rows, rates))
  {
    if rows == [] {
      assert Map(rows, l => OlderQty(l, rates)) == [] && Map(rows, l => Qty(l)) == [];
    } else {
      OlderHoursAre(rows[1..], rates);
      assert Map(rows, l => OlderQty(l, rates))[1..] == Map(rows[1..], l => OlderQty(l, rates));
      HoursCons(rows[0], FromOldRates(rows[1..], rates));
    }
  }

  lemma HoursCons(l: SiblingLine, rows: seq<SiblingLine>)
    ensures Hours([l] + rows) == l.qty + Hours(rows)
  {
    assert Map([l] + rows, r => Qty(r))[1..] == Map(rows, r => Qty(r));
  }

  lemma SumMapStep<T>(rows: seq<T>, k: nat, f: T -> int)
    requires k < |rows|
    ensures Sum(Map(rows[..k + 1], f)) == Sum(Map(rows[..k], f)) + f(rows[k])
  {
    assert Map(rows[..k + 1], f) == Map(rows[..k], f) + [f(rows[k])];
    SumConcat(Map(rows[..k], f), [f(rows[k])]);
  }

  method FirstHourElsewhere(rows: seq<SiblingLine>, rates: Rates) returns (charged: bool, hours: int)
    ensures hours == Hours(rows)
    ensures charged <==> Carried(rows, rates)
  {
    hours := 0;
    var olderHours := 0;
    charged := false;
    if rows == [] {
      return;
    }
    for k := 0 to |rows|
      invariant hours == Hours(rows[..k])
      invariant olderHours == OlderHours(rows[..k], rates)
      invariant charged <==> exists l :: l in rows[..k] && SaysFirstHour(l, rates)
    {
      var l := rows[k];
      SumMapStep(rows, k, l => Qty(l));
      SumMapStep(rows, k, l => OlderQty(l, rates));
      assert rows[..k + 1] == rows[..k] + [l];
      hours := hours + l.qty;
      if l.firstHourText {
        charged := true;
      } else if Older(l, rates) {
        olderHours := olderHours + l.qty;
      } else if l.unit != rates.hourly {
        charged := true;
      }
      assert SaysFirstHour(l, rates) ==> l in rows[..k + 1];
    }
    assert rows[..|rows|] == rows;
    charged := charged || olderHours >= 100 || (rates.first == rates.hourly && hours >= 100);
  }

  // ---------------------------------------------------------------------
  // The lines
  // ---------------------------------------------------------------------

  datatype LaborLine = LaborLine(firstHour: bool, qty: nat, unit: nat, total: nat)

  function LineQty(l: LaborLine): int { l.qty }
  function LineTotal(l: LaborLine): int { l.total }
  function TotalQty(lines: seq<LaborLine>): int { Sum(Map(lines, l => LineQty(l))) }
  function TotalPrice(lines: seq<LaborLine>): int { Sum(Map(lines, l => LineTotal(l))) }

  /** What is left of the job's 1 h floor beside `elsewhere` hours on siblings. */
  function FloorLeft(elsewhere: int): nat { 100 - Min(100, Max(0, elsewhere)) }

  /** The quantity billed for `half` attested half hours. */
  function BilledQty(half: nat, charged: bool, elsewhere: int): nat {
    if half == 0 then 0
    else if charged then 50 * half
    else Max(FloorLeft(elsewhere), 50 * half)
  }

  /** The price of `qty`, whichever lines it is spread over. */
  function Price(qty: nat, charged: bool, rates: Rates): nat {
    if charged then HalfUp(qty * rates.hourly)
    else if qty >= 100 then rates.first + HalfUp((qty - 100) * rates.hourly)
    else HalfUp(qty * rates.first)
  }

  function NewLine(firstHour: bool, qty: nat, unit: nat): LaborLine {
    LaborLine(firstHour, qty, unit, HalfUp(qty * unit))
  }

  /** `job_labor_lines` for `half` offered half hours. */
  function LaborLines(half: nat, charged: bool, elsewhere: int, rates: Rates): seq<LaborLine> {
    if half == 0 then [] else Written(BilledQty(half, charged, elsewhere), charged, rates)
  }

  function Written(man: nat, charged: bool, rates: Rates): seq<LaborLine> {
    if charged || rates.first == rates.hourly then [NewLine(false, man, rates.hourly)]
    else if man > 100 then [NewLine(true, 100, rates.first), NewLine(false, man - 100, rates.hourly)]
    else [NewLine(true, man, rates.first)]
  }

  /** Lines as `job_labor_lines` writes them on `rates`. */
  ghost predicate WellPriced(lines: seq<LaborLine>, rates: Rates) {
    && (forall i: nat :: i < |lines| ==> lines[i].qty > 0 && lines[i].total == HalfUp(lines[i].qty * lines[i].unit))
    && (forall i: nat :: i < |lines| ==> lines[i].unit == if lines[i].firstHour then rates.first else rates.hourly)
    && (forall i: nat :: i < |lines| && lines[i].firstHour ==> i == 0 && lines[i].qty <= 100)
    && (|lines| > 1 ==> lines[0].firstHour && lines[0].qty == 100)
    && |lines| <= 2
  }

  lemma LaborLinesAreWellPriced(half: nat, charged: bool, elsewhere: int, rates: Rates)
    ensures var lines := LaborLines(half, charged, elsewhere, rates);
      && WellPriced(lines, rates)
      && (lines == [] <==> half == 0)
      && ((exists l :: l in lines && l.firstHour) <==> lines != [] && !charged && rates.first != rates.hourly)
  {
    var lines := LaborLines(half, charged, elsewhere, rates);
    assert lines != [] ==> lines[0] in lines;
  }

  method JobLaborLines(serviceLane: bool, finalHalf: nat, minutes: nat, charged: bool, elsewhere: int, rates: Rates)
    returns (lines: seq<LaborLine>)
    ensures lines == if serviceLane then LaborLines(finalHalf + RowsMan(minutes), charged, elsewhere, rates) else []
    ensures WellPriced(lines, rates)
    ensures lines == [] <==> !serviceLane || (finalHalf == 0 && minutes == 0)
    ensures lines != [] ==> TotalQty(lines) == BilledQty(finalHalf + RowsMan(minutes), charged, elsewhere)
    ensures lines != [] ==> TotalPrice(lines) == Price(TotalQty(lines), charged, rates)
    ensures (exists l :: l in lines && l.firstHour) <==> lines != [] && !charged && rates.first != rates.hourly
    ensures lines != [] ==> BillsOrFloor(TotalQty(lines), finalHalf + RowsMan(minutes), charged, elsewhere)
  {
    lines := [];
    if !serviceLane {
      return;
    }
    var rowsMan := if minutes > 0 then RowsMan(minutes) else 0;
    LaborLinesAreWellPriced(finalHalf + rowsMan, charged, elsewhere, rates);
    LaborLinesBillThePrice(finalHalf + rowsMan, charged, elsewhere, rates);
    LaborLinesBillTheHours(finalHalf + rowsMan, charged, elsewhere, rates);
    var man := 50 * (finalHalf + rowsMan);
    if man <= 0 {
      return;
    }
    if !charged {
      man := Max(100 - Min(100, Max(0, elsewhere)), man);
    }
    lines := WriteLines(man, charged, rates);
  }

  method WriteLines(man: nat, charged: bool, rates: Rates) returns (lines: seq<LaborLine>)
    ensures lines == Written(man, charged, rates)
    ensures TotalQty(lines) == man && TotalPrice(lines) == Price(man, charged, rates)
    ensures forall l :: l in lines && l.firstHour ==> l.qty <= 100 && l.unit == rates.first
    ensures forall l :: l in lines && !l.firstHour ==> l.unit == rates.hourly
  {
    WrittenBillThePrice(man, charged, rates);
    lines := [];
    if charged || rates.first == rates.hourly {
      lines := lines + [NewLine(false, man, rates.hourly)];
    } else {
      lines := lines + [NewLine(true, Min(100, man), rates.first)];
      var rest := man - 100;
      if rest > 0 {
        lines := lines + [NewLine(false, rest, rates.hourly)];
      }
    }
  }

  lemma TwoLines(a: LaborLine, b: LaborLine)
    ensures TotalQty([a]) == a.qty && TotalPrice([a]) == a.total
    ensures TotalQty([a, b]) == a.qty + b.qty && TotalPrice([a, b]) == a.total + b.total
  {
    assert Map([a], l => LineQty(l)) == [LineQty(a)];
    assert Map([a], l => LineTotal(l)) == [LineTotal(a)];
    assert Map([a, b], l => LineQty(l)) == [LineQty(a)] + [LineQty(b)];
    assert Map([a, b], l => LineTotal(l)) == [LineTotal(a)] + [LineTotal(b)];
    SumConcat([LineQty(a)], [LineQty(b)]);
    SumConcat([LineTotal(a)], [LineTotal(b)]);
  }

  /** Whether the job gets one line or two, the rounded totals add up to the
      first hour plus the hourly rate for the rest. */
  lemma WrittenBillThePrice(man: nat, charged: bool, rates: Rates)
    ensures TotalQty(Written(man, charged, rates)) == man
    ensures TotalPrice(Written(man, charged, rates)) == Price(man, charged, rates)
  {
    var one := NewLine(false, man, rates.hourly);
    TwoLines(one, one);
    TwoLines(NewLine(true, man, rates.first), one);
    if man >= 100 {
      assert man * rates.hourly == (man - 100) * rates.hourly + 100 * rates.hourly;
      TwoLines(NewLine(true, 100, rates.first), NewLine(false, man - 100, rates.hourly));
    }
  }

  /** So the lines of a build bill what the job attests or its floor, at the job's price. */
  lemma LaborLinesBillThePrice(half: nat, charged: bool, elsewhere: int, rates: Rates)
    ensures var lines := LaborLines(half, charged, elsewhere, rates);
      && TotalQty(lines) == BilledQty(half, charged, elsewhere)
      && (half > 0 ==> TotalPrice(lines) == Price(TotalQty(lines), charged, rates))
  {
    WrittenBillThePrice(BilledQty(half, charged, elsewhere), charged, rates);
  }

  /** A quantity for `half` attested half hours: all of them, and no more where the first
      hour is carried elsewhere or the job already bills 1 h; otherwise more only to bring
      the job, sibling hours included, to exactly 1 h, and never less than that. */
  predicate BillsOrFloor(qty: int, half: nat, charged: bool, elsewhere: int) {
    && qty >= 50 * half
    && (charged || half == 0 ==> qty == 50 * half)
    && (qty > 50 * half ==> qty + (if elsewhere > 0 then elsewhere else 0) == 100)
    && (!charged && half > 0 ==> qty + (if elsewhere > 0 then elsewhere else 0) >= 100)
  }

  lemma LaborLinesBillTheHours(half: nat, charged: bool, elsewhere: int, rates: Rates)
    ensures BillsOrFloor(TotalQty(LaborLines(half, charged, elsewhere, rates)), half, charged, elsewhere)
  {
    LaborLinesBillThePrice(half, charged, elsewhere, rates);
  }

  /** The floor tops the job up to exactly 1 h and never past it. */
  lemma FloorTopsUpToOneHour(half: nat, elsewhere: int)
    requires half > 0
    ensures 0 <= elsewhere ==> BilledQty(half, false, elsewhere) + elsewhere >= 100
    ensures BilledQty(half, false, elsewhere) > 50 * half ==>
      BilledQty(half, false, elsewhere) + Max(0, elsewhere) == 100
  {
  }
}
