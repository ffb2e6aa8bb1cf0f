/**
 * Which invoice of a job carries the first hour, and that the job bills at least
 * 1 h, over every history of builds, rebuilds, voids, deletions, dropped lines
 * and rate changes. How many first-hour lines there are is in FirstHourLines.
 */
module FirstHour {
  import opened Basics
  import opened LaborPricing

  datatype Invoice = Invoice(lines: seq<LaborLine>, live: bool, created: int)

  datatype Job = Job(invoices: seq<Invoice>, rates: Rates)

  datatype Step =
    | Create(at: int)
    | Build(i: nat, half: nat)        // lines are added to what the invoice has
    | Rebuild(i: nat, half: nat)      // the draft is emptied first
    | DropLine(i: nat, k: nat)
    | Retire(i: nat)                  // void or delete
    | SetRates(rates: Rates)

  function AsSibling(l: LaborLine, created: int): SiblingLine {
    SiblingLine(l.firstHour, l.qty, l.unit, Some(created))
  }

  function SiblingLines(inv: Invoice): seq<SiblingLine> {
    Map(inv.lines, l => AsSibling(l, inv.created))
  }

  /** The lines `first_hour_elsewhere` reads for invoice `i`, among the first `n` invoices. */
  function Others(invs: seq<Invoice>, i: nat, n: nat): seq<SiblingLine>
    requires n <= |invs|
  {
    if n == 0 then []
    else Others(invs, i, n - 1) + if n - 1 != i && invs[n - 1].live then SiblingLines(invs[n - 1]) else []
  }

  function Siblings(j: Job, i: nat): seq<SiblingLine> { Others(j.invoices, i, |j.invoices|) }

  /** What `build_closeout_lines` prices on invoice `i` for `half` offered half hours. */
  function BuiltLines(j: Job, i: nat, half: nat): seq<LaborLine> {
    LaborLines(half, Carried(Siblings(j, i), j.rates), Hours(Siblings(j, i)), j.rates)
  }

  function WithLines(j: Job, i: nat, lines: seq<LaborLine>): Job
    requires i < |j.invoices|
  {
    j.(invoices := j.invoices[i := j.invoices[i].(lines := lines)])
  }

  predicate LiveAt(j: Job, i: nat) { i < |j.invoices| && j.invoices[i].live }

  function Next(j: Job, step: Step): Job {
    match step
    case Create(at) => j.(invoices := j.invoices + [Invoice([], true, at)])
    case Build(i, half) =>
      if LiveAt(j, i) then WithLines(j, i, j.invoices[i].lines + BuiltLines(j, i, half)) else j
    case Rebuild(i, half) =>
      if LiveAt(j, i) then WithLines(j, i, BuiltLines(WithLines(j, i, []), i, half)) else j
    case DropLine(i, k) =>
      if i < |j.invoices| && k < |j.invoices[i].lines|
      then WithLines(j, i, j.invoices[i].lines[..k] + j.invoices[i].lines[k + 1..]) else j
    case Retire(i) =>
      if i < |j.invoices| then j.(invoices := j.invoices[i := j.invoices[i].(live := false)]) else j
    case SetRates(r) => j.(rates := r)
  }

  function Exec(j: Job, steps: seq<Step>): Job
    decreases |steps|
  {
    if steps == [] then j else Exec(Next(j, steps[0]), steps[1..])
  }

  // ---------------------------------------------------------------------
  // One carrier
  // ---------------------------------------------------------------------

  predicate Carries(inv: Invoice) { exists l :: l in inv.lines && l.firstHour }

  ghost predicate OneCarrier(j: Job) {
    && (forall a: nat, b: nat :: LiveAt(j, a) && LiveAt(j, b) && a != b ==>
          !(Carries(j.invoices[a]) && Carries(j.invoices[b])))
    && (forall a: nat, l :: a < |j.invoices| && l in j.invoices[a].lines && l.firstHour ==> l.qty <= 100)
  }

  lemma {:induction false} OthersHas(invs: seq<Invoice>, i: nat, n: nat, a: nat, l: LaborLine)
    requires n <= |invs| && a < n && a != i && invs[a].live && l in invs[a].lines
    ensures AsSibling(l, invs[a].created) in Others(invs, i, n)
  {
    if a == n - 1 {
      var k :| 0 <= k < |invs[a].lines| && invs[a].lines[k] == l;
      assert SiblingLines(invs[a])[k] == AsSibling(l, invs[a].created);
    } else {
      OthersHas(invs, i, n - 1, a, l);
    }
  }

  lemma {:induction false} OthersFrom(invs: seq<Invoice>, i: nat, n: nat, r: SiblingLine) returns (a: nat, l: LaborLine)
    requires n <= |invs| && r in Others(invs, i, n)
    ensures a < n && a != i && invs[a].live && l in invs[a].lines && r == AsSibling(l, invs[a].created)
  {
    if n - 1 != i && invs[n - 1].live && r in SiblingLines(invs[n - 1]) {
      var k :| 0 <= k < |SiblingLines(invs[n - 1])| && SiblingLines(invs[n - 1])[k] == r;
      a, l := n - 1, invs[n - 1].lines[k];
    } else {
      a, l := OthersFrom(invs, i, n - 1, r);
    }
  }

  /** A build writes the first-hour line only when no other live invoice has it. */
  lemma BuildDefersToCarrier(j: Job, i: nat, half: nat, l: LaborLine)
    requires l in BuiltLines(j, i, half) && l.firstHour
    ensures l.qty <= 100
    ensures forall a: nat :: a < |j.invoices| && a != i && j.invoices[a].live ==> !Carries(j.invoices[a])
  {
    forall a: nat | a < |j.invoices| && a != i && j.invoices[a].live
      ensures !Carries(j.invoices[a])
    {
      if Carries(j.invoices[a]) {
        var f :| f in j.invoices[a].lines && f.firstHour;
        OthersHas(j.invoices, i, |j.invoices|, a, f);
        assert SaysFirstHour(AsSibling(f, j.invoices[a].created), j.rates);
      }
    }
  }

  /** Beside siblings that carry the first hour, a build bills the attested hours at the
      hourly rate and nothing more. */
  lemma CarriedBillsHourly(j: Job, i: nat, half: nat)
    requires Carried(Siblings(j, i), j.rates)
    ensures TotalQty(BuiltLines(j, i, half)) == 50 * half
    ensures forall l :: l in BuiltLines(j, i, half) ==> !l.firstHour && l.unit == j.rates.hourly
  {
    LaborLinesBillTheHours(half, true, Hours(Siblings(j, i)), j.rates);
  }

  /** After a rate change, 1 h or more of older sibling hours carry the first hour. */
  lemma OldHoursCarry(j: Job, i: nat, half: nat)
    requires Hours(FromOldRates(Siblings(j, i), j.rates)) >= 100
    ensures forall l :: l in BuiltLines(j, i, half) ==> !l.firstHour
  {
    CarriedWhen(Siblings(j, i), j.rates, SiblingLine(false, 0, 0, None));
    CarriedBillsHourly(j, i, half);
  }

  lemma OneCarrierAfterWrite(j: Job, i: nat, lines: seq<LaborLine>)
    requires OneCarrier(j) && i < |j.invoices|
    requires forall l :: l in lines && l.firstHour ==>
      l.qty <= 100 && (l in j.invoices[i].lines
        || forall a: nat :: a < |j.invoices| && a != i && j.invoices[a].live ==> !Carries(j.invoices[a]))
    ensures OneCarrier(WithLines(j, i, lines))
  {
    var j' := WithLines(j, i, lines);
    forall a: nat, b: nat | LiveAt(j', a) && LiveAt(j', b) && a != b
      ensures !(Carries(j'.invoices[a]) && Carries(j'.invoices[b]))
    {
      assert LiveAt(j, a) && LiveAt(j, b);
    }
  }

  lemma BuildKeepsOneCarrier(j: Job, i: nat, half: nat)
    requires OneCarrier(j) && LiveAt(j, i)
    ensures OneCarrier(WithLines(j, i, j.invoices[i].lines + BuiltLines(j, i, half)))
  {
    forall l | l in BuiltLines(j, i, half) && l.firstHour
      ensures l.qty <= 100
      ensures forall a: nat :: a < |j.invoices| && a != i && j.invoices[a].live ==> !Carries(j.invoices[a])
    {
      BuildDefersToCarrier(j, i, half, l);
    }
    OneCarrierAfterWrite(j, i, j.invoices[i].lines + BuiltLines(j, i, half));
  }

  lemma RebuildKeepsOneCarrier(j: Job, i: nat, half: nat)
    requires OneCarrier(j) && LiveAt(j, i)
    ensures OneCarrier(Next(j, Rebuild(i, half)))
  {
    var empty := WithLines(j, i, []);
    OneCarrierAfterWrite(j, i, []);
    BuildKeepsOneCarrier(empty, i, half);
    assert [] + BuiltLines(empty, i, half) == BuiltLines(empty, i, half);
    assert Next(j, Rebuild(i, half)) == WithLines(empty, i, BuiltLines(empty, i, half));
  }

  lemma DropKeepsOneCarrier(j: Job, i: nat, k: nat)
    requires OneCarrier(j) && i < |j.invoices| && k < |j.invoices[i].lines|
    ensures OneCarrier(Next(j, DropLine(i, k)))
  {
    var lines := j.invoices[i].lines;
    assert forall l :: l in lines[..k] + lines[k + 1..] ==> l in lines;
    OneCarrierAfterWrite(j, i, lines[..k] + lines[k + 1..]);
  }

  lemma StepKeepsOneCarrier(j: Job, step: Step)
    requires OneCarrier(j)
    ensures OneCarrier(Next(j, step))
  {
    match step
    case Build(i, half) => if LiveAt(j, i) { BuildKeepsOneCarrier(j, i, half); }
    case Rebuild(i, half) => if LiveAt(j, i) { RebuildKeepsOneCarrier(j, i, half); }
    case DropLine(i, k) => if i < |j.invoices| && k < |j.invoices[i].lines| { DropKeepsOneCarrier(j, i, k); }
    case _ =>
  }

  /** At most one live invoice of a job carries first-hour lines, each of at most
      1 h, whatever happened to the job. */
  lemma {:induction false} OneInvoiceCarries(j: Job, steps: seq<Step>)
    requires OneCarrier(j)
    ensures OneCarrier(Exec(j, steps))
    decreases |steps|
  {
    if steps != [] {
      StepKeepsOneCarrier(j, steps[0]);
      OneInvoiceCarries(Next(j, steps[0]), steps[1..]);
    }
  }

  // ---------------------------------------------------------------------
  // One hour at least, at steady rates
  // ---------------------------------------------------------------------

  function LiveQty(inv: Invoice): int { if inv.live then TotalQty(inv.lines) else 0 }

  /** Attested hours on the job's live invoices. */
  function JobHours(invs: seq<Invoice>): int { HoursTo(invs, |invs|) }

  /** The first `n` invoices' share of it. */
  function HoursTo(invs: seq<Invoice>, n: nat): int
    requires n <= |invs|
  {
    if n == 0 then 0 else HoursTo(invs, n - 1) + LiveQty(invs[n - 1])
  }

  lemma {:induction false} SameHoursTo(a: seq<Invoice>, b: seq<Invoice>, n: nat)
    requires n <= |a| && n <= |b| && forall k: nat :: k < n ==> a[k] == b[k]
    ensures HoursTo(a, n) == HoursTo(b, n)
  {
    if n > 0 {
      SameHoursTo(a, b, n - 1);
    }
  }

  /** Every line stands as a build at today's rates wrote it. */
  ghost predicate Steady(j: Job) {
    forall a: nat :: a < |j.invoices| ==>
      && (j.rates.since.Some? ==> j.invoices[a].created >= j.rates.since.value)
      && forall l :: l in j.invoices[a].lines ==>
           l.qty >= 50 && (!l.firstHour ==> l.unit == j.rates.hourly)
  }

  lemma {:induction false} HoursAreQty(lines: seq<LaborLine>, created: int)
    ensures Hours(Map(lines, l => AsSibling(l, created))) == TotalQty(lines)
  {
    assert Map(Map(lines, l => AsSibling(l, created)), l => Qty(l)) == Map(lines, l => LineQty(l));
  }

  lemma HoursConcat(a: seq<SiblingLine>, b: seq<SiblingLine>)
    ensures Hours(a + b) == Hours(a) + Hours(b)
  {
    assert Map(a + b, l => Qty(l)) == Map(a, l => Qty(l)) + Map(b, l => Qty(l));
    SumConcat(Map(a, l => Qty(l)), Map(b, l => Qty(l)));
  }

  lemma {:induction false} SplitJobHours(invs: seq<Invoice>, i: nat, n: nat)
    requires n <= |invs|
    ensures HoursTo(invs, n) == Hours(Others(invs, i, n)) + if i < n then LiveQty(invs[i]) else 0
  {
    if n > 0 {
      SplitJobHours(invs, i, n - 1);
      OthersStep(invs, i, n);
    }
  }

  lemma OthersStep(invs: seq<Invoice>, i: nat, n: nat)
    requires 0 < n <= |invs|
    ensures Hours(Others(invs, i, n)) == Hours(Others(invs, i, n - 1)) + if n - 1 == i then 0 else LiveQty(invs[n - 1])
  {
    var v := invs[n - 1];
    var tail := if n - 1 != i && v.live then SiblingLines(v) else [];
    HoursConcat(Others(invs, i, n - 1), tail);
    HoursAreQty(v.lines, v.created);
  }

  lemma {:induction false} SumHas(s: seq<int>, k: nat)
    requires k < |s| && forall m: nat :: m < |s| ==> s[m] >= 0
    ensures Sum(s) >= s[k]
  {
    SumNonNegative(s[1..]);
    if k > 0 {
      SumHas(s[1..], k - 1);
    }
  }

  lemma {:induction false} SumNonNegative(s: seq<int>)
    requires forall m: nat :: m < |s| ==> s[m] >= 0
    ensures Sum(s) >= 0
  {
    if s != [] {
      SumNonNegative(s[1..]);
    }
  }

  /** Beside siblings that bill less than 1 h, the build fills the hour; beside a
      carrier, the carrier's line and the new one fill it between them. */
  lemma BuildFillsTheHour(j: Job, i: nat, half: nat)
    requires Steady(j) && half > 0
    ensures Hours(Siblings(j, i)) >= 0
    ensures Hours(Siblings(j, i)) + TotalQty(BuiltLines(j, i, half)) >= 100
  {
    var rows := Siblings(j, i);
    var charged := Carried(rows, j.rates);
    var qtys := Map(rows, l => Qty(l));
    forall r | r in rows ensures r.qty >= 50 && !Older(r, j.rates) && (!r.firstHourText ==> r.unit == j.rates.hourly) {
      var a, l := OthersFrom(j.invoices, i, |j.invoices|, r);
    }
    forall m: nat | m < |qtys| ensures qtys[m] >= 50 {
      assert rows[m] in rows;
    }
    SumNonNegative(qtys);
    LaborLinesBillThePrice(half, charged, Hours(rows), j.rates);
    FloorTopsUpToOneHour(half, Hours(rows));
    if charged && Hours(rows) < 100 {
      NoOlderHours(rows, j.rates);
      var r :| r in rows && SaysFirstHour(r, j.rates);
      var m :| 0 <= m < |rows| && rows[m] == r;
      SumHas(qtys, m);
    }
  }

  lemma {:induction false} NoOlderHours(rows: seq<SiblingLine>, rates: Rates)
    requires forall r :: r in rows ==> !Older(r, rates)
    ensures OlderHours(rows, rates) == 0
  {
    if rows != [] {
      NoOlderHours(rows[1..], rates);
      assert Map(rows, l => OlderQty(l, rates))[1..] == Map(rows[1..], l => OlderQty(l, rates));
    }
  }

  lemma BuiltLinesAreSteady(j: Job, i: nat, half: nat, l: LaborLine)
    requires l in BuiltLines(j, i, half)
    ensures l.qty >= 50 && (!l.firstHour ==> l.unit == j.rates.hourly)
  {
  }

  /** Any step that leaves the rates alone; an invoice is not created before they were set. */
  predicate SteadyStep(step: Step, rates: Rates) {
    match step
    case Create(at) => rates.since.Some? ==> at >= rates.since.value
    case SetRates(_) => false
    case _ => true
  }

  lemma WriteKeepsSteady(j: Job, i: nat, lines: seq<LaborLine>)
    requires Steady(j) && i < |j.invoices|
    requires forall l :: l in lines ==> l.qty >= 50 && (!l.firstHour ==> l.unit == j.rates.hourly)
    ensures Steady(WithLines(j, i, lines))
  {
  }

  lemma StepKeepsSteady(j: Job, step: Step)
    requires Steady(j) && SteadyStep(step, j.rates)
    ensures Steady(Next(j, step))
  {
    match step
    case Build(i, half) =>
      if LiveAt(j, i) {
        forall l | l in BuiltLines(j, i, half) ensures l.qty >= 50 && (!l.firstHour ==> l.unit == j.rates.hourly) {
          BuiltLinesAreSteady(j, i, half, l);
        }
        WriteKeepsSteady(j, i, j.invoices[i].lines + BuiltLines(j, i, half));
      }
    case Rebuild(i, half) =>
      if LiveAt(j, i) {
        var empty := WithLines(j, i, []);
        forall l | l in BuiltLines(empty, i, half) ensures l.qty >= 50 && (!l.firstHour ==> l.unit == j.rates.hourly) {
          BuiltLinesAreSteady(empty, i, half, l);
        }
        WriteKeepsSteady(j, i, BuiltLines(empty, i, half));
      }
    case DropLine(i, k) =>
      if i < |j.invoices| && k < |j.invoices[i].lines| {
        var lines := j.invoices[i].lines;
        assert forall l :: l in lines[..k] + lines[k + 1..] ==> l in lines;
        WriteKeepsSteady(j, i, lines[..k] + lines[k + 1..]);
      }
    case _ =>
  }

  lemma {:induction false} ExecKeepsSteady(j: Job, steps: seq<Step>)
    requires Steady(j) && forall k: nat :: k < |steps| ==> SteadyStep(steps[k], j.rates)
    ensures Steady(Exec(j, steps)) && Exec(j, steps).rates == j.rates
    decreases |steps|
  {
    if steps != [] {
      StepKeepsSteady(j, steps[0]);
      ExecKeepsSteady(Next(j, steps[0]), steps[1..]);
    }
  }

  /** After any history at steady rates, the next build or rebuild that has hours to
      bill leaves the job billed for at least 1 h, even if earlier carriers were
      voided, deleted or stripped of their lines. */
  lemma JobBillsAtLeastOneHour(j: Job, steps: seq<Step>, i: nat, half: nat)
    requires Steady(j) && forall k: nat :: k < |steps| ==> SteadyStep(steps[k], j.rates)
    requires LiveAt(Exec(j, steps), i) && half > 0
    ensures JobHours(Next(Exec(j, steps), Build(i, half)).invoices) >= 100
    ensures JobHours(Next(Exec(j, steps), Rebuild(i, half)).invoices) >= 100
  {
    ExecKeepsSteady(j, steps);
    AppendedBuildFills(Exec(j, steps), i, half);
    RebuildFills(Exec(j, steps), i, half);
  }

  lemma RebuildFills(j: Job, i: nat, half: nat)
    requires Steady(j) && LiveAt(j, i) && half > 0
    ensures JobHours(Next(j, Rebuild(i, half)).invoices) >= 100
  {
    var empty := WithLines(j, i, []);
    WriteKeepsSteady(j, i, []);
    AppendedBuildFills(empty, i, half);
    assert [] + BuiltLines(empty, i, half) == BuiltLines(empty, i, half);
    assert Next(j, Rebuild(i, half)) == WithLines(empty, i, BuiltLines(empty, i, half));
  }

  lemma AppendedBuildFills(j: Job, i: nat, half: nat)
    requires Steady(j) && LiveAt(j, i) && half > 0
    ensures JobHours(WithLines(j, i, j.invoices[i].lines + BuiltLines(j, i, half)).invoices) >= 100
  {
    var was, built := j.invoices[i].lines, BuiltLines(j, i, half);
    var done := WithLines(j, i, was + built);
    BuildFillsTheHour(j, i, half);
    OthersIgnoreSelf(j.invoices, done.invoices, i, |j.invoices|);
    SplitJobHours(done.invoices, i, |done.invoices|);
    QtyConcat(was, built);
    SteadyQty(j, i);
  }

  lemma QtyConcat(a: seq<LaborLine>, b: seq<LaborLine>)
    ensures TotalQty(a + b) == TotalQty(a) + TotalQty(b)
  {
    assert Map(a + b, l => LineQty(l)) == Map(a, l => LineQty(l)) + Map(b, l => LineQty(l));
    SumConcat(Map(a, l => LineQty(l)), Map(b, l => LineQty(l)));
  }

  lemma SteadyQty(j: Job, i: nat)
    requires Steady(j) && i < |j.invoices|
    ensures TotalQty(j.invoices[i].lines) >= 0
  {
    SumNonNegative(Map(j.invoices[i].lines, l => LineQty(l)));
  }

  lemma {:induction false} OthersIgnoreSelf(a: seq<Invoice>, b: seq<Invoice>, i: nat, n: nat)
    requires n <= |a| && n <= |b| && forall k: nat :: k < n && k != i ==> a[k] == b[k]
    ensures Others(a, i, n) == Others(b, i, n)
  {
    if n > 0 {
      OthersIgnoreSelf(a, b, i, n - 1);
    }
  }

  /** A void or deletion takes the invoice's hours off the job, and its first hour with them. */
  lemma RetireTakesItsHours(j: Job, i: nat)
    requires i < |j.invoices|
    ensures JobHours(Next(j, Retire(i)).invoices) == JobHours(j.invoices) - LiveQty(j.invoices[i])
    ensures !LiveAt(Next(j, Retire(i)), i)
  {
    var done := Next(j, Retire(i));
    OthersIgnoreSelf(j.invoices, done.invoices, i, |j.invoices|);
    SplitJobHours(j.invoices, i, |j.invoices|);
    SplitJobHours(done.invoices, i, |j.invoices|);
  }

  function FreshDraft(j: Job, at: int, half: nat): Job {
    Next(Next(j, Create(at)), Rebuild(|j.invoices|, half))
  }

  lemma FreshDraftBills(j: Job, at: int, half: nat)
    requires Steady(j) && SteadyStep(Create(at), j.rates)
    ensures var built := FreshDraft(j, at, half);
      && Steady(built) && built.rates == j.rates
      && JobHours(built.invoices) >= JobHours(j.invoices)
      && (half > 0 ==> JobHours(built.invoices) >= 100)
      && (half == 0 ==> JobHours(built.invoices) == JobHours(j.invoices))
  {
    var n := |j.invoices|;
    var draft := Next(j, Create(at));
    var built := FreshDraft(j, at, half);
    StepKeepsSteady(j, Create(at));
    StepKeepsSteady(draft, Rebuild(n, half));
    if half > 0 {
      JobBillsAtLeastOneHour(draft, [], n, half);
    }
    SameHoursTo(built.invoices, j.invoices, n);
    var empty := WithLines(draft, n, []);
    LaborLinesBillThePrice(half, Carried(Siblings(empty, n), j.rates), Hours(Siblings(empty, n)), j.rates);
  }

  /** One fresh draft per entry: when it is created, and how many half hours it is built with. */
  function FreshDrafts(j: Job, drafts: seq<(int, nat)>): Job
    decreases |drafts|
  {
    if drafts == [] then j else FreshDrafts(FreshDraft(j, drafts[0].0, drafts[0].1), drafts[1..])
  }

  /** In a run of fresh builds at steady rates a job bills at least 1 h from the
      first build that has hours on, and nothing before it. */
  lemma {:induction false} FreshRunsBillOneHour(j: Job, drafts: seq<(int, nat)>)
    requires Steady(j) && forall d :: d in drafts ==> SteadyStep(Create(d.0), j.rates)
    ensures var done := FreshDrafts(j, drafts);
      && JobHours(done.invoices) >= JobHours(j.invoices)
      && (if exists d :: d in drafts && d.1 > 0
          then JobHours(done.invoices) >= 100
          else JobHours(done.invoices) == JobHours(j.invoices))
    decreases |drafts|
  {
    if drafts != [] {
      assert drafts[0] in drafts;
      FreshDraftBills(j, drafts[0].0, drafts[0].1);
      assert forall d :: d in drafts <==> d == drafts[0] || d in drafts[1..];
      FreshRunsBillOneHour(FreshDraft(j, drafts[0].0, drafts[0].1), drafts[1..]);
    }
  }
}
