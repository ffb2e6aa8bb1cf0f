/**
 * How many first-hour lines a job is charged. A build looks for the first hour on
 * the job's other invoices only, so it can add a second line to the invoice that
 * already has one: exactly when that happens, and that it is the only way.
 */
module FirstHourLines {
  import opened Basics
  import opened LaborPricing
  import opened FirstHour

  function Firsts(lines: seq<LaborLine>): nat {
    if lines == [] then 0
    else Firsts(lines[..|lines| - 1]) + if lines[|lines| - 1].firstHour then 1 else 0
  }

  function LiveFirsts(inv: Invoice): nat { if inv.live then Firsts(inv.lines) else 0 }

  /** First-hour lines on the job's live invoices. */
  function JobFirsts(invs: seq<Invoice>): nat { FirstsTo(invs, |invs|) }

  function FirstsTo(invs: seq<Invoice>, n: nat): nat
    requires n <= |invs|
  {
    if n == 0 then 0 else FirstsTo(invs, n - 1) + LiveFirsts(invs[n - 1])
  }

  // ---------------------------------------------------------------------
  // Counting
  // ---------------------------------------------------------------------

  lemma {:induction false} FirstsConcat(a: seq<LaborLine>, b: seq<LaborLine>)
    ensures Firsts(a + b) == Firsts(a) + Firsts(b)
    decreases |b|
  {
    if b == [] {
      assert a + b == a;
    } else {
      var n := |b| - 1;
      assert (a + b)[..|a + b| - 1] == a + b[..n];
      FirstsConcat(a, b[..n]);
    }
  }

  lemma FirstsOne(l: LaborLine)
    ensures Firsts([l]) == if l.firstHour then 1 else 0
  {
    assert [l][..0] == [];
  }

  lemma FirstsTwo(a: LaborLine, b: LaborLine)
    ensures Firsts([a, b]) == (if a.firstHour then 1 else 0) + if b.firstHour then 1 else 0
  {
    FirstsOne(a);
    FirstsOne(b);
    FirstsConcat([a], [b]);
    assert [a] + [b] == [a, b];
  }

  lemma {:induction false} CarriesIff(lines: seq<LaborLine>)
    ensures Firsts(lines) > 0 <==> exists l :: l in lines && l.firstHour
  {
    if lines != [] {
      var n := |lines| - 1;
      CarriesIff(lines[..n]);
      assert lines == lines[..n] + [lines[n]];
    }
  }

  lemma FirstsWithout(lines: seq<LaborLine>, k: nat)
    requires k < |lines|
    ensures Firsts(lines[..k] + lines[k + 1..]) <= Firsts(lines)
  {
    assert lines == lines[..k] + ([lines[k]] + lines[k + 1..]);
    FirstsConcat(lines[..k], [lines[k]] + lines[k + 1..]);
    FirstsConcat([lines[k]], lines[k + 1..]);
    FirstsConcat(lines[..k], lines[k + 1..]);
  }

  /** Replacing one invoice moves the job's count by that invoice's. */
  lemma {:induction false} FirstsUpdate(invs: seq<Invoice>, i: nat, v: Invoice, n: nat)
    requires i < |invs| && n <= |invs|
    ensures FirstsTo(invs[i := v], n) == FirstsTo(invs, n) + if i < n then LiveFirsts(v) - LiveFirsts(invs[i]) else 0
    decreases n
  {
    if n > 0 {
      FirstsUpdate(invs, i, v, n - 1);
    }
  }

  /** Where no other live invoice carries the first hour, the job's count is the invoice's. */
  lemma {:induction false} OnlyOwnFirsts(invs: seq<Invoice>, i: nat, n: nat)
    requires n <= |invs| && forall a: nat :: a < n && a != i && invs[a].live ==> !Carries(invs[a])
    ensures FirstsTo(invs, n) == if i < n then LiveFirsts(invs[i]) else 0
    decreases n
  {
    if n > 0 {
      OnlyOwnFirsts(invs, i, n - 1);
      CarriesIff(invs[n - 1].lines);
    }
  }

  // ---------------------------------------------------------------------
  // What a build adds
  // ---------------------------------------------------------------------

  /** The build finds hours to bill, a first-hour price of its own, and no other
      invoice that carries it. */
  predicate Adds(j: Job, i: nat, half: nat) {
    half > 0 && j.rates.first != j.rates.hourly && !Carried(Siblings(j, i), j.rates)
  }

  lemma BuiltFirsts(j: Job, i: nat, half: nat)
    ensures Firsts(BuiltLines(j, i, half)) == if Adds(j, i, half) then 1 else 0
  {
    var charged, elsewhere := Carried(Siblings(j, i), j.rates), Hours(Siblings(j, i));
    var man := BilledQty(half, charged, elsewhere);
    FirstsOne(NewLine(false, man, j.rates.hourly));
    FirstsOne(NewLine(true, man, j.rates.first));
    if man > 100 {
      var first, rest := NewLine(true, 100, j.rates.first), NewLine(false, man - 100, j.rates.hourly);
      FirstsTwo(first, rest);
    }
  }

  /** Whatever the invoice already has, a build adds one more first-hour line exactly
      when it finds hours, unequal rates and no other carrier. */
  lemma BuildAddsIff(j: Job, i: nat, half: nat)
    requires LiveAt(j, i)
    ensures JobFirsts(Next(j, Build(i, half)).invoices) == JobFirsts(j.invoices) + if Adds(j, i, half) then 1 else 0
  {
    var v := j.invoices[i];
    BuiltFirsts(j, i, half);
    FirstsConcat(v.lines, BuiltLines(j, i, half));
    FirstsUpdate(j.invoices, i, v.(lines := v.lines + BuiltLines(j, i, half)), |j.invoices|);
  }

  /** A build that adds a line is the job's only carrier. */
  lemma AddsAlone(j: Job, i: nat, half: nat)
    requires LiveAt(j, i) && Adds(j, i, half)
    ensures JobFirsts(j.invoices) == Firsts(j.invoices[i].lines)
  {
    BuiltFirsts(j, i, half);
    CarriesIff(BuiltLines(j, i, half));
    var l :| l in BuiltLines(j, i, half) && l.firstHour;
    BuildDefersToCarrier(j, i, half, l);
    OnlyOwnFirsts(j.invoices, i, |j.invoices|);
  }

  // ---------------------------------------------------------------------
  // Once per job
  // ---------------------------------------------------------------------

  /** A build that adds a first-hour line to an invoice that has one. */
  predicate DoublesUp(j: Job, step: Step) {
    && step.Build? && LiveAt(j, step.i) && Adds(j, step.i, step.half)
    && Carries(j.invoices[step.i])
  }

  lemma BuildKeepsOneIff(j: Job, i: nat, half: nat)
    requires JobFirsts(j.invoices) <= 1 && LiveAt(j, i)
    ensures JobFirsts(Next(j, Build(i, half)).invoices) <= 1 <==> !DoublesUp(j, Build(i, half))
  {
    BuildAddsIff(j, i, half);
    CarriesIff(j.invoices[i].lines);
    if Adds(j, i, half) {
      AddsAlone(j, i, half);
    }
  }

  lemma RebuildKeepsOne(j: Job, i: nat, half: nat)
    requires JobFirsts(j.invoices) <= 1 && LiveAt(j, i)
    ensures JobFirsts(Next(j, Rebuild(i, half)).invoices) <= 1
  {
    var empty := WithLines(j, i, []);
    FirstsUpdate(j.invoices, i, j.invoices[i].(lines := []), |j.invoices|);
    BuildKeepsOneIff(empty, i, half);
    assert [] + BuiltLines(empty, i, half) == BuiltLines(empty, i, half);
    assert Next(j, Rebuild(i, half)) == Next(empty, Build(i, half));
  }

  lemma CreateKeepsCount(j: Job, at: int)
    ensures JobFirsts(Next(j, Create(at)).invoices) == JobFirsts(j.invoices)
  {
    SameFirstsTo(j.invoices, Next(j, Create(at)).invoices, |j.invoices|);
  }

  lemma {:induction false} SameFirstsTo(a: seq<Invoice>, b: seq<Invoice>, n: nat)
    requires n <= |a| && n <= |b| && forall k: nat :: k < n ==> a[k] == b[k]
    ensures FirstsTo(a, n) == FirstsTo(b, n)
    decreases n
  {
    if n > 0 {
      SameFirstsTo(a, b, n - 1);
    }
  }

  /** From a job with at most one first-hour line, a step leaves it so exactly unless it
      doubles up: a condition on the job before the call. */
  lemma StepKeepsOneIff(j: Job, step: Step)
    requires JobFirsts(j.invoices) <= 1
    ensures JobFirsts(Next(j, step).invoices) <= 1 <==> !DoublesUp(j, step)
  {
    match step
    case Create(at) => CreateKeepsCount(j, at);
    case Build(i, half) => if LiveAt(j, i) { BuildKeepsOneIff(j, i, half); }
    case Rebuild(i, half) => if LiveAt(j, i) { RebuildKeepsOne(j, i, half); }
    case DropLine(i, k) =>
      if i < |j.invoices| && k < |j.invoices[i].lines| {
        var v := j.invoices[i];
        FirstsWithout(v.lines, k);
        FirstsUpdate(j.invoices, i, v.(lines := v.lines[..k] + v.lines[k + 1..]), |j.invoices|);
      }
    case Retire(i) =>
      if i < |j.invoices| {
        FirstsUpdate(j.invoices, i, j.invoices[i].(live := false), |j.invoices|);
      }
    case SetRates(_) =>
  }

  predicate NoneDoublesUp(j: Job, steps: seq<Step>)
    decreases |steps|
  {
    steps == [] || (!DoublesUp(j, steps[0]) && NoneDoublesUp(Next(j, steps[0]), steps[1..]))
  }

  /** The job has at most one first-hour line at every point of its history. */
  predicate OnceThroughout(j: Job, steps: seq<Step>)
    decreases |steps|
  {
    JobFirsts(j.invoices) <= 1 && (steps == [] || OnceThroughout(Next(j, steps[0]), steps[1..]))
  }

  /** Over every history, the job's live invoices never carry more than one first-hour
      line exactly if no build met an invoice that carries it and added another. */
  lemma {:induction false} OnceThroughoutIff(j: Job, steps: seq<Step>)
    requires JobFirsts(j.invoices) <= 1
    ensures OnceThroughout(j, steps) <==> NoneDoublesUp(j, steps)
    decreases |steps|
  {
    if steps != [] {
      StepKeepsOneIff(j, steps[0]);
      if !DoublesUp(j, steps[0]) {
        OnceThroughoutIff(Next(j, steps[0]), steps[1..]);
      }
    }
  }

  lemma {:induction false} OnceAtTheEnd(j: Job, steps: seq<Step>)
    requires OnceThroughout(j, steps)
    ensures JobFirsts(Exec(j, steps).invoices) <= 1
    decreases |steps|
  {
    if steps != [] {
      OnceAtTheEnd(Next(j, steps[0]), steps[1..]);
    }
  }

  /** So over every such history the job is charged one first-hour line at most, of at
      most 1 h. */
  lemma FirstHourOncePerJob(j: Job, steps: seq<Step>)
    requires OneCarrier(j) && JobFirsts(j.invoices) <= 1 && NoneDoublesUp(j, steps)
    ensures JobFirsts(Exec(j, steps).invoices) <= 1
    ensures forall a: nat, l :: LiveAt(Exec(j, steps), a) && l in Exec(j, steps).invoices[a].lines && l.firstHour ==>
      l.qty <= 100
  {
    OnceThroughoutIff(j, steps);
    OnceAtTheEnd(j, steps);
    OneInvoiceCarries(j, steps);
  }

  // ---------------------------------------------------------------------
  // Twice
  // ---------------------------------------------------------------------

  const Premium := Rates(12500, 10000, None)
  const FirstLine := NewLine(true, 100, 12500)

  function JobWith(lines: seq<LaborLine>): Job { Job([Invoice(lines, true, 0)], Premium) }

  /** One hour billed, and an hour of new work added to the same invoice: the invoice
      charges the first hour twice. */
  lemma SecondBuildChargesItAgain()
    ensures Exec(Job([], Premium), [Create(0), Build(0, 2), Build(0, 2)]) == JobWith([FirstLine, FirstLine])
    ensures JobFirsts(JobWith([FirstLine, FirstLine]).invoices) == 2
  {
    ExecThree(Job([], Premium), Create(0), Build(0, 2), Build(0, 2));
    assert [] + [Invoice([], true, 0)] == JobWith([]).invoices;
    BuildsOn([]);
    BuildsOn([FirstLine]);
    assert [] + [FirstLine] == [FirstLine] && [FirstLine] + [FirstLine] == [FirstLine, FirstLine];
    FirstsTwo(FirstLine, FirstLine);
    var invs := JobWith([FirstLine, FirstLine]).invoices;
    assert FirstsTo(invs, 1) == FirstsTo(invs, 0) + LiveFirsts(invs[0]);
  }

  lemma BuildsOn(lines: seq<LaborLine>)
    ensures Next(JobWith(lines), Build(0, 2)) == JobWith(lines + [FirstLine])
  {
    LoneBuild(JobWith(lines));
  }

  lemma ExecThree(j: Job, a: Step, b: Step, c: Step)
    ensures Exec(j, [a, b, c]) == Next(Next(Next(j, a), b), c)
  {
    assert [a, b, c][1..] == [b, c] && [b, c][1..] == [c] && [c][1..] == [];
    var j1, j2 := Next(j, a), Next(Next(j, a), b);
    assert Exec(j2, [c]) == Exec(Next(j2, c), []);
    assert Exec(j1, [b, c]) == Exec(j2, [c]);
  }

  lemma LoneBuild(j: Job)
    requires |j.invoices| == 1 && j.rates == Premium
    ensures BuiltLines(j, 0, 2) == [FirstLine]
  {
    assert Others(j.invoices, 0, 0) == [];
    assert Siblings(j, 0) == [];
    NoHours(j.rates);
  }

  lemma NoHours(rates: Rates)
    ensures Hours([]) == 0 && OlderHours([], rates) == 0
  {
    assert Map([], (l: SiblingLine) => Qty(l)) == [];
    assert Map([], (l: SiblingLine) => OlderQty(l, rates)) == [];
  }

  /** Two builds that both read before either writes: wherever each would add the line on
      its own, both do, and the job is charged it twice. */
  lemma OverlappingBuildsChargeTwice(j: Job, i: nat, k: nat, halfI: nat, halfK: nat)
    requires LiveAt(j, i) && LiveAt(j, k) && i != k && Adds(j, i, halfI) && Adds(j, k, halfK)
    ensures var one := WithLines(j, i, j.invoices[i].lines + BuiltLines(j, i, halfI));
      JobFirsts(WithLines(one, k, j.invoices[k].lines + BuiltLines(j, k, halfK)).invoices) == 2
  {
    var v, w := j.invoices[i], j.invoices[k];
    var one := WithLines(j, i, v.lines + BuiltLines(j, i, halfI));
    AddsAlone(j, i, halfI);
    AddsAlone(j, k, halfK);
    NoOtherCarrier(j, i, halfI, k);
    BuiltFirsts(j, i, halfI);
    BuiltFirsts(j, k, halfK);
    FirstsConcat(v.lines, BuiltLines(j, i, halfI));
    FirstsConcat(w.lines, BuiltLines(j, k, halfK));
    FirstsUpdate(j.invoices, i, v.(lines := v.lines + BuiltLines(j, i, halfI)), |j.invoices|);
    FirstsUpdate(one.invoices, k, w.(lines := w.lines + BuiltLines(j, k, halfK)), |j.invoices|);
  }

  lemma NoOtherCarrier(j: Job, i: nat, half: nat, k: nat)
    requires LiveAt(j, i) && LiveAt(j, k) && i != k && Adds(j, i, half)
    ensures Firsts(j.invoices[k].lines) == 0
  {
    BuiltFirsts(j, i, half);
    CarriesIff(BuiltLines(j, i, half));
    var l :| l in BuiltLines(j, i, half) && l.firstHour;
    BuildDefersToCarrier(j, i, half, l);
    CarriesIff(j.invoices[k].lines);
  }
}
