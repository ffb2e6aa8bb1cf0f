/**
 * Which earlier invoices to credit, and for how much, when a restatement lowers
 * a closeout's hours below what is already invoiced.
 *
 * Quantities are hundredths of an hour, money is cents. A closeout's claim is
 * in half hours, so it weighs 50.
 */
module CreditPass {
  import opened Basics
  import opened Closeouts
  import opened LaborPricing

  datatype InvoiceLine = InvoiceLine(labor: bool, firstHourText: bool, qty: int, unit: int)

  datatype Invoice = Invoice(status: Status, deleted: bool, lines: seq<InvoiceLine>, credited: nat, balance: int)

  predicate Live(v: Invoice) { Standing(v.status, v.deleted) }

  predicate Issued(v: Invoice) { v.status == Sent || v.status == Overdue || v.status == Paid }

  function LiveIds(invs: seq<Invoice>): (live: set<InvoiceId>)
    ensures forall i :: i in live <==> 0 <= i < |invs| && Live(invs[i])
  {
    set i | 0 <= i < |invs| && Live(invs[i])
  }

  function LaborQty(l: InvoiceLine): int { if l.labor then l.qty else 0 }

  /** `_invoice_labor_hours` */
  function LaborHours(v: Invoice): int { Sum(Map(v.lines, l => LaborQty(l))) }

  function IssuedLabor(v: Invoice): int { if Live(v) && Issued(v) then LaborHours(v) else 0 }

  /** `_job_labor_hours_billed`: every invoice here is the job's. */
  function JobLabor(invs: seq<Invoice>): int { Sum(Map(invs, v => IssuedLabor(v))) }

  predicate SetsRate(l: InvoiceLine) { l.labor && !l.firstHourText && l.qty > 0 && l.unit > 0 }

  /** The lowest price of a labor line that is not the first hour's, bills something and
      costs something; the shop's rate where there is none. */
  ghost predicate IsTheRate(lines: seq<InvoiceLine>, rate: nat, shopRate: nat) {
    && (forall l :: l in lines && l.labor && !l.firstHourText && l.qty > 0 && l.unit > 0 ==> rate <= l.unit)
    && (|| (exists l :: l in lines && l.labor && !l.firstHourText && l.qty > 0 && l.unit > 0 && l.unit == rate)
        || (rate == shopRate && forall l :: l in lines && l.labor && !l.firstHourText && l.qty > 0 ==> l.unit <= 0))
  }

  lemma RateOfIsTheRate(lines: seq<InvoiceLine>, shopRate: nat)
    ensures IsTheRate(lines, RateOf(lines, shopRate), shopRate)
  {
    LowestRateIsLowest(lines);
  }

  /** `_billed_hourly_rate`: the lowest rate a labor line shows, else the shop's. */
  method BilledHourlyRate(v: Invoice, shopRate: nat) returns (rate: nat)
    ensures rate == RateOf(v.lines, shopRate)
    ensures IsTheRate(v.lines, rate, shopRate)
  {
    var best: Option<nat> := None;
    for k := 0 to |v.lines|
      invariant best == LowestRate(v.lines[..k])
    {
      assert v.lines[..k + 1][..k] == v.lines[..k];
      var l := v.lines[k];
      if SetsRate(l) && (best.None? || l.unit < best.value) {
        best := Some(l.unit);
      }
    }
    assert v.lines[..|v.lines|] == v.lines;
    RateOfIsTheRate(v.lines, shopRate);
    rate := if best.Some? then best.value else shopRate;
  }

  function LowestRate(lines: seq<InvoiceLine>): Option<nat> {
    if lines == [] then None
    else
      var before := LowestRate(lines[..|lines| - 1]);
      var l := lines[|lines| - 1];
      if SetsRate(l) && (before.None? || l.unit < before.value) then Some(l.unit) else before
  }

  lemma {:induction false} LowestRateIsLowest(lines: seq<InvoiceLine>)
    ensures LowestRate(lines).None? <==> forall l :: l in lines ==> !SetsRate(l)
    ensures LowestRate(lines).Some? ==>
      && (forall l :: l in lines && SetsRate(l) ==> LowestRate(lines).value <= l.unit)
      && (exists l :: l in lines && SetsRate(l) && l.unit == LowestRate(lines).value)
  {
    if lines != [] {
      var n := |lines| - 1;
      LowestRateIsLowest(lines[..n]);
      assert lines == lines[..n] + [lines[n]];
    }
  }

  function RateOf(lines: seq<InvoiceLine>, shopRate: nat): nat {
    var r := LowestRate(lines);
    if r.Some? then r.value else shopRate
  }

  // ---------------------------------------------------------------------
  // Who holds what
  // ---------------------------------------------------------------------

  /** Half hours that invoice `i` billed through the closeouts of `ids`. */
  function ClaimedBy(t: seq<Closeout>, ids: seq<nat>, i: InvoiceId): nat
    requires forall k: nat :: k < |ids| ==> ids[k] < |t|
  {
    if ids == [] then 0
    else
      var n := |ids| - 1;
      ClaimedBy(t, ids[..n], i) + if t[ids[n]].billedBy == Some(i) then ClaimManHours(t[ids[n]]) else 0
  }

  /** Where in `ids` invoice `i` first appears; `|ids|` when it does not. */
  function FirstAt(t: seq<Closeout>, ids: seq<nat>, i: InvoiceId): (r: nat)
    requires forall k: nat :: k < |ids| ==> ids[k] < |t|
    ensures r <= |ids|
    ensures r < |ids| ==> t[ids[r]].billedBy == Some(i)
  {
    if ids == [] then 0
    else
      var n := |ids| - 1;
      var before := FirstAt(t, ids[..n], i);
      if before < n || t[ids[n]].billedBy == Some(i) then before else |ids|
  }

  datatype Holding = Holding(inv: InvoiceId, half: nat)

  /** The `held` dictionary: one entry per issued live invoice that holds a row
      of the run, with everything it claimed there, newest closeout first. */
  ghost predicate IsHeld(t: seq<Closeout>, invs: seq<Invoice>, ids: seq<nat>, held: seq<Holding>) {
    && (forall k: nat :: k < |ids| ==> ids[k] < |t|)
    && (forall x: nat :: x < |held| ==>
          && held[x].inv < |invs| && SentOut(invs[held[x].inv])
          && FirstAt(t, ids, held[x].inv) < |ids|
          && held[x].half == ClaimedBy(t, ids, held[x].inv))
    && (forall x: nat, y: nat :: x < y < |held| ==>
          FirstAt(t, ids, held[x].inv) < FirstAt(t, ids, held[y].inv))
    && (forall k: nat, i: nat :: k < |ids| && t[ids[k]].billedBy == Some(i) && i < |invs| && SentOut(invs[i]) ==>
          exists x: nat :: x < |held| && held[x].inv == i)
  }

  /** Sent, overdue or paid, and not deleted. */
  predicate SentOut(v: Invoice) { !v.deleted && v.status != Draft && v.status != VoidStatus }

  predicate Holds(t: seq<Closeout>, invs: seq<Invoice>, id: nat)
    requires id < |t|
  {
    var h := Holder(t[id], LiveIds(invs));
    h.Some? && Issued(invs[h.value])
  }

  lemma FirstAtStep(t: seq<Closeout>, ids: seq<nat>, id: nat, i: InvoiceId)
    requires id < |t| && forall k: nat :: k < |ids| ==> ids[k] < |t|
    ensures FirstAt(t, ids + [id], i) ==
      if FirstAt(t, ids, i) < |ids| || t[id].billedBy == Some(i) then FirstAt(t, ids, i) else |ids| + 1
    ensures ClaimedBy(t, ids + [id], i) ==
      ClaimedBy(t, ids, i) + if t[id].billedBy == Some(i) then ClaimManHours(t[id]) else 0
  {
    assert (ids + [id])[..|ids|] == ids;
  }

  /** What one more row of the run does to the dictionary. */
  function Collect(t: seq<Closeout>, invs: seq<Invoice>, id: nat, held: seq<Holding>, x: nat): seq<Holding>
    requires id < |t| && x <= |held|
  {
    if !Holds(t, invs, id) then held
    else if x < |held| then held[x := Holding(held[x].inv, held[x].half + ClaimManHours(t[id]))]
    else held + [Holding(t[id].billedBy.value, ClaimManHours(t[id]))]
  }

  lemma CollectKeepsHeld(t: seq<Closeout>, invs: seq<Invoice>, ids: seq<nat>, id: nat, held: seq<Holding>, x: nat)
    requires IsHeld(t, invs, ids, held) && id < |t| && x <= |held|
    requires Holds(t, invs, id) ==> forall y: nat :: y < x ==> held[y].inv != t[id].billedBy.value
    requires Holds(t, invs, id) && x < |held| ==> held[x].inv == t[id].billedBy.value
    ensures IsHeld(t, invs, ids + [id], Collect(t, invs, id, held, x))
  {
    var now := ids + [id];
    var held' := Collect(t, invs, id, held, x);
    if Holds(t, invs, id) && x == |held| {
      FirstAtMissing(t, invs, ids, held, t[id].billedBy.value);
    }
    forall y: nat | y < |held'|
      ensures held'[y].inv < |invs| && SentOut(invs[held'[y].inv])
      ensures FirstAt(t, now, held'[y].inv) < |now|
      ensures held'[y].half == ClaimedBy(t, now, held'[y].inv)
      ensures y < |held| ==> FirstAt(t, now, held'[y].inv) == FirstAt(t, ids, held[y].inv)
      ensures y == |held| ==> FirstAt(t, now, held'[y].inv) == |ids|
    {
      FirstAtStep(t, ids, id, held'[y].inv);
      if y < |held| && y != x && Holds(t, invs, id) {
        SameInvoiceSameEntry(t, invs, ids, held, x, y);
      }
    }
    forall k: nat, i: nat | k < |now| && t[now[k]].billedBy == Some(i) && i < |invs| && SentOut(invs[i])
      ensures exists y: nat :: y < |held'| && held'[y].inv == i
    {
      if k == |ids| {
        assert Holds(t, invs, id);
        assert held'[x].inv == i;
      } else {
        var y: nat :| y < |held| && held[y].inv == i;
        assert held'[y].inv == i;
      }
    }
  }

  lemma SameInvoiceSameEntry(t: seq<Closeout>, invs: seq<Invoice>, ids: seq<nat>, held: seq<Holding>, x: nat, y: nat)
    requires IsHeld(t, invs, ids, held) && x <= |held| && y < |held| && x != y
    ensures x < |held| ==> held[x].inv != held[y].inv
  {
  }

  lemma FirstAtMissing(t: seq<Closeout>, invs: seq<Invoice>, ids: seq<nat>, held: seq<Holding>, i: InvoiceId)
    requires IsHeld(t, invs, ids, held)
    requires i < |invs| && SentOut(invs[i])
    requires forall y: nat :: y < |held| ==> held[y].inv != i
    ensures FirstAt(t, ids, i) == |ids| && ClaimedBy(t, ids, i) == 0
  {
    NoClaim(t, ids, i);
  }

  lemma {:induction false} NoClaim(t: seq<Closeout>, ids: seq<nat>, i: InvoiceId)
    requires forall k: nat :: k < |ids| ==> ids[k] < |t|
    requires FirstAt(t, ids, i) == |ids|
    ensures ClaimedBy(t, ids, i) == 0
  {
    if ids != [] {
      NoClaim(t, ids[..|ids| - 1], i);
    }
  }

  /** The dictionary's entry for an invoice, or the place behind the last one. */
  method FindEntry(held: seq<Holding>, i: InvoiceId) returns (x: nat)
    ensures x <= |held| && (x < |held| ==> held[x].inv == i) && forall y: nat :: y < x ==> held[y].inv != i
  {
    x := 0;
    while x < |held| && held[x].inv != i
      invariant x <= |held| && forall y: nat :: y < x ==> held[y].inv != i
    {
      x := x + 1;
    }
  }

  method CollectHeld(t: seq<Closeout>, invs: seq<Invoice>, ids: seq<nat>) returns (held: seq<Holding>)
    requires forall k: nat :: k < |ids| ==> ids[k] < |t|
    ensures IsHeld(t, invs, ids, held)
  {
    held := [];
    for k := 0 to |ids|
      invariant IsHeld(t, invs, ids[..k], held)
    {
      var id := ids[k];
      var x := 0;
      if Holds(t, invs, id) {
        x := FindEntry(held, t[id].billedBy.value);
      }
      CollectNext(t, invs, ids, k, held, x);
      held := Collect(t, invs, id, held, x);
    }
    assert ids[..|ids|] == ids;
  }

  lemma CollectNext(t: seq<Closeout>, invs: seq<Invoice>, ids: seq<nat>, k: nat, held: seq<Holding>, x: nat)
    requires k < |ids| && ids[k] < |t| && IsHeld(t, invs, ids[..k], held) && x <= |held|
    requires Holds(t, invs, ids[k]) ==> forall y: nat :: y < x ==> held[y].inv != t[ids[k]].billedBy.value
    requires Holds(t, invs, ids[k]) && x < |held| ==> held[x].inv == t[ids[k]].billedBy.value
    ensures IsHeld(t, invs, ids[..k + 1], Collect(t, invs, ids[k], held, x))
  {
    CollectKeepsHeld(t, invs, ids[..k], ids[k], held, x);
    assert ids[..k + 1] == ids[..k] + [ids[k]];
  }

  // ---------------------------------------------------------------------
  // The greedy pass
  // ---------------------------------------------------------------------

  /** What an invoice can be asked for: what it claimed, and no more labor than it still bills. */
  function Creditable(invs: seq<Invoice>, h: Holding): int
    requires h.inv < |invs|
  {
    Min(50 * h.half, LaborHours(invs[h.inv]))
  }

  function Caps(invs: seq<Invoice>, held: seq<Holding>): (caps: seq<int>)
    requires forall x: nat :: x < |held| ==> held[x].inv < |invs|
    ensures |caps| == |held|
    ensures forall x: nat :: x < |held| ==> caps[x] == Creditable(invs, held[x])
  {
    seq(|held|, x requires 0 <= x < |held| => Creditable(invs, held[x]))
  }

  /** The share of the first hour that labor elsewhere on the job does not hold. */
  function Floor(job: int, billed: int): nat { Max(0, 100 - Max(0, job - billed)) }

  function Excess(attested: nat, job: int, billed: int): int { billed - Max(attested, Floor(job, billed)) }

  /** Hours taken from each invoice in turn. */
  function Takes(caps: seq<int>, excess: int): (takes: seq<nat>)
    ensures |takes| == |caps|
  {
    if caps == [] then []
    else
      var take := Max(0, Min(excess, caps[0]));
      [take] + Takes(caps[1..], excess - take)
  }

  function Positive(caps: seq<int>): nat {
    if caps == [] then 0 else Max(0, caps[0]) + Positive(caps[1..])
  }

  /** The pass takes exactly the excess, or everything there is. */
  lemma {:induction false} TakesTheExcess(caps: seq<int>, excess: int)
    ensures Sum(Takes(caps, excess)) == Max(0, Min(excess, Positive(caps)))
    ensures Sum(caps) <= Positive(caps)
  {
    if caps != [] {
      var take: nat := Max(0, Min(excess, caps[0]));
      TakesTheExcess(caps[1..], excess - take);
      assert Takes(caps, excess)[1..] == Takes(caps[1..], excess - take);
    }
  }

  lemma {:induction false} TakesNothing(caps: seq<int>, excess: int)
    requires excess <= 0
    ensures Sum(Takes(caps, excess)) == 0
    ensures forall x: nat :: x < |caps| ==> Takes(caps, excess)[x] == 0
  {
    if caps != [] {
      TakesNothing(caps[1..], excess);
      assert Takes(caps, excess)[1..] == Takes(caps[1..], excess);
    }
  }

  /** Each invoice gives at most its cap, and an invoice that keeps some of its
      cap is the last one asked: newer invoices are drained first. */
  lemma {:induction false} TakesNewestFirst(caps: seq<int>, excess: int, x: nat)
    requires x < |caps|
    ensures var takes := Takes(caps, excess);
      && takes[x] <= Max(0, caps[x])
      && (takes[x] < caps[x] ==> forall y: nat :: x < y < |caps| ==> takes[y] == 0)
  {
    var take: nat := Max(0, Min(excess, caps[0]));
    var rest := Takes(caps[1..], excess - take);
    assert Takes(caps, excess)[1..] == rest;
    if x > 0 {
      TakesNewestFirst(caps[1..], excess - take, x - 1);
      assert forall y: nat :: x < y < |caps| ==> Takes(caps, excess)[y] == rest[y - 1];
    } else if take < caps[0] {
      TakesNothing(caps[1..], excess - take);
      assert forall y: nat :: 0 < y < |caps| ==> Takes(caps, excess)[y] == rest[y - 1];
    }
  }

  datatype Target = Target(
    inv: InvoiceId, qty: nat, rate: nat, creditValue: nat, balance: int, amount: nat, creditable: bool)

  function Owed(v: Invoice, take: nat, shopRate: nat): nat {
    Max(0, HalfEven(take * RateOf(v.lines, shopRate), 100) - v.credited)
  }

  predicate Open(v: Invoice) { (v.status == Sent || v.status == Overdue) && v.balance > 0 }

  function Offer(v: Invoice, inv: InvoiceId, take: nat, shopRate: nat): Target {
    var owed := Owed(v, take, shopRate);
    Target(inv, take, RateOf(v.lines, shopRate), owed, v.balance, if Open(v) then Min(owed, v.balance) else 0, Open(v))
  }

  /** An invoice that was asked for hours and owes nothing is left out. */
  function OneOffer(v: Invoice, inv: InvoiceId, take: nat, shopRate: nat): seq<Target> {
    if take > 0 && Owed(v, take, shopRate) > 0 then [Offer(v, inv, take, shopRate)] else []
  }

  function Offers(invs: seq<Invoice>, held: seq<Holding>, takes: seq<nat>, shopRate: nat): seq<Target>
    requires |takes| == |held| && forall x: nat :: x < |held| ==> held[x].inv < |invs|
  {
    if held == [] then []
    else
      var n := |held| - 1;
      Offers(invs, held[..n], takes[..n], shopRate) + OneOffer(invs[held[n].inv], held[n].inv, takes[n], shopRate)
  }

  lemma OffersStep(invs: seq<Invoice>, held: seq<Holding>, takes: seq<nat>, shopRate: nat, k: nat)
    requires |takes| == |held| && k < |held| && forall x: nat :: x < |held| ==> held[x].inv < |invs|
    ensures Offers(invs, held[..k + 1], takes[..k + 1], shopRate)
         == Offers(invs, held[..k], takes[..k], shopRate) + OneOffer(invs[held[k].inv], held[k].inv, takes[k], shopRate)
  {
    assert held[..k + 1][..k] == held[..k] && takes[..k + 1][..k] == takes[..k];
  }

  method PriceOffer(v: Invoice, inv: InvoiceId, take: nat, shopRate: nat) returns (offers: seq<Target>)
    requires take > 0
    ensures offers == OneOffer(v, inv, take, shopRate)
  {
    offers := [];
    var rate := BilledHourlyRate(v, shopRate);
    var owed := Max(0, HalfEven(take * rate, 100) - v.credited);
    if owed > 0 {
      offers := [Target(inv, take, rate, owed, v.balance, if Open(v) then Min(owed, v.balance) else 0, Open(v))];
    }
  }

  /** One turn of the loop: an invoice with nothing to give is passed over. */
  method AskInvoice(v: Invoice, inv: InvoiceId, cap: int, excess: int, shopRate: nat)
    returns (offers: seq<Target>, left: int)
    requires excess > 0
    ensures left == excess - Max(0, Min(excess, cap))
    ensures offers == OneOffer(v, inv, Max(0, Min(excess, cap)), shopRate)
  {
    var take := Min(excess, cap);
    offers, left := [], excess;
    if take > 0 {
      left := excess - take;
      offers := PriceOffer(v, inv, take, shopRate);
    }
  }

  method GreedyPass(invs: seq<Invoice>, held: seq<Holding>, caps: seq<int>, allExcess: int, shopRate: nat)
    returns (targets: seq<Target>)
    requires |caps| == |held| && forall x: nat :: x < |held| ==> held[x].inv < |invs|
    ensures targets == Offers(invs, held, Takes(caps, allExcess), shopRate)
  {
    targets := [];
    var excess := allExcess;
    ghost var takes := Takes(caps, allExcess);
    var x := 0;
    while x < |held| && excess > 0
      invariant 0 <= x <= |held|
      invariant takes[x..] == Takes(caps[x..], excess)
      invariant targets == Offers(invs, held[..x], takes[..x], shopRate)
    {
      PassStep(invs, held, caps, takes, excess, shopRate, x);
      var offers, left := AskInvoice(invs[held[x].inv], held[x].inv, caps[x], excess, shopRate);
      targets, excess, x := targets + offers, left, x + 1;
    }
    PassEnds(invs, held, caps, takes, excess, shopRate, x);
  }

  /** The loop stops at the end, or with nothing left to take. */
  lemma {:induction false} PassEnds(invs: seq<Invoice>, held: seq<Holding>, caps: seq<int>, takes: seq<nat>,
                                    excess: int, shopRate: nat, x: nat)
    requires |caps| == |held| == |takes| && x <= |held| && (x == |held| || excess <= 0)
    requires forall y: nat :: y < |held| ==> held[y].inv < |invs|
    requires takes[x..] == Takes(caps[x..], excess)
    ensures Offers(invs, held, takes, shopRate) == Offers(invs, held[..x], takes[..x], shopRate)
  {
    if x < |held| {
      TakesNothing(caps[x..], excess);
      assert forall y: nat :: x <= y < |held| ==> takes[y] == takes[x..][y - x];
    }
    NothingMoreToOffer(invs, held, takes, shopRate, x);
  }

  /** The hours taken in one turn, and what they add to the offers. */
  lemma {:induction false} PassStep(invs: seq<Invoice>, held: seq<Holding>, caps: seq<int>, takes: seq<nat>,
                                    excess: int, shopRate: nat, x: nat)
    requires |caps| == |held| == |takes| && x < |held| && excess > 0
    requires forall y: nat :: y < |held| ==> held[y].inv < |invs|
    requires takes[x..] == Takes(caps[x..], excess)
    ensures var take := Max(0, Min(excess, caps[x]));
      && takes[x + 1..] == Takes(caps[x + 1..], excess - take)
      && Offers(invs, held[..x + 1], takes[..x + 1], shopRate)
         == Offers(invs, held[..x], takes[..x], shopRate) + OneOffer(invs[held[x].inv], held[x].inv, take, shopRate)
  {
    TakesUnfold(caps, takes, excess, x);
    OffersStep(invs, held, takes, shopRate, x);
  }

  method TargetsFor(attested: nat, invs: seq<Invoice>, held: seq<Holding>, shopRate: nat)
    returns (targets: seq<Target>)
    requires forall x: nat :: x < |held| ==> held[x].inv < |invs|
    ensures targets == Offers(invs, held, Taken(invs, held, attested), shopRate)
  {
    targets := [];
    if held == [] {
      return;
    }
    var caps := Caps(invs, held);
    var billed := Sum(caps);
    var elsewhere := Max(0, JobLabor(invs) - billed);
    var floor := Max(0, 100 - elsewhere);
    var excess := billed - Max(attested, floor);
    assert Takes(caps, excess) == Taken(invs, held, attested);
    targets := GreedyPass(invs, held, caps, excess, shopRate);
  }

  /** `restatement_credit_targets` */
  method RestatementCreditTargets(t: seq<Closeout>, invs: seq<Invoice>, c: nat, shopRate: nat)
    returns (targets: seq<Target>, held: seq<Holding>)
    requires c < |t|
    ensures IsHeld(t, invs, Run(t, c), held)
    ensures targets == Offers(invs, held, Taken(invs, held, 50 * ManHours(t[c])), shopRate)
    ensures forall o :: o in targets ==> o.inv < |invs| && IsTarget(invs[o.inv], o, shopRate)
  {
    var run := RestatedRun(t, c);
    held := CollectHeld(t, invs, run);
    targets := TargetsFor(50 * ManHours(t[c]), invs, held, shopRate);
    OffersAreTargets(invs, held, Taken(invs, held, 50 * ManHours(t[c])), shopRate);
  }

  /** What a target says of its invoice: a credit memo is possible on a sent or overdue
      invoice with an open balance, and nowhere else; it names the smaller of value and
      balance there, else nothing; the value is the nearest cent to hours times rate, less
      what was credited already. */
  ghost predicate IsTarget(v: Invoice, o: Target, shopRate: nat) {
    && (o.creditable <==> (v.status == Sent || v.status == Overdue) && v.balance > 0)
    && o.amount == (if !o.creditable then 0 else if o.creditValue <= v.balance then o.creditValue else v.balance)
    && o.qty > 0 && o.creditValue > 0 && o.balance == v.balance && IsTheRate(v.lines, o.rate, shopRate)
    && 2 * (o.qty * o.rate) - 100 <= 200 * (o.creditValue + v.credited) <= 2 * (o.qty * o.rate) + 100
  }

  lemma OfferIsTarget(v: Invoice, inv: InvoiceId, take: nat, shopRate: nat)
    requires take > 0 && Owed(v, take, shopRate) > 0
    ensures IsTarget(v, Offer(v, inv, take, shopRate), shopRate)
  {
    RateOfIsTheRate(v.lines, shopRate);
    HalfEvenIsNearest(take * RateOf(v.lines, shopRate), 100);
  }

  lemma {:induction false} OffersAreTargets(invs: seq<Invoice>, held: seq<Holding>, takes: seq<nat>, shopRate: nat)
    requires |takes| == |held| && forall x: nat :: x < |held| ==> held[x].inv < |invs|
    ensures forall o :: o in Offers(invs, held, takes, shopRate) ==>
      o.inv < |invs| && IsTarget(invs[o.inv], o, shopRate)
    decreases |held|
  {
    if held != [] {
      var n := |held| - 1;
      var v := invs[held[n].inv];
      OffersAreTargets(invs, held[..n], takes[..n], shopRate);
      if takes[n] > 0 && Owed(v, takes[n], shopRate) > 0 {
        OfferIsTarget(v, held[n].inv, takes[n], shopRate);
      }
    }
  }

  /** Nothing is owed exactly when the hours are worth no more than was credited. */
  lemma NothingOwedIff(v: Invoice, take: nat, shopRate: nat)
    ensures Owed(v, take, shopRate) == 0 ==> 2 * (take * RateOf(v.lines, shopRate)) <= 200 * v.credited + 100
    ensures Owed(v, take, shopRate) > 0 ==> 2 * (take * RateOf(v.lines, shopRate)) > 200 * v.credited
  {
    HalfEvenIsNearest(take * RateOf(v.lines, shopRate), 100);
  }

  /** An invoice adds its labor lines to the job's issued labor exactly if it is sent,
      overdue or paid and not deleted. */
  lemma JobLaborCounts(invs: seq<Invoice>, v: Invoice, l: InvoiceLine)
    ensures JobLabor(invs + [v]) == JobLabor(invs) + if SentOut(v) then LaborHours(v) else 0
    ensures LaborHours(v.(lines := v.lines + [l])) == LaborHours(v) + if l.labor then l.qty else 0
  {
    assert Map(invs + [v], x => IssuedLabor(x)) == Map(invs, x => IssuedLabor(x)) + [IssuedLabor(v)];
    SumConcat(Map(invs, x => IssuedLabor(x)), [IssuedLabor(v)]);
    assert Map(v.lines + [l], x => LaborQty(x)) == Map(v.lines, x => LaborQty(x)) + [LaborQty(l)];
    SumConcat(Map(v.lines, x => LaborQty(x)), [LaborQty(l)]);
    assert Sum([IssuedLabor(v)]) == IssuedLabor(v) + Sum([]) && Sum([LaborQty(l)]) == LaborQty(l) + Sum([]);
  }

  lemma TakesUnfold(caps: seq<int>, takes: seq<nat>, excess: int, x: nat)
    requires x < |caps| == |takes|
    requires takes[x..] == Takes(caps[x..], excess)
    ensures takes[x] == Max(0, Min(excess, caps[x]))
    ensures takes[x + 1..] == Takes(caps[x + 1..], excess - takes[x])
  {
    assert caps[x..][1..] == caps[x + 1..];
    assert takes[x..][0] == takes[x];
    assert takes[x..][1..] == takes[x + 1..];
  }

  lemma {:induction false} NothingMoreToOffer(
    invs: seq<Invoice>, held: seq<Holding>, takes: seq<nat>, shopRate: nat, x: nat)
    requires |takes| == |held| && x <= |held| && forall y: nat :: y < |held| ==> held[y].inv < |invs|
    requires forall y: nat :: x <= y < |held| ==> takes[y] == 0
    ensures Offers(invs, held, takes, shopRate) == Offers(invs, held[..x], takes[..x], shopRate)
    decreases |held| - x
  {
    if x == |held| {
      assert held[..x] == held && takes[..x] == takes;
    } else {
      OffersStep(invs, held, takes, shopRate, x);
      NothingMoreToOffer(invs, held, takes, shopRate, x + 1);
    }
  }

  /** The hours the pass takes from each held invoice. */
  function Taken(invs: seq<Invoice>, held: seq<Holding>, attested: nat): (takes: seq<nat>)
    requires forall x: nat :: x < |held| ==> held[x].inv < |invs|
    ensures |takes| == |held|
  {
    var caps := Caps(invs, held);
    Takes(caps, Excess(attested, JobLabor(invs), Sum(caps)))
  }

  // ---------------------------------------------------------------------
  // Main results
  // ---------------------------------------------------------------------

  function Billed(invs: seq<Invoice>, held: seq<Holding>): int
    requires forall x: nat :: x < |held| ==> held[x].inv < |invs|
  {
    Sum(Caps(invs, held))
  }

  lemma {:induction false} TakesAreFair(caps: seq<int>, excess: int, takes: seq<nat>)
    requires takes == Takes(caps, excess)
    ensures forall x: nat :: x < |caps| ==> takes[x] <= Max(0, caps[x])
    ensures forall x: nat, y: nat :: x < y < |caps| && takes[x] < caps[x] ==> takes[y] == 0
  {
    forall x: nat | x < |caps|
      ensures takes[x] <= Max(0, caps[x])
      ensures takes[x] < caps[x] ==> forall y: nat :: x < y < |caps| ==> takes[y] == 0
    {
      TakesNewestFirst(caps, excess, x);
    }
  }

  /** In all, the pass takes what was billed above the larger of the restated
      hours and the job's first hour; from each invoice, no more than its claims
      billed and no more than it still bills; newest closeouts first. */
  lemma CreditsExactlyTheExcess(t: seq<Closeout>, invs: seq<Invoice>, c: nat, held: seq<Holding>, takes: seq<nat>)
    requires c < |t| && IsHeld(t, invs, Run(t, c), held) && takes == Taken(invs, held, 50 * ManHours(t[c]))
    ensures var elsewhere := Max(0, JobLabor(invs) - Billed(invs, held));
      Sum(takes) == Max(0, Billed(invs, held) - Max(50 * ManHours(t[c]), Max(0, 100 - elsewhere)))
    ensures forall x: nat :: x < |held| && takes[x] > 0 ==>
      takes[x] <= 50 * ClaimedBy(t, Run(t, c), held[x].inv) && takes[x] <= LaborHours(invs[held[x].inv])
    ensures forall x: nat, y: nat :: x < y < |held| && takes[x] < Creditable(invs, held[x]) ==> takes[y] == 0
  {
    TakenIs(invs, held, 50 * ManHours(t[c]), takes);
    WithinHoldings(t, invs, Run(t, c), held, takes);
  }

  lemma {:induction false} TotalTaken(caps: seq<int>, attested: nat, job: int, takes: seq<nat>)
    requires takes == Takes(caps, Excess(attested, job, Sum(caps)))
    ensures var elsewhere := Max(0, job - Sum(caps));
      Sum(takes) == Max(0, Sum(caps) - Max(attested, Max(0, 100 - elsewhere)))
  {
    TakesTheExcess(caps, Excess(attested, job, Sum(caps)));
  }

  lemma {:induction false} TakenIs(invs: seq<Invoice>, held: seq<Holding>, attested: nat, takes: seq<nat>)
    requires forall x: nat :: x < |held| ==> held[x].inv < |invs|
    requires takes == Taken(invs, held, attested)
    ensures var elsewhere := Max(0, JobLabor(invs) - Billed(invs, held));
      Sum(takes) == Max(0, Billed(invs, held) - Max(attested, Max(0, 100 - elsewhere)))
    ensures forall x: nat :: x < |held| ==> takes[x] <= Max(0, Creditable(invs, held[x]))
    ensures forall x: nat, y: nat :: x < y < |held| && takes[x] < Creditable(invs, held[x]) ==> takes[y] == 0
  {
    var caps := Caps(invs, held);
    TotalTaken(caps, attested, JobLabor(invs), takes);
    TakesAreFair(caps, Excess(attested, JobLabor(invs), Sum(caps)), takes);
  }

  lemma WithinHoldings(t: seq<Closeout>, invs: seq<Invoice>, ids: seq<nat>, held: seq<Holding>, takes: seq<nat>)
    requires IsHeld(t, invs, ids, held) && |takes| == |held|
    requires forall x: nat :: x < |held| ==> held[x].inv < |invs| && takes[x] <= Max(0, Creditable(invs, held[x]))
    ensures forall x: nat :: x < |held| && takes[x] > 0 ==>
      takes[x] <= 50 * ClaimedBy(t, ids, held[x].inv) && takes[x] <= LaborHours(invs[held[x].inv])
  {
  }

  /** No offer exceeds what the hours are worth less what was credited already,
      none exceeds the open balance, and an invoice that cannot take a credit
      memo is offered nothing. */
  lemma {:induction false} OffersWithinBalance(
    invs: seq<Invoice>, held: seq<Holding>, takes: seq<nat>, shopRate: nat, k: nat)
    requires |takes| == |held| && forall x: nat :: x < |held| ==> held[x].inv < |invs|
    requires k < |Offers(invs, held, takes, shopRate)|
    ensures var o := Offers(invs, held, takes, shopRate)[k];
      && 0 < o.creditValue
      && o.amount <= o.creditValue && o.amount <= Max(0, o.balance)
      && (o.amount > 0 <==> o.creditable)
      && 2 * 100 * (o.creditValue + (if o.inv < |invs| then invs[o.inv].credited else 0)) <= 2 * (o.qty * o.rate) + 100
      && exists x: nat :: x < |held| && o.inv == held[x].inv && o.qty == takes[x] > 0
  {
    var n := |held| - 1;
    var v := invs[held[n].inv];
    var before := Offers(invs, held[..n], takes[..n], shopRate);
    if k < |before| {
      OffersWithinBalance(invs, held[..n], takes[..n], shopRate, k);
      var x: nat :| x < n && before[k].inv == held[..n][x].inv && before[k].qty == takes[..n][x] > 0;
      assert held[x] == held[..n][x] && takes[x] == takes[..n][x];
    } else {
      HalfEvenIsNearest(takes[n] * RateOf(v.lines, shopRate), 100);
    }
  }

  /** When anything is taken, the job's issued labor stays at 1 h or more exactly
      if the job's labor covers what the run billed, or the restated hours make
      up for what it lacks. */
  lemma FirstHourKeptIff(t: seq<Closeout>, invs: seq<Invoice>, c: nat, held: seq<Holding>)
    requires c < |t| && IsHeld(t, invs, Run(t, c), held)
    requires Sum(Taken(invs, held, 50 * ManHours(t[c]))) > 0
    ensures JobLabor(invs) - Sum(Taken(invs, held, 50 * ManHours(t[c]))) >= 100
      <==> JobLabor(invs) >= Billed(invs, held)
           || 50 * ManHours(t[c]) >= 100 + Billed(invs, held) - JobLabor(invs)
  {
    CreditsExactlyTheExcess(t, invs, c, held, Taken(invs, held, 50 * ManHours(t[c])));
  }

  /** No invoice of the job shows negative labor: then the first hour is kept. */
  lemma FirstHourKept(t: seq<Closeout>, invs: seq<Invoice>, c: nat, held: seq<Holding>)
    requires c < |t| && IsHeld(t, invs, Run(t, c), held)
    requires forall i: nat :: i < |invs| ==> LaborHours(invs[i]) >= 0
    requires Sum(Taken(invs, held, 50 * ManHours(t[c]))) > 0
    ensures JobLabor(invs) - Sum(Taken(invs, held, 50 * ManHours(t[c]))) >= 100
  {
    var labor := Map(invs, v => IssuedLabor(v));
    SameInvoicesOnce(t, invs, Run(t, c), held);
    KeysWithin(labor, Caps(invs, held), Map(held, (h: Holding) => h.inv));
    FirstHourKeptIff(t, invs, c, held);
  }

  lemma SameInvoicesOnce(t: seq<Closeout>, invs: seq<Invoice>, ids: seq<nat>, held: seq<Holding>)
    requires IsHeld(t, invs, ids, held)
    ensures Distinct(Map(held, (h: Holding) => h.inv))
  {
  }

  lemma {:induction false} SumUpdate(s: seq<int>, k: nat, v: int)
    requires k < |s|
    ensures Sum(s[k := v]) == Sum(s) - s[k] + v
  {
    if k > 0 {
      SumUpdate(s[1..], k - 1, v);
      assert s[k := v][1..] == s[1..][k - 1 := v];
    } else {
      assert s[0 := v][1..] == s[1..];
    }
  }

  lemma {:induction false} KeysWithin(labor: seq<int>, caps: seq<int>, keys: seq<nat>)
    requires |caps| == |keys| && Distinct(keys)
    requires forall i: nat :: i < |labor| ==> labor[i] >= 0
    requires forall x: nat :: x < |keys| ==> keys[x] < |labor| && caps[x] <= labor[keys[x]]
    ensures Sum(caps) <= Sum(labor)
    decreases |keys|
  {
    if keys == [] {
      SumAtMost(seq(|labor|, _ => 0), labor);
      SumZero(|labor|);
    } else {
      var k := keys[0];
      SumUpdate(labor, k, 0);
      KeysWithin(labor[k := 0], caps[1..], keys[1..]);
    }
  }

  lemma {:induction false} SumZero(n: nat)
    ensures Sum(seq(n, _ => 0)) == 0
  {
    if n > 0 {
      assert seq(n, _ => 0)[1..] == seq(n - 1, _ => 0);
      SumZero(n - 1);
    }
  }

  lemma OneLineLabor(v: Invoice, l: InvoiceLine)
    requires v.lines == [l]
    ensures LaborHours(v) == LaborQty(l)
  {
    assert Map(v.lines, x => LaborQty(x)) == [LaborQty(l)];
    assert Sum([LaborQty(l)]) == LaborQty(l) + Sum([]);
  }

  const Restated := [Closeout(200, 1, None, false, Some(0), Some(4)), Closeout(100, 1, Some(0), true, None, None)]
  const TwoHours := InvoiceLine(true, false, 200, 10000)
  const MinusLabor := InvoiceLine(true, false, -150, 10000)
  const BesideMinus := [Invoice(Sent, false, [TwoHours], 0, 20000), Invoice(Sent, false, [MinusLabor], 0, 0)]
  const OneHolding := [Holding(0, 4)]

  lemma OneHoldingIsHeld()
    ensures Run(Restated, 1) == [0] && IsHeld(Restated, BesideMinus, [0], OneHolding)
  {
    assert RunFrom(Restated, 0, {0}) == [] && {} + {0} == {0};
    assert FirstAt(Restated, [0], 0) == 0 && ClaimedBy(Restated, [0], 0) == 4;
    assert Restated[0].billedBy == Some(OneHolding[0].inv);
  }

  lemma LaborBesideMinus()
    ensures JobLabor(BesideMinus) == 50 && Caps(BesideMinus, OneHolding) == [200]
  {
    OneLineLabor(BesideMinus[0], TwoHours);
    OneLineLabor(BesideMinus[1], MinusLabor);
    assert Map(BesideMinus, v => IssuedLabor(v)) == [200, -150] == [200] + [-150];
    SumConcat([200], [-150]);
  }

  /** A negative labor line on a sibling breaks the promise: 2 h billed and sent,
      restated to 1 h, while another sent invoice shows -1.5 h of labor. */
  lemma FirstHourLostBesideNegativeLabor()
    ensures Run(Restated, 1) == [0] && IsHeld(Restated, BesideMinus, [0], OneHolding)
    ensures var taken := Sum(Taken(BesideMinus, OneHolding, 50 * ManHours(Restated[1])));
      taken > 0 && JobLabor(BesideMinus) - taken < 100
  {
    OneHoldingIsHeld();
    LaborBesideMinus();
    var takes := Taken(BesideMinus, OneHolding, 50 * ManHours(Restated[1]));
    CreditsExactlyTheExcess(Restated, BesideMinus, 1, OneHolding, takes);
  }
}
