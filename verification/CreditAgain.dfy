/**
 * The credit pass after credits were booked: which offers come back.
 *
 * A credit memo or refund is added to what the invoice was credited, for whatever
 * reason it was issued, and the invoice's balance may be anything afterwards. Lines,
 * claims and statuses stay as they were.
 */
module CreditAgain {
  import opened Basics
  import opened Closeouts
  import opened CreditPass

  function Booked(invs: seq<Invoice>, credits: seq<nat>, balances: seq<int>): (after: seq<Invoice>)
    requires |credits| == |invs| == |balances|
    ensures |after| == |invs|
    ensures forall i: nat :: i < |invs| ==> after[i] == BookedOn(invs[i], credits[i], balances[i])
  {
    seq(|invs|, i requires 0 <= i < |invs| => BookedOn(invs[i], credits[i], balances[i]))
  }

  function BookedOn(v: Invoice, credit: nat, balance: int): Invoice {
    v.(credited := v.credited + credit, balance := balance)
  }

  lemma OwedAfter(v: Invoice, credit: nat, balance: int, take: nat, shopRate: nat)
    ensures Owed(BookedOn(v, credit, balance), take, shopRate) == Max(0, Owed(v, take, shopRate) - credit)
  {
  }

  /** The pass asks the same invoices for the same hours. */
  lemma SameTaken(t: seq<Closeout>, invs: seq<Invoice>, ids: seq<nat>, held: seq<Holding>, attested: nat,
                  credits: seq<nat>, balances: seq<int>)
    requires IsHeld(t, invs, ids, held) && |credits| == |invs| == |balances|
    ensures IsHeld(t, Booked(invs, credits, balances), ids, held)
    ensures Taken(Booked(invs, credits, balances), held, attested) == Taken(invs, held, attested)
  {
    var after := Booked(invs, credits, balances);
    assert LiveIds(after) == LiveIds(invs);
    assert Map(after, v => IssuedLabor(v)) == Map(invs, v => IssuedLabor(v)) by {
      forall i: nat | i < |invs| ensures IssuedLabor(after[i]) == IssuedLabor(invs[i]) {
      }
    }
    assert Caps(after, held) == Caps(invs, held);
  }

  /** Invoice `i` is among the offers. */
  ghost predicate Offered(offers: seq<Target>, i: InvoiceId) { exists o :: o in offers && o.inv == i }

  function OfferAt(invs: seq<Invoice>, held: seq<Holding>, takes: seq<nat>, shopRate: nat, x: nat): seq<Target>
    requires |takes| == |held| && x < |held| && held[x].inv < |invs|
  {
    OneOffer(invs[held[x].inv], held[x].inv, takes[x], shopRate)
  }

  lemma OfferAtIs(invs: seq<Invoice>, held: seq<Holding>, takes: seq<nat>, shopRate: nat, x: nat, o: Target)
    requires |takes| == |held| && x < |held| && held[x].inv < |invs|
    ensures var v := invs[held[x].inv];
      o in OfferAt(invs, held, takes, shopRate, x) <==>
        takes[x] > 0 && Owed(v, takes[x], shopRate) > 0 && o == Offer(v, held[x].inv, takes[x], shopRate)
  {
  }

  /** The offers are those of each held invoice, and no others. */
  lemma {:induction false} OfferHasAPlace(
    invs: seq<Invoice>, held: seq<Holding>, takes: seq<nat>, shopRate: nat, o: Target) returns (x: nat)
    requires |takes| == |held| && forall y: nat :: y < |held| ==> held[y].inv < |invs|
    requires o in Offers(invs, held, takes, shopRate)
    ensures x < |held| && o in OfferAt(invs, held, takes, shopRate, x)
    decreases |held|
  {
    var n := |held| - 1;
    if o in OfferAt(invs, held, takes, shopRate, n) {
      x := n;
    } else {
      x := OfferHasAPlace(invs, held[..n], takes[..n], shopRate, o);
      assert held[..n][x] == held[x] && takes[..n][x] == takes[x];
    }
  }

  lemma {:induction false} PlaceHasItsOffer(
    invs: seq<Invoice>, held: seq<Holding>, takes: seq<nat>, shopRate: nat, o: Target, x: nat)
    requires |takes| == |held| && x < |held| && forall y: nat :: y < |held| ==> held[y].inv < |invs|
    requires o in OfferAt(invs, held, takes, shopRate, x)
    ensures o in Offers(invs, held, takes, shopRate)
    decreases |held|
  {
    var n := |held| - 1;
    if x < n {
      assert held[..n][x] == held[x] && takes[..n][x] == takes[x];
      PlaceHasItsOffer(invs, held[..n], takes[..n], shopRate, o, x);
    }
  }

  lemma OfferedIff(invs: seq<Invoice>, held: seq<Holding>, takes: seq<nat>, shopRate: nat, x: nat)
    requires |takes| == |held| && x < |held| && forall y: nat :: y < |held| ==> held[y].inv < |invs|
    requires forall y: nat, z: nat :: y < z < |held| ==> held[y].inv != held[z].inv
    ensures Offered(Offers(invs, held, takes, shopRate), held[x].inv) <==>
      takes[x] > 0 && Owed(invs[held[x].inv], takes[x], shopRate) > 0
  {
    var mine := Offer(invs[held[x].inv], held[x].inv, takes[x], shopRate);
    OfferAtIs(invs, held, takes, shopRate, x, mine);
    if takes[x] > 0 && Owed(invs[held[x].inv], takes[x], shopRate) > 0 {
      PlaceHasItsOffer(invs, held, takes, shopRate, mine, x);
    }
    if o :| o in Offers(invs, held, takes, shopRate) && o.inv == held[x].inv {
      var y := OfferHasAPlace(invs, held, takes, shopRate, o);
      OfferAtIs(invs, held, takes, shopRate, y, o);
      assert y == x;
    }
  }

  /** After any credits, an invoice is offered again exactly when it was asked for hours
      that are worth more, beyond all it had been credited before, than it was credited
      since. */
  lemma OfferComesBackIff(t: seq<Closeout>, invs: seq<Invoice>, c: nat, held: seq<Holding>, shopRate: nat,
                          credits: seq<nat>, balances: seq<int>, x: nat)
    requires c < |t| && IsHeld(t, invs, Run(t, c), held) && |credits| == |invs| == |balances| && x < |held|
    ensures var after := Booked(invs, credits, balances); var attested := 50 * ManHours(t[c]);
      && IsHeld(t, after, Run(t, c), held)
      && (Offered(Offers(after, held, Taken(after, held, attested), shopRate), held[x].inv) <==>
            && Taken(invs, held, attested)[x] > 0
            && Owed(invs[held[x].inv], Taken(invs, held, attested)[x], shopRate) > credits[held[x].inv])
  {
    var attested := 50 * ManHours(t[c]);
    var takes := Taken(invs, held, attested);
    SameTaken(t, invs, Run(t, c), held, attested, credits, balances);
    HeldOnce(t, invs, Run(t, c), held);
    OfferedIff(Booked(invs, credits, balances), held, takes, shopRate, x);
    OwedAfter(invs[held[x].inv], credits[held[x].inv], balances[held[x].inv], takes[x], shopRate);
  }

  lemma HeldOnce(t: seq<Closeout>, invs: seq<Invoice>, ids: seq<nat>, held: seq<Holding>)
    requires IsHeld(t, invs, ids, held)
    ensures forall y: nat, z: nat :: y < z < |held| ==> held[y].inv != held[z].inv
  {
  }

  /** Once every offer's value is credited, nothing is offered again. */
  lemma CreditedOffersStayAway(t: seq<Closeout>, invs: seq<Invoice>, c: nat, held: seq<Holding>, shopRate: nat,
                               credits: seq<nat>, balances: seq<int>)
    requires c < |t| && IsHeld(t, invs, Run(t, c), held) && |credits| == |invs| == |balances|
    requires forall o :: o in Offers(invs, held, Taken(invs, held, 50 * ManHours(t[c])), shopRate) && o.inv < |invs| ==>
      credits[o.inv] >= o.creditValue
    ensures var after := Booked(invs, credits, balances);
      && IsHeld(t, after, Run(t, c), held)
      && Offers(after, held, Taken(after, held, 50 * ManHours(t[c])), shopRate) == []
  {
    var after, attested := Booked(invs, credits, balances), 50 * ManHours(t[c]);
    var takes := Taken(invs, held, attested);
    SameTaken(t, invs, Run(t, c), held, attested, credits, balances);
    var offers := Offers(after, held, takes, shopRate);
    if offers != [] {
      assert offers[0] in offers;
      var x := OfferHasAPlace(after, held, takes, shopRate, offers[0]);
      var was := StillOwed(invs, held, takes, shopRate, credits, balances, offers[0], x);
    }
  }

  /** An offer made after the credits was made before them, for more than was credited. */
  lemma StillOwed(invs: seq<Invoice>, held: seq<Holding>, takes: seq<nat>, shopRate: nat,
                  credits: seq<nat>, balances: seq<int>, o: Target, x: nat) returns (was: Target)
    requires |takes| == |held| && x < |held| && forall y: nat :: y < |held| ==> held[y].inv < |invs|
    requires |credits| == |invs| == |balances|
    requires o in OfferAt(Booked(invs, credits, balances), held, takes, shopRate, x)
    ensures was in Offers(invs, held, takes, shopRate) && was.inv == held[x].inv
    ensures was.creditValue > credits[held[x].inv]
  {
    var i := held[x].inv;
    was := Offer(invs[i], i, takes[x], shopRate);
    OfferAtIs(Booked(invs, credits, balances), held, takes, shopRate, x, o);
    OwedAfter(invs[i], credits[i], balances[i], takes[x], shopRate);
    OfferAtIs(invs, held, takes, shopRate, x, was);
    PlaceHasItsOffer(invs, held, takes, shopRate, was, x);
  }

  /** Crediting exactly the amount an offer names, it comes back exactly when that amount
      was cut short: the invoice took no credit memo, or its balance was below the value. */
  lemma OfferedAmountComesBackIff(t: seq<Closeout>, invs: seq<Invoice>, c: nat, held: seq<Holding>, shopRate: nat,
                                  credits: seq<nat>, balances: seq<int>, x: nat)
    requires c < |t| && IsHeld(t, invs, Run(t, c), held) && |credits| == |invs| == |balances| && x < |held|
    requires var takes := Taken(invs, held, 50 * ManHours(t[c]));
      && takes[x] > 0 && Owed(invs[held[x].inv], takes[x], shopRate) > 0
      && credits[held[x].inv] == Offer(invs[held[x].inv], held[x].inv, takes[x], shopRate).amount
    ensures var after := Booked(invs, credits, balances); var v := invs[held[x].inv];
      && IsHeld(t, after, Run(t, c), held)
      && (Offered(Offers(after, held, Taken(after, held, 50 * ManHours(t[c])), shopRate), held[x].inv) <==>
            !Open(v) || v.balance < Owed(v, Taken(invs, held, 50 * ManHours(t[c]))[x], shopRate))
  {
    OfferComesBackIff(t, invs, c, held, shopRate, credits, balances, x);
  }

  // Two hours billed at 100.00 and restated to one, with 50.00 still open.
  const HalfPaid := [Invoice(Sent, false, [TwoHours], 0, 5000)]

  lemma HalfPaidIsHeld()
    ensures Run(Restated, 1) == [0] && IsHeld(Restated, HalfPaid, [0], OneHolding)
    ensures JobLabor(HalfPaid) == 200 && Caps(HalfPaid, OneHolding) == [200]
  {
    assert RunFrom(Restated, 0, {0}) == [] && {} + {0} == {0};
    assert FirstAt(Restated, [0], 0) == 0 && ClaimedBy(Restated, [0], 0) == 4;
    assert Restated[0].billedBy == Some(OneHolding[0].inv);
    OneLineLabor(HalfPaid[0], TwoHours);
    assert Map(HalfPaid, v => IssuedLabor(v)) == [200];
    assert Sum([200]) == 200 + Sum([]);
  }

  lemma HalfPaidTakes()
    ensures IsHeld(Restated, HalfPaid, Run(Restated, 1), OneHolding)
    ensures Taken(HalfPaid, OneHolding, 50 * ManHours(Restated[1])) == [100]
  {
    var takes := Taken(HalfPaid, OneHolding, 50 * ManHours(Restated[1]));
    HalfPaidIsHeld();
    CreditsExactlyTheExcess(Restated, HalfPaid, 1, OneHolding, takes);
    assert Sum([200]) == 200 + Sum([]);
    assert takes == [takes[0]] && Sum(takes) == takes[0] + Sum([]);
  }

  lemma HalfPaidOwes(shopRate: nat)
    ensures Owed(HalfPaid[0], 100, shopRate) == 10000
  {
    var lines := HalfPaid[0].lines;
    assert lines[..0] == [] && LowestRate([]) == None;
    assert LowestRate(lines) == Some(10000);
  }

  /** A credit memo for the offered 50.00 does not end the offer: the other 50.00 of the
      restated hour are offered again. */
  lemma CutShortOfferComesBack(shopRate: nat, balance: int)
    ensures var after := Booked(HalfPaid, [5000], [balance]); var attested := 50 * ManHours(Restated[1]);
      && IsHeld(Restated, after, Run(Restated, 1), OneHolding)
      && Offered(Offers(after, OneHolding, Taken(after, OneHolding, attested), shopRate), 0)
  {
    HalfPaidTakes();
    HalfPaidOwes(shopRate);
    OfferComesBackIff(Restated, HalfPaid, 1, OneHolding, shopRate, [5000], [balance], 0);
  }
}
