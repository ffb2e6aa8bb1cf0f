/**
 * When the shape report is broken and when the alert goes off, said on the rows
 * themselves: their digests, places and times, and the marker rows among them.
 */
module AuditAlert {
  import opened Basics
  import opened AuditChain
  import opened AuditShape

  predicate IsMarker(r: Row) { r.action == "audit_chain.serialized_writer" }

  /** Older than every marker, and there is one: history, counted and not alerted on. */
  ghost predicate Excused(rows: seq<Row>, at: int) {
    (exists m :: m in rows && IsMarker(m)) && forall m :: m in rows && IsMarker(m) ==> at < m.at
  }

  /** A row whose digest is not that of its text, or that follows a digest no row has. */
  predicate IsWrong(c: seq<Row>, r: Row) {
    || r.rowHash != H(r.prevHash, RowData(r))
    || (r.prevHash != Empty && forall s :: s in c ==> s.rowHash != r.prevHash)
  }

  predicate Share(c: seq<Row>, i: nat, j: nat) {
    i < |c| && j < |c| && i != j && c[i].prevHash == c[j].prevHash != Empty
  }

  /** Two rows start the chain, and `i` is not the earlier one. */
  predicate StartsAgain(c: seq<Row>, i: nat, j: nat) {
    && i < |c| && j < |c| && i != j && c[i].prevHash == c[j].prevHash == Empty
    && (c[j].at < c[i].at || (c[j].at == c[i].at && c[j].id <= c[i].id))
  }

  ghost predicate LateFork(rows: seq<Row>) {
    var c := Chained(rows);
    exists i: nat, j: nat :: Share(c, i, j) && !Excused(rows, c[i].at)
  }

  ghost predicate LateRestart(rows: seq<Row>) {
    var c := Chained(rows);
    exists i: nat, j: nat :: StartsAgain(c, i, j) && !Excused(rows, c[i].at)
  }

  ghost predicate OldFork(rows: seq<Row>) {
    var c := Chained(rows);
    exists i: nat, j: nat :: Share(c, i, j) && forall r :: r in c && r.prevHash == c[i].prevHash ==> Excused(rows, r.at)
  }

  ghost predicate OldRestart(rows: seq<Row>) {
    var c := Chained(rows);
    exists i: nat, j: nat :: StartsAgain(c, i, j) && Excused(rows, c[i].at)
  }

  // ---------------------------------------------------------------------
  // Times
  // ---------------------------------------------------------------------

  lemma {:induction false} CutoffIsTheEarliestMarker(rows: seq<Row>)
    ensures Cutoff(rows).None? <==> forall m :: m in rows ==> !IsMarker(m)
    ensures Cutoff(rows).Some? ==>
      && (exists m :: m in rows && IsMarker(m) && m.at == Cutoff(rows).value)
      && (forall m :: m in rows && IsMarker(m) ==> Cutoff(rows).value <= m.at)
  {
    if rows != [] {
      CutoffIsTheEarliestMarker(rows[1..]);
      assert rows[0] in rows && forall m :: m in rows <==> m == rows[0] || m in rows[1..];
    }
  }

  lemma HistoryIff(rows: seq<Row>, at: int)
    ensures History(at, Cutoff(rows)) <==> Excused(rows, at)
  {
    CutoffIsTheEarliestMarker(rows);
  }

  lemma {:induction false} LastAtIsTheLatest(kids: seq<Row>)
    requires kids != []
    ensures exists k: nat :: k < |kids| && kids[k].at == LastAt(kids)
    ensures forall k: nat :: k < |kids| ==> kids[k].at <= LastAt(kids)
  {
    if |kids| == 1 {
      assert kids[0].at == LastAt(kids);
    } else {
      var rest := kids[1..];
      LastAtIsTheLatest(rest);
      var k: nat :| k < |rest| && rest[k].at == LastAt(rest);
      assert kids[k + 1].at == LastAt(rest) && kids[0].at <= LastAt(kids);
      forall m: nat | m < |kids| ensures kids[m].at <= LastAt(kids) {
        assert m > 0 ==> kids[m] == rest[m - 1];
      }
    }
  }

  lemma {:induction false} EarliestIsEarliest(starts: seq<Row>)
    requires starts != []
    ensures forall m: nat :: m < |starts| ==> !Later(starts[Earliest(starts)], starts[m])
  {
    var n := |starts| - 1;
    if n > 0 {
      EarliestIsEarliest(starts[..n]);
      assert forall m: nat :: m < n ==> starts[..n][m] == starts[m];
    }
  }

  // ---------------------------------------------------------------------
  // Places
  // ---------------------------------------------------------------------

  lemma KidsSnoc(c: seq<Row>, p: Digest)
    requires c != []
    ensures var n := |c| - 1; Kids(c, p) == Kids(c[..n], p) + if c[n].prevHash == p then [c[n]] else []
  {
    KidsStep(c, |c| - 1, p);
    assert c[..|c|] == c;
  }

  /** Two places among the rows that follow `p` are two places among all rows. */
  lemma {:induction false} PlacesOfKids(c: seq<Row>, p: Digest, k: nat, l: nat) returns (i: nat, j: nat)
    requires k < l < |Kids(c, p)|
    ensures i < j < |c| && c[i] == Kids(c, p)[k] && c[j] == Kids(c, p)[l]
    ensures c[i].prevHash == p == c[j].prevHash
    decreases |c|
  {
    var n := |c| - 1;
    KidsSnoc(c, p);
    if l < |Kids(c[..n], p)| {
      i, j := PlacesOfKids(c[..n], p, k, l);
    } else {
      i := PlaceOfKid(c[..n], p, k);
      j := n;
    }
  }

  lemma {:induction false} PlaceOfKid(c: seq<Row>, p: Digest, k: nat) returns (i: nat)
    requires k < |Kids(c, p)|
    ensures i < |c| && c[i] == Kids(c, p)[k] && c[i].prevHash == p
    decreases |c|
  {
    var n := |c| - 1;
    KidsSnoc(c, p);
    if k < |Kids(c[..n], p)| {
      i := PlaceOfKid(c[..n], p, k);
    } else {
      i := n;
    }
  }

  lemma {:induction false} KidAtPlace(c: seq<Row>, i: nat) returns (k: nat)
    requires i < |c|
    ensures k < |Kids(c, c[i].prevHash)| && Kids(c, c[i].prevHash)[k] == c[i]
    decreases |c|
  {
    var n := |c| - 1;
    KidsSnoc(c, c[i].prevHash);
    if i < n {
      k := KidAtPlace(c[..n], i);
    } else {
      k := |Kids(c[..n], c[n].prevHash)|;
    }
  }

  lemma {:induction false} KidsAtPlaces(c: seq<Row>, i: nat, j: nat) returns (k: nat, l: nat)
    requires i < j < |c| && c[i].prevHash == c[j].prevHash
    ensures var kids := Kids(c, c[i].prevHash); k < l < |kids| && kids[k] == c[i] && kids[l] == c[j]
    decreases |c|
  {
    var n := |c| - 1;
    KidsSnoc(c, c[i].prevHash);
    if j < n {
      k, l := KidsAtPlaces(c[..n], i, j);
    } else {
      k := KidAtPlace(c[..n], i);
      l := |Kids(c[..n], c[n].prevHash)|;
    }
  }

  // ---------------------------------------------------------------------
  // Forks
  // ---------------------------------------------------------------------

  /** The entry for a digest that several rows follow: how many, the latest of them, and
      whether all of them are history. */
  lemma ForkIs(rows: seq<Row>, p: Digest)
    ensures var c := Chained(rows); var forks := ForksOf(c, Cutoff(rows));
      && (p in forks <==> exists i: nat, j: nat :: Share(c, i, j) && c[i].prevHash == p)
      && (p in forks ==> forks[p].children == |Kids(c, p)|)
      && (p in forks ==> (forks[p].known <==> forall r :: r in c && r.prevHash == p ==> Excused(rows, r.at)))
  {
    var c := Chained(rows);
    var forks := ForksOf(c, Cutoff(rows));
    if i: nat, j: nat :| Share(c, i, j) && c[i].prevHash == p {
      var k, l := KidsAtPlaces(c, if i < j then i else j, if i < j then j else i);
      assert p in Prevs(c) && p in forks;
    }
    if p in forks {
      var i, j := PlacesOfKids(c, p, 0, 1);
      assert Share(c, i, j);
      KnownIff(rows, c, p);
    }
  }

  lemma KnownIff(rows: seq<Row>, c: seq<Row>, p: Digest)
    requires Kids(c, p) != []
    ensures History(LastAt(Kids(c, p)), Cutoff(rows)) <==> forall r :: r in c && r.prevHash == p ==> Excused(rows, r.at)
  {
    var kids := Kids(c, p);
    LastAtIsTheLatest(kids);
    HistoryIff(rows, LastAt(kids));
    forall r | r in c && r.prevHash == p ensures r.at <= LastAt(kids) {
      assert r in kids;
    }
    var k: nat :| k < |kids| && kids[k].at == LastAt(kids);
    assert kids[k] in kids;
  }

  lemma NewForksIff(rows: seq<Row>)
    ensures |NewForkPrevs(ForksOf(Chained(rows), Cutoff(rows)))| > 0 <==> LateFork(rows)
  {
    var late := NewForkPrevs(ForksOf(Chained(rows), Cutoff(rows)));
    if |late| > 0 {
      var p :| p in late;
      NewForkIsLate(rows, p);
    }
    if LateFork(rows) {
      var p := LateForkIsNew(rows);
      assert p in late;
    }
  }

  lemma NewForkIsLate(rows: seq<Row>, p: Digest)
    requires var forks := ForksOf(Chained(rows), Cutoff(rows)); p in forks && !forks[p].known
    ensures LateFork(rows)
  {
    var c := Chained(rows);
    ForkIs(rows, p);
    var r :| r in c && r.prevHash == p && !Excused(rows, r.at);
    var i: nat, j: nat :| Share(c, i, j) && c[i].prevHash == p;
    var m, n := ShareIt(c, i, j, r);
  }

  /** Every row that follows a shared digest shares it with another. */
  lemma ShareIt(c: seq<Row>, i: nat, j: nat, r: Row) returns (m: nat, n: nat)
    requires Share(c, i, j) && r in c && r.prevHash == c[i].prevHash
    ensures Share(c, m, n) && c[m] == r
  {
    m :| m < |c| && c[m] == r;
    n := if m == i then j else i;
  }

  lemma LateForkIsNew(rows: seq<Row>) returns (p: Digest)
    requires LateFork(rows)
    ensures var forks := ForksOf(Chained(rows), Cutoff(rows)); p in forks && !forks[p].known
  {
    var c := Chained(rows);
    var i: nat, j: nat :| Share(c, i, j) && !Excused(rows, c[i].at);
    p := c[i].prevHash;
    ForkIs(rows, p);
    assert c[i] in c;
  }

  lemma OldForksIff(rows: seq<Row>)
    ensures var forks := ForksOf(Chained(rows), Cutoff(rows));
      |NewForkPrevs(forks)| <= |forks| && (|NewForkPrevs(forks)| < |forks| <==> OldFork(rows))
  {
    var c := Chained(rows);
    var forks := ForksOf(c, Cutoff(rows));
    var late, past := NewForkPrevs(forks), set p | p in forks && forks[p].known;
    assert forks.Keys == late + past && late !! past;
    assert |forks.Keys| == |late| + |past|;
    if past != {} {
      var p :| p in past;
      ForkIs(rows, p);
    }
    if OldFork(rows) {
      var i: nat, j: nat :| Share(c, i, j) && forall r :: r in c && r.prevHash == c[i].prevHash ==> Excused(rows, r.at);
      ForkIs(rows, c[i].prevHash);
      assert c[i].prevHash in past;
    }
  }

  // ---------------------------------------------------------------------
  // Restarts
  // ---------------------------------------------------------------------

  /** A restart is a start with another one that is not later. */
  lemma RestartsAre(c: seq<Row>, at: int)
    ensures (exists r :: r in Restarts(Kids(c, Empty)) && r.at == at) <==>
            exists i: nat, j: nat :: StartsAgain(c, i, j) && c[i].at == at
  {
    var starts := Kids(c, Empty);
    if r :| r in Restarts(starts) && r.at == at {
      RestartIsAgain(c, r);
    }
    if i: nat, j: nat :| StartsAgain(c, i, j) && c[i].at == at {
      AgainIsRestart(c, i, j);
    }
  }

  lemma RestartIsAgain(c: seq<Row>, r: Row)
    requires r in Restarts(Kids(c, Empty))
    ensures exists i: nat, j: nat :: StartsAgain(c, i, j) && c[i].at == r.at
  {
    var starts := Kids(c, Empty);
    var e := Earliest(starts);
    EarliestIsEarliest(starts);
    var m: nat :| m < |Restarts(starts)| && Restarts(starts)[m] == r;
    var k := if m < e then m else m + 1;
    assert starts[k] == r;
    var i, j := PlacesOfKids(c, Empty, if k < e then k else e, if k < e then e else k);
    assert StartsAgain(c, if k < e then i else j, if k < e then j else i);
  }

  lemma AgainIsRestart(c: seq<Row>, i: nat, j: nat)
    requires StartsAgain(c, i, j)
    ensures exists r :: r in Restarts(Kids(c, Empty)) && r.at == c[i].at
  {
    var starts := Kids(c, Empty);
    var a, b := KidsAtPlaces(c, if i < j then i else j, if i < j then j else i);
    var e := Earliest(starts);
    EarliestIsEarliest(starts);
    var k, l := if i < j then a else b, if i < j then b else a;
    assert starts[k] == c[i] && starts[l] == c[j];
    var m := if k == e then l else k;
    assert Restarts(starts)[if m < e then m else m - 1] == starts[m];
  }

  lemma NewRestartsIff(rows: seq<Row>)
    ensures |Recent(Restarts(Kids(Chained(rows), Empty)), Cutoff(rows))| > 0 <==> LateRestart(rows)
  {
    var c := Chained(rows);
    var again := Restarts(Kids(c, Empty));
    var recent := Recent(again, Cutoff(rows));
    if |recent| > 0 {
      assert recent[0] in recent;
      HistoryIff(rows, recent[0].at);
      RestartsAre(c, recent[0].at);
    }
    if LateRestart(rows) {
      var i: nat, j: nat :| StartsAgain(c, i, j) && !Excused(rows, c[i].at);
      RestartsAre(c, c[i].at);
      HistoryIff(rows, c[i].at);
      var r :| r in again && r.at == c[i].at;
      assert r in recent;
    }
  }

  lemma {:induction false} SomeLeftOut(rows: seq<Row>, cutoff: Option<int>)
    ensures |Recent(rows, cutoff)| <= |rows|
    ensures |Recent(rows, cutoff)| < |rows| <==> exists r :: r in rows && History(r.at, cutoff)
  {
    if rows != [] {
      SomeLeftOut(rows[1..], cutoff);
      assert forall r :: r in rows <==> r == rows[0] || r in rows[1..];
    }
  }

  lemma OldRestartsIff(rows: seq<Row>)
    ensures var again := Restarts(Kids(Chained(rows), Empty));
      |Recent(again, Cutoff(rows))| <= |again| && (|Recent(again, Cutoff(rows))| < |again| <==> OldRestart(rows))
  {
    var c := Chained(rows);
    var again := Restarts(Kids(c, Empty));
    SomeLeftOut(again, Cutoff(rows));
    if r :| r in again && History(r.at, Cutoff(rows)) {
      HistoryIff(rows, r.at);
      RestartsAre(c, r.at);
    }
    if OldRestart(rows) {
      var i: nat, j: nat :| StartsAgain(c, i, j) && Excused(rows, c[i].at);
      RestartsAre(c, c[i].at);
      HistoryIff(rows, c[i].at);
    }
  }

  // ---------------------------------------------------------------------
  // Main results
  // ---------------------------------------------------------------------

  lemma WrongIff(rows: seq<Row>)
    ensures var report := ReportOf(rows);
      report.badHash > 0 || report.dangling > 0 <==> exists r :: r in Chained(rows) && IsWrong(Chained(rows), r)
  {
    var c := Chained(rows);
    NoBadIff(c);
    forall r | r in c ensures IsWrong(c, r) <==> BadHash(r) || !Follows(c, r) {
    }
  }

  /** On every log, the report is broken exactly when a row is wrong, or two rows share a
      predecessor and one of them is not history, or a start after the first is not. */
  lemma BrokenExactly(rows: seq<Row>)
    ensures ReportOf(rows).broken <==>
      (exists r :: r in Chained(rows) && IsWrong(Chained(rows), r)) || LateFork(rows) || LateRestart(rows)
  {
    WrongIff(rows);
    NewForksIff(rows);
    NewRestartsIff(rows);
  }

  /** Without a marker nothing is history: broken exactly when the rows are not one chain's. */
  lemma BrokenWithoutMarkerIff(rows: seq<Row>)
    requires forall m :: m in rows ==> !IsMarker(m)
    ensures ReportOf(rows).broken <==> !Shaped(Chained(rows))
  {
    var c := Chained(rows);
    BrokenExactly(rows);
    forall r | r in c ensures IsWrong(c, r) <==> BadHash(r) || !Follows(c, r) {
    }
    if !DistinctPrevs(c) {
      var i: nat, j: nat :| i < j < |c| && c[i].prevHash == c[j].prevHash;
      assert c[i].prevHash != Empty ==> Share(c, i, j);
      assert c[i].prevHash == Empty ==> StartsAgain(c, i, j) || StartsAgain(c, j, i);
    }
    if LateFork(rows) || LateRestart(rows) {
      var i: nat, j: nat :| i < |c| && j < |c| && i != j && c[i].prevHash == c[j].prevHash;
      assert !DistinctPrevs(c);
    }
  }

  lemma UnchainedIff(rows: seq<Row>)
    ensures ReportOf(rows).unchained == 0 <==> forall r :: r in rows ==> r.rowHash != Empty
    ensures ReportOf(rows).chained + ReportOf(rows).unchained == |rows|
  {
    EveryRowKept(rows);
  }

  lemma {:induction false} EveryRowKept(rows: seq<Row>)
    ensures |Chained(rows)| == |rows| <==> forall r :: r in rows ==> r.rowHash != Empty
  {
    if rows != [] {
      EveryRowKept(rows[1..]);
      assert forall r :: r in rows <==> r == rows[0] || r in rows[1..];
    }
  }

  lemma KnownBreaksIff(rows: seq<Row>)
    ensures ReportOf(rows).knownBreaks >= 0
    ensures ReportOf(rows).knownBreaks == 0 <==> !OldFork(rows) && !OldRestart(rows)
  {
    OldForksIff(rows);
    OldRestartsIff(rows);
  }

  /** On every log the alert goes off exactly when the report is broken, or when the
      ordered walk fails although every row is chained and no old break explains it. */
  lemma AlertExactly(rows: seq<Row>, ok: bool)
    ensures ChainBroken(ok, ReportOf(rows)) <==>
      || (exists r :: r in Chained(rows) && IsWrong(Chained(rows), r)) || LateFork(rows) || LateRestart(rows)
      || (!ok && (forall r :: r in rows ==> r.rowHash != Empty) && !OldFork(rows) && !OldRestart(rows))
  {
    BrokenExactly(rows);
    UnchainedIff(rows);
    KnownBreaksIff(rows);
  }
}
