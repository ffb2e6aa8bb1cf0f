/**
 * What the shape report tells: a clean report means one unbroken path, and
 * exactly which edits of a clean log it notices.
 */
module AuditShape {
  import opened Basics
  import opened AuditChain

  ghost predicate DistinctPrevs(c: seq<Row>) {
    forall i: nat, j: nat :: i < j < |c| ==> c[i].prevHash != c[j].prevHash
  }

  predicate Follows(c: seq<Row>, r: Row) { r.prevHash == Empty || r.prevHash in Hashes(c) }

  /** Each row has its own text's digest, follows a row that exists, and shares its
      predecessor with no other row. */
  ghost predicate Shaped(c: seq<Row>) {
    && (forall r :: r in c ==> !BadHash(r))
    && (forall r :: r in c ==> Follows(c, r))
    && DistinctPrevs(c)
  }

  ghost predicate Flawed(c: seq<Row>) { exists r :: r in c && (BadHash(r) || !Follows(c, r)) }

  predicate Clean(report: Report) {
    report.badHash == 0 && report.dangling == 0 && report.forks == map[] && report.restarts == 0
  }

  // ---------------------------------------------------------------------
  // Reading the report
  // ---------------------------------------------------------------------

  lemma KidsConcat(a: seq<Row>, b: seq<Row>, p: Digest)
    ensures Kids(a + b, p) == Kids(a, p) + Kids(b, p)
  {
    FilterConcat(a, b, (r: Row) => r.prevHash == p);
  }

  lemma TwoKids(c: seq<Row>, i: nat, j: nat)
    requires i < j < |c| && c[i].prevHash == c[j].prevHash
    ensures |Kids(c, c[i].prevHash)| > 1
  {
    var p := c[i].prevHash;
    assert c == c[..j] + c[j..];
    KidsConcat(c[..j], c[j..], p);
    KidHere(c[..j], i);
    KidHere(c[j..], 0);
  }

  lemma KidHere(c: seq<Row>, i: nat)
    requires i < |c|
    ensures |Kids(c, c[i].prevHash)| > 0
  {
    assert c[i] in Kids(c, c[i].prevHash);
  }

  lemma {:induction false} KidsOfDistinct(c: seq<Row>, p: Digest)
    requires DistinctPrevs(c)
    ensures |Kids(c, p)| <= 1
  {
    if c != [] {
      var rest := c[1..];
      KidsOfDistinct(rest, p);
      if c[0].prevHash == p {
        forall r | r in rest ensures r.prevHash != p {
          var k :| 0 <= k < |rest| && rest[k] == r;
          assert c[k + 1] == r;
        }
        NoneLeft(rest, (r: Row) => r.prevHash == p);
      }
    }
  }

  lemma NoForksIff(c: seq<Row>, cutoff: Option<int>)
    ensures DistinctPrevs(c) <==> ForksOf(c, cutoff) == map[] && |Restarts(Kids(c, Empty))| == 0
  {
    if DistinctPrevs(c) {
      forall p ensures |Kids(c, p)| <= 1 {
        KidsOfDistinct(c, p);
      }
      assert forall p :: p !in ForksOf(c, cutoff);
    } else {
      var i: nat, j: nat :| i < j < |c| && c[i].prevHash == c[j].prevHash;
      TwoKids(c, i, j);
      assert c[i].prevHash in Prevs(c);
      assert c[i].prevHash != Empty ==> c[i].prevHash in ForksOf(c, cutoff);
    }
  }

  lemma NoneLeft<T(!new)>(s: seq<T>, p: T -> bool)
    ensures Filter(s, p) == [] <==> forall x :: x in s ==> !p(x)
  {
    if Filter(s, p) != [] {
      assert Filter(s, p)[0] in s;
    }
    assert forall x :: x in s && p(x) ==> x in Filter(s, p);
  }

  lemma NoBadIff(c: seq<Row>)
    ensures BadRows(c) == [] <==> forall r :: r in c ==> !BadHash(r)
    ensures DanglingRows(c, Hashes(c)) == [] <==> forall r :: r in c ==> Follows(c, r)
  {
    NoneLeft(c, r => BadHash(r));
    NoneLeft(c, r => Dangles(r, Hashes(c)));
  }

  /** The all-zero report is exactly a well-shaped set of chained rows. */
  lemma CleanIffShaped(rows: seq<Row>)
    ensures Clean(ReportOf(rows)) <==> Shaped(Chained(rows))
  {
    var c := Chained(rows);
    NoForksIff(c, Cutoff(rows));
    NoBadIff(c);
  }

  /** Where no two rows share a predecessor, `broken` means a bad or dangling row. */
  lemma BrokenIff(rows: seq<Row>)
    requires DistinctPrevs(Chained(rows))
    ensures ReportOf(rows).broken <==> Flawed(Chained(rows))
  {
    var c := Chained(rows);
    NoForksIff(c, Cutoff(rows));
    NoBadIff(c);
    assert NewForkPrevs(map[]) == {};
    assert Recent([], Cutoff(rows)) == [];
    assert Restarts(Kids(c, Empty)) == [];
  }

  // ---------------------------------------------------------------------
  // A clean report is one path
  // ---------------------------------------------------------------------

  function Depth(d: Digest): nat { if d == Empty then 0 else 1 + Depth(d.prev) }

  predicate StepsFrom(path: seq<Row>, i: nat)
    requires i < |path|
  {
    path[i].prevHash == if i == 0 then Empty else path[i - 1].rowHash
  }

  /** From the first row, each row follows the one before it. */
  ghost predicate IsPath(path: seq<Row>) { forall i: nat :: i < |path| ==> StepsFrom(path, i) }

  function Deepest(c: seq<Row>): (k: nat)
    requires c != []
    ensures k < |c|
    ensures forall i: nat :: i < |c| ==> Depth(c[i].rowHash) <= Depth(c[k].rowHash)
  {
    if |c| == 1 then 0
    else
      var n := |c| - 1;
      var k := Deepest(c[..n]);
      assert forall i: nat :: i < n ==> c[..n][i] == c[i];
      if Depth(c[k].rowHash) < Depth(c[n].rowHash) then n else k
  }

  lemma ShapedWithoutDeepest(c: seq<Row>)
    requires Shaped(c) && c != []
    ensures var k := Deepest(c); Shaped(c[..k] + c[k + 1..])
  {
    var k := Deepest(c);
    var rest := c[..k] + c[k + 1..];
    forall r | r in rest ensures r in c && Follows(rest, r) {
      assert r in c && Follows(c, r) && !BadHash(r);
      if r.prevHash != Empty {
        var s :| s in c && s.rowHash == r.prevHash;
        assert Depth(r.rowHash) == 1 + Depth(s.rowHash);
        assert s in rest by { InRest(c, k, s); }
      }
    }
    forall i: nat, j: nat | i < j < |rest| ensures rest[i].prevHash != rest[j].prevHash {
      var i', j' := if i < k then i else i + 1, if j < k then j else j + 1;
      assert rest[i] == c[i'] && rest[j] == c[j'];
    }
  }

  lemma InRest(c: seq<Row>, k: nat, s: Row)
    requires k < |c| && s in c && s != c[k]
    ensures s in c[..k] + c[k + 1..]
  {
    var m :| 0 <= m < |c| && c[m] == s;
    var rest := c[..k] + c[k + 1..];
    if m < k {
      assert rest[m] == s;
    } else {
      assert rest[m - 1] == s;
    }
  }

  lemma ExtendPath(path: seq<Row>, r: Row)
    requires IsPath(path) && r.prevHash == if path == [] then Empty else path[|path| - 1].rowHash
    ensures IsPath(path + [r])
  {
    forall i: nat | i < |path + [r]| ensures StepsFrom(path + [r], i) {
      assert i < |path| ==> StepsFrom(path, i);
    }
  }

  lemma TakeOut(c: seq<Row>, k: nat)
    requires k < |c|
    ensures multiset(c) == multiset(c[..k] + c[k + 1..]) + multiset{c[k]}
  {
    assert c == c[..k] + [c[k]] + c[k + 1..];
  }

  lemma SameMembers(a: seq<Row>, b: seq<Row>, x: Row)
    requires multiset(a) == multiset(b) && x in a
    ensures x in b
  {
    assert x in multiset(a);
  }

  /** Well-shaped rows are one path from the chain's start through every row. */
  lemma {:induction false} OnePath(c: seq<Row>) returns (path: seq<Row>)
    requires Shaped(c)
    ensures multiset(path) == multiset(c) && IsPath(path)
    decreases |c|
  {
    if c == [] {
      path := [];
    } else {
      var k := Deepest(c);
      ShapedWithoutDeepest(c);
      var before := OnePath(c[..k] + c[k + 1..]);
      path := before + [c[k]];
      TakeOut(c, k);
      DeepestComesLast(c, k, before);
      ExtendPath(before, c[k]);
    }
  }

  lemma DeepestComesLast(c: seq<Row>, k: nat, before: seq<Row>)
    requires Shaped(c) && c != [] && k == Deepest(c)
    requires multiset(before) == multiset(c[..k] + c[k + 1..]) && IsPath(before)
    ensures c[k].prevHash == if before == [] then Empty else before[|before| - 1].rowHash
  {
    assert c[k] in c && Follows(c, c[k]) && !BadHash(c[k]);
    if c[k].prevHash == Empty {
      if before != [] {
        assert StepsFrom(before, 0);
        SameMembers(before, c[..k] + c[k + 1..], before[0]);
        RestDiffers(c, k, before[0]);
      }
    } else {
      var s :| s in c && s.rowHash == c[k].prevHash;
      InRest(c, k, s);
      SameMembers(c[..k] + c[k + 1..], before, s);
      LastOfPath(c, k, before, s);
    }
  }

  lemma LastOfPath(c: seq<Row>, k: nat, before: seq<Row>, s: Row)
    requires Shaped(c) && k < |c| && IsPath(before) && s in before && s.rowHash == c[k].prevHash
    requires multiset(before) == multiset(c[..k] + c[k + 1..])
    ensures before[|before| - 1] == s
  {
    var m :| 0 <= m < |before| && before[m] == s;
    if m < |before| - 1 {
      assert StepsFrom(before, m + 1);
      SameMembers(before, c[..k] + c[k + 1..], before[m + 1]);
      RestDiffers(c, k, before[m + 1]);
    }
  }

  lemma RestDiffers(c: seq<Row>, k: nat, x: Row)
    requires Shaped(c) && k < |c| && x in c[..k] + c[k + 1..]
    ensures x.prevHash != c[k].prevHash
  {
    var rest := c[..k] + c[k + 1..];
    var m :| 0 <= m < |rest| && rest[m] == x;
    var m' := if m < k then m else m + 1;
    assert c[m'] == x;
  }

  /** A clean report: the chained rows are one linear path covering every row. */
  lemma CleanReportIsOnePath(rows: seq<Row>)
    requires Clean(ReportOf(rows))
    ensures exists path :: multiset(path) == multiset(Chained(rows)) && IsPath(path)
  {
    CleanIffShaped(rows);
    var path := OnePath(Chained(rows));
  }

  // ---------------------------------------------------------------------
  // Which edits of a clean log are noticed
  // ---------------------------------------------------------------------

  lemma ChainedConcat(a: seq<Row>, b: seq<Row>)
    ensures Chained(a + b) == Chained(a) + Chained(b)
  {
    FilterConcat(a, b, r => IsChained(r));
  }

  lemma ChainedOne(r: Row)
    ensures Chained([r]) == if IsChained(r) then [r] else []
  {
    assert Chained([r][1..]) == [];
  }

  lemma ChainedAround(a: seq<Row>, r: Row, b: seq<Row>)
    ensures Chained(a + b) == Chained(a) + Chained(b)
    ensures Chained(a + [r] + b) == Chained(a) + (if IsChained(r) then [r] else []) + Chained(b)
  {
    ChainedConcat(a, b);
    ChainedConcat(a + [r], b);
    ChainedConcat(a, [r]);
    ChainedOne(r);
  }

  lemma DistinctAround(x: seq<Row>, r: Row, r': Row, y: seq<Row>)
    requires DistinctPrevs(x + [r] + y) && r'.prevHash == r.prevHash
    ensures DistinctPrevs(x + y) && DistinctPrevs(x + [r'] + y)
    ensures forall s :: s in x + y ==> s.prevHash != r.prevHash
  {
    var c := x + [r] + y;
    forall i: nat, j: nat | i < j < |x + y| ensures (x + y)[i].prevHash != (x + y)[j].prevHash {
      var i', j' := if i < |x| then i else i + 1, if j < |x| then j else j + 1;
      assert (x + y)[i] == c[i'] && (x + y)[j] == c[j'];
    }
    forall i: nat, j: nat | i < j < |c| ensures (x + [r'] + y)[i].prevHash != (x + [r'] + y)[j].prevHash {
      assert c[i].prevHash != c[j].prevHash;
    }
    forall s | s in x + y ensures s.prevHash != r.prevHash {
      var m :| 0 <= m < |x + y| && (x + y)[m] == s;
      var m' := if m < |x| then m else m + 1;
      assert c[m'] == s && c[|x|] == r;
    }
  }

  /** Only `r` itself carries `r`'s digest. */
  lemma OwnDigest(x: seq<Row>, r: Row, y: seq<Row>)
    requires Shaped(x + [r] + y)
    ensures r.rowHash !in Hashes(x + y)
    ensures Hashes(x + [r] + y) == Hashes(x + y) + {r.rowHash}
  {
    var c := x + [r] + y;
    DistinctAround(x, r, r, y);
    assert r in c;
    forall s | s in x + y ensures s.rowHash != r.rowHash {
      assert s in c;
    }
  }

  predicate HasSuccessor(rows: seq<Row>, r: Row) { exists s :: s in Chained(rows) && s.prevHash == r.rowHash }

  /** A row beside `r` keeps its predecessor without `r` unless it follows `r`. */
  lemma RestFollows(x: seq<Row>, r: Row, y: seq<Row>, s: Row)
    requires Shaped(x + [r] + y) && s in x + y
    ensures !BadHash(s) && s.prevHash != r.prevHash
    ensures Follows(x + y, s) <==> s.prevHash != r.rowHash
  {
    var c := x + [r] + y;
    assert r in c && s in c;
    assert Follows(c, s) && !BadHash(r);
    OwnDigest(x, r, y);
    DistinctAround(x, r, r, y);
  }

  lemma DeletionFlaw(x: seq<Row>, r: Row, y: seq<Row>)
    requires Shaped(x + [r] + y)
    ensures Flawed(x + y) <==> exists s :: s in x + y && s.prevHash == r.rowHash
  {
    forall s | s in x + y ensures !BadHash(s) && (Follows(x + y, s) <==> s.prevHash != r.rowHash) {
      RestFollows(x, r, y, s);
    }
  }

  /** Deleting a row from a clean log breaks the report exactly when another row follows it. */
  lemma DeletionNoticedIff(a: seq<Row>, r: Row, b: seq<Row>)
    requires Clean(ReportOf(a + [r] + b)) && IsChained(r)
    ensures ReportOf(a + b).broken <==> HasSuccessor(a + b, r)
  {
    var x, y := Chained(a), Chained(b);
    CleanIffShaped(a + [r] + b);
    ChainedAround(a, r, b);
    DistinctAround(x, r, r, y);
    BrokenIff(a + b);
    DeletionFlaw(x, r, y);
  }

  ghost predicate SamePlace(r: Row, r': Row) { r'.prevHash == r.prevHash && IsChained(r) && IsChained(r') }

  lemma Around(x: seq<Row>, r: Row, y: seq<Row>)
    ensures Hashes(x + [r] + y) == Hashes(x + y) + {r.rowHash}
    ensures forall s :: s in x + [r] + y <==> s == r || s in x + y
  {
    assert r in x + [r] + y;
    assert forall s :: s in x + [r] + y <==> s == r || s in x + y;
  }

  /** After `r` becomes `r'`, the rows beside it are flawed only if they follow a
      digest that is gone, and `r'` is flawed only if its digest does not match. */
  lemma ReplacementFlaw(x: seq<Row>, r: Row, r': Row, y: seq<Row>)
    requires Shaped(x + [r] + y) && r'.prevHash == r.prevHash
    ensures Flawed(x + [r'] + y) <==>
      || BadHash(r')
      || (r'.rowHash != r.rowHash && exists s :: s in x + y && s.prevHash == r.rowHash && r'.rowHash != s.prevHash)
  {
    var c, c' := x + [r] + y, x + [r'] + y;
    Around(x, r, y);
    Around(x, r', y);
    assert r in c && Follows(c, r) && !BadHash(r);
    assert Depth(r.rowHash) == 1 + Depth(r.prevHash);
    assert Follows(c', r');
    forall s | s in x + y
      ensures !BadHash(s) && (Follows(c', s) <==> s.prevHash != r.rowHash || s.prevHash == r'.rowHash)
    {
      RestFollows(x, r, y, s);
    }
  }

  /** Rewriting a row's columns without touching its digest is noticed exactly
      when the text the digest binds changes. */
  lemma AlterationNoticedIff(a: seq<Row>, r: Row, r': Row, b: seq<Row>)
    requires Clean(ReportOf(a + [r] + b)) && SamePlace(r, r') && r'.rowHash == r.rowHash
    ensures ReportOf(a + [r'] + b).broken <==> RowData(r') != RowData(r)
  {
    var x, y := Chained(a), Chained(b);
    CleanIffShaped(a + [r] + b);
    ChainedAround(a, r, b);
    ChainedAround(a, r', b);
    DistinctAround(x, r, r', y);
    BrokenIff(a + [r'] + b);
    ReplacementFlaw(x, r, r', y);
    assert r in x + [r] + y;
  }

  /** Rewriting a row and digesting it again is noticed exactly when the bound
      text changes and another row follows: that row now follows nothing. */
  lemma RedigestNoticedIff(a: seq<Row>, r: Row, r': Row, b: seq<Row>)
    requires Clean(ReportOf(a + [r] + b)) && SamePlace(r, r') && r'.rowHash == Expected(r', r'.prevHash)
    ensures ReportOf(a + [r'] + b).broken <==> RowData(r') != RowData(r) && HasSuccessor(a + b, r)
  {
    var x, y := Chained(a), Chained(b);
    CleanIffShaped(a + [r] + b);
    ChainedAround(a, r, b);
    ChainedAround(a, r', b);
    DistinctAround(x, r, r', y);
    BrokenIff(a + [r'] + b);
    ReplacementFlaw(x, r, r', y);
    assert r in x + [r] + y;
  }

  /** A path through exactly the chained rows of a log. */
  ghost predicate PathOf(rows: seq<Row>, path: seq<Row>) {
    multiset(path) == multiset(Chained(rows)) && IsPath(path)
  }

  predicate BoundAt(path: seq<Row>, i: nat)
    requires i < |path|
  {
    path[i].rowHash == H(path[i].prevHash, RowData(path[i])) && StepsFrom(path, i)
  }

  ghost predicate IsBound(path: seq<Row>) { forall i: nat :: i < |path| ==> BoundAt(path, i) }

  lemma ShapedPathIsBound(rows: seq<Row>, path: seq<Row>)
    requires Shaped(Chained(rows)) && PathOf(rows, path)
    ensures IsBound(path)
  {
    forall i: nat | i < |path| ensures BoundAt(path, i) {
      SameMembers(path, Chained(rows), path[i]);
      assert !BadHash(path[i]) && StepsFrom(path, i);
    }
  }

  lemma {:induction false} SameDigestSamePrefix(p: seq<Row>, q: seq<Row>, m: nat, n: nat)
    requires IsBound(p) && IsBound(q) && m < |p| && n < |q| && p[m].rowHash == q[n].rowHash
    ensures m == n
    ensures forall k: nat :: k <= m ==> RowData(p[k]) == RowData(q[k])
    decreases m
  {
    assert BoundAt(p, m) && BoundAt(q, n);
    assert m > 0 ==> BoundAt(p, m - 1);
    assert n > 0 ==> BoundAt(q, n - 1);
    if m > 0 && n > 0 {
      SameDigestSamePrefix(p, q, m - 1, n - 1);
    }
  }

  /** The last digest binds the whole history: two logs with a clean report (which is
      what `Shaped` says, see CleanIffShaped) that end in the same digest have the same
      row texts in the same order, so no rewrite of a log, of any number of rows, keeps
      its tip. */
  lemma SameTipSameHistory(a: seq<Row>, p: seq<Row>, b: seq<Row>, q: seq<Row>)
    requires Shaped(Chained(a)) && PathOf(a, p) && Shaped(Chained(b)) && PathOf(b, q)
    requires p != [] && q != [] && p[|p| - 1].rowHash == q[|q| - 1].rowHash
    ensures |p| == |q| && forall k: nat :: k < |p| ==> RowData(p[k]) == RowData(q[k])
  {
    ShapedPathIsBound(a, p);
    ShapedPathIsBound(b, q);
    SameDigestSamePrefix(p, q, |p| - 1, |q| - 1);
  }

  /** The bound text does not bind the fields one by one: a colon can move. */
  lemma FieldsCanTradeAColon(r: Row)
    ensures var moved := r.(entityType := "job:7", entityId := Some("x"));
      var kept := r.(entityType := "job", entityId := Some("7:x"));
      moved != kept && RowData(moved) == RowData(kept)
  {
    var moved := r.(entityType := "job:7", entityId := Some("x"));
    var kept := r.(entityType := "job", entityId := Some("7:x"));
    var tail := [Details(r), Show(r.requestId)];
    var x, y := ["job:7", "x"] + tail, ["job", "7:x"] + tail;
    ColonMoves(tail);
    SameHead(Action(r), x, y);
    SameHead(Actor(r), [Action(r)] + x, [Action(r)] + y);
    SameHead(Show(r.tenantId), [Actor(r)] + ([Action(r)] + x), [Actor(r)] + ([Action(r)] + y));
    assert Fields(moved) == [Show(r.tenantId)] + ([Actor(r)] + ([Action(r)] + x));
    assert Fields(kept) == [Show(r.tenantId)] + ([Actor(r)] + ([Action(r)] + y));
  }

  lemma SameHead(head: string, x: seq<string>, y: seq<string>)
    requires x != [] && y != [] && Joined(x) == Joined(y)
    ensures Joined([head] + x) == Joined([head] + y)
  {
    JoinedCons(head, x);
    JoinedCons(head, y);
  }

  lemma ColonMoves(tail: seq<string>)
    requires tail != []
    ensures Joined(["job:7", "x"] + tail) == Joined(["job", "7:x"] + tail)
  {
    JoinedCons("x", tail);
    JoinedCons("7:x", tail);
    JoinedCons("job:7", ["x"] + tail);
    JoinedCons("job", ["7:x"] + tail);
    assert ["job:7", "x"] + tail == ["job:7"] + (["x"] + tail);
    assert ["job", "7:x"] + tail == ["job"] + (["7:x"] + tail);
    var t := Joined(tail);
    assert "job:7" + ":" + ("x" + ":" + t) == "job" + ":" + ("7:x" + ":" + t);
  }

  lemma JoinedCons(head: string, tail: seq<string>)
    requires tail != []
    ensures Joined([head] + tail) == head + ":" + Joined(tail)
  {
    assert ([head] + tail)[1..] == tail;
  }

  /** An unchained row that is not the marker changes only the unchained count. */
  lemma UnchainedRowsOnlyCount(a: seq<Row>, u: Row, b: seq<Row>)
    requires !IsChained(u) && u.action != SERIALIZED_ACTION
    ensures var before := ReportOf(a + b);
      ReportOf(a + [u] + b) == before.(unchained := before.unchained + 1)
  {
    ChainedAround(a, u, b);
    CutoffSkips(a, u, b);
    assert Chained(a) + [] + Chained(b) == Chained(a) + Chained(b);
    OneMoreUnchained(Chained(a + b), |a + b| - |Chained(a + b)|, Cutoff(a + b));
  }

  lemma OneMoreUnchained(chained: seq<Row>, unchained: nat, cutoff: Option<int>)
    ensures ReportFrom(chained, unchained + 1, cutoff)
         == ReportFrom(chained, unchained, cutoff).(unchained := unchained + 1)
  {
  }

  lemma {:induction false} CutoffSkips(a: seq<Row>, u: Row, b: seq<Row>)
    requires u.action != SERIALIZED_ACTION
    ensures Cutoff(a + [u] + b) == Cutoff(a + b)
  {
    if a == [] {
      assert (a + [u] + b)[1..] == b && a + b == b;
    } else {
      CutoffSkips(a[1..], u, b);
      assert (a + [u] + b)[1..] == a[1..] + [u] + b && (a + b)[1..] == a[1..] + b;
    }
  }
}
