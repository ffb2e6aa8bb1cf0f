/** Drive times between a day's stops, with stops that may have no address yet. */
module DriveTime {
  import opened Basics

  /** One cell of the remote matrix: its status, and the duration if it is a number. */
  datatype Element = Element(ok: bool, value: Option<int>)

  type Matrix = seq<seq<Element>>

  /** The remote service: origins and destinations to a matrix, or a failure. */
  type Service = (seq<string>, seq<string>) -> Option<Matrix>

  type Leg = Option<int>

  function NoLegs(n: nat): seq<Leg> { seq(n, _ => None) }

  function Diagonal(m: Matrix, i: nat): Leg {
    if i < |m| && i < |m[i]| && m[i][i].ok then m[i][i].value else None
  }

  /** `_google_distance_matrix`, as a value. */
  function MatrixLegs(ask: Service, stops: seq<string>): (legs: seq<Leg>)
    ensures |legs| == |stops|
    ensures legs != [] ==> legs[0] == None
  {
    if |stops| < 2 then NoLegs(|stops|)
    else
      var n := |stops| - 1;
      match ask(stops[..n], stops[1..])
      case None => NoLegs(|stops|)
      case Some(m) => [None] + DiagonalLegs(m, n)
  }

  function DiagonalLegs(m: Matrix, n: nat): (legs: seq<Leg>)
    ensures |legs| == n
    ensures forall i: nat :: i < n ==> legs[i] == Diagonal(m, i)
  {
    seq(n, i requires 0 <= i < n => Diagonal(m, i))
  }

  method GoogleDistanceMatrix(ask: Service, stops: seq<string>) returns (legs: seq<Leg>)
    ensures legs == MatrixLegs(ask, stops)
  {
    if |stops| < 2 {
      return NoLegs(|stops|);
    }
    var origins, destinations := stops[..|stops| - 1], stops[1..];
    var answer := ask(origins, destinations);
    if answer.None? {
      return NoLegs(|stops|);
    }
    legs := ReadDiagonal(answer.value, |origins|);
    legs := [None] + legs;
  }

  method ReadDiagonal(rows: Matrix, n: nat) returns (legs: seq<Leg>)
    ensures legs == DiagonalLegs(rows, n)
  {
    legs := [];
    for i := 0 to n
      invariant |legs| == i
      invariant forall k: nat :: k < i ==> legs[k] == Diagonal(rows, k)
    {
      var leg: Leg := None;
      if i < |rows| {
        if i < |rows[i]| {
          if rows[i][i].ok {
            leg := rows[i][i].value;
          }
        }
      }
      legs := legs + [leg];
    }
  }

  predicate Blank(s: string) { forall c :: c in s ==> IsSpace(c) }

  /** A stop without an address: nothing but whitespace. */
  lemma BlankIff(s: string)
    ensures Blank(s) <==> Strip(s) == ""
  {
    StripsToNothingIff(s);
  }

  /** First stop of the unbroken run of addresses that reaches `k`. */
  function RunStart(stops: seq<string>, k: nat): (s: nat)
    requires k < |stops|
    ensures s <= k
  {
    if k == 0 || Blank(stops[k - 1]) then k else RunStart(stops, k - 1)
  }

  /** One past the last stop of that run. */
  function RunEnd(stops: seq<string>, k: nat): (e: nat)
    requires k < |stops|
    ensures k < e <= |stops|
    decreases |stops| - k
  {
    if k + 1 == |stops| || Blank(stops[k + 1]) then k + 1 else RunEnd(stops, k + 1)
  }

  type Fetch = seq<string> -> seq<Leg>

  function Fetcher(ask: Service): Fetch { run => MatrixLegs(ask, run) }

  function LegAt(legs: seq<Leg>, k: nat): Leg { if k < |legs| then legs[k] else None }

  /** The leg into stop `k`: fetched within its own run, absent beside a blank stop. */
  function LegInto(fetch: Fetch, stops: seq<string>, k: nat): Leg
    requires k < |stops|
  {
    if k == 0 || Blank(stops[k - 1]) || Blank(stops[k]) then None
    else LegAt(fetch(stops[RunStart(stops, k)..RunEnd(stops, k)]), k - RunStart(stops, k))
  }

  function AllLegs(fetch: Fetch, stops: seq<string>): (legs: seq<Leg>)
    ensures |legs| == |stops|
    ensures forall k: nat :: k < |stops| ==> legs[k] == LegInto(fetch, stops, k)
  {
    seq(|stops|, k requires 0 <= k < |stops| => LegInto(fetch, stops, k))
  }

  lemma {:induction false} RunStartIs(stops: seq<string>, i: nat, k: nat)
    requires i <= k < |stops| && (i == 0 || Blank(stops[i - 1]))
    requires forall m: nat :: i <= m <= k ==> !Blank(stops[m])
    ensures RunStart(stops, k) == i
    decreases k
  {
    if k > i {
      RunStartIs(stops, i, k - 1);
    }
  }

  lemma {:induction false} RunEndIs(stops: seq<string>, k: nat, e: nat)
    requires k < e <= |stops| && (e == |stops| || Blank(stops[e]))
    requires forall m: nat :: k <= m < e ==> !Blank(stops[m])
    ensures RunEnd(stops, k) == e
    decreases e - k
  {
    if k + 1 < e {
      RunEndIs(stops, k + 1, e);
    }
  }

  /** The legs into the first `i` stops are the wanted ones, the others still absent. */
  ghost predicate FilledTo(want: seq<Leg>, legs: seq<Leg>, i: nat) {
    && i <= |want| == |legs| && legs[..i] == want[..i]
    && (forall k: nat :: i <= k < |legs| ==> legs[k] == None)
  }

  /** `i..j` is an unbroken run of addresses that cannot be extended. */
  ghost predicate IsRun(stops: seq<string>, i: nat, j: nat) {
    && i <= j < |stops| && (i == 0 || Blank(stops[i - 1])) && (j + 1 == |stops| || Blank(stops[j + 1]))
    && forall m: nat :: i <= m <= j ==> !Blank(stops[m])
  }

  /** A run's own legs are the wanted ones; into its first stop there is none. */
  ghost predicate Fits(want: seq<Leg>, seg: seq<Leg>, i: nat, j: nat) {
    && i <= j < |want| && |seg| == j + 1 - i && want[i] == None
    && forall k: nat :: i < k <= j ==> want[k] == seg[k - i]
  }

  lemma LegWithinRun(fetch: Fetch, stops: seq<string>, i: nat, j: nat, k: nat)
    requires IsRun(stops, i, j) && i < k <= j
    ensures LegInto(fetch, stops, k) == LegAt(fetch(stops[i..j + 1]), k - i)
  {
    RunStartIs(stops, i, k);
    RunEndIs(stops, k, j + 1);
  }

  lemma RunFits(fetch: Fetch, stops: seq<string>, i: nat, j: nat)
    requires IsRun(stops, i, j) && |fetch(stops[i..j + 1])| == j + 1 - i
    ensures Fits(AllLegs(fetch, stops), fetch(stops[i..j + 1]), i, j)
  {
    forall k: nat | i < k <= j ensures AllLegs(fetch, stops)[k] == fetch(stops[i..j + 1])[k - i] {
      LegWithinRun(fetch, stops, i, j, k);
    }
  }

  lemma FillRun(want: seq<Leg>, legs: seq<Leg>, seg: seq<Leg>, i: nat, j: nat)
    requires FilledTo(want, legs, i) && Fits(want, seg, i, j)
    ensures FilledTo(want, legs[..i + 1] + seg[1..] + legs[j + 1..], j + 1)
  {
    assert seg[1..] == want[i + 1..j + 1];
    assert legs[..i + 1] == want[..i] + [None] == want[..i + 1];
    assert want[..i + 1] + want[i + 1..j + 1] == want[..j + 1];
  }

  method EndOfRun(stops: seq<string>, i: nat) returns (j: nat)
    requires i < |stops| && !Blank(stops[i]) && (i == 0 || Blank(stops[i - 1]))
    ensures IsRun(stops, i, j)
  {
    j := i;
    while j + 1 < |stops| && !Blank(stops[j + 1])
      invariant i <= j < |stops|
      invariant forall m: nat :: i <= m <= j ==> !Blank(stops[m])
    {
      j := j + 1;
    }
  }

  method FetchRun(ask: Service, stops: seq<string>, before: seq<Leg>, i: nat) returns (legs: seq<Leg>, j: nat)
    requires FilledTo(AllLegs(Fetcher(ask), stops), before, i)
    requires i < |stops| && !Blank(stops[i]) && (i == 0 || Blank(stops[i - 1]))
    ensures IsRun(stops, i, j) && FilledTo(AllLegs(Fetcher(ask), stops), legs, j + 1)
  {
    j := EndOfRun(stops, i);
    legs := before;
    RunFits(Fetcher(ask), stops, i, j);
    if j > i {
      var seg := GoogleDistanceMatrix(ask, stops[i..j + 1]);
      FillRun(AllLegs(Fetcher(ask), stops), legs, seg, i, j);
      legs := legs[..i + 1] + seg[1..] + legs[j + 1..];
    }
  }

  lemma OneMoreAbsent(want: seq<Leg>, legs: seq<Leg>, i: nat)
    requires FilledTo(want, legs, i) && i < |want| && want[i] == None
    ensures FilledTo(want, legs, i + 1)
  {
    assert want[..i + 1] == want[..i] + [want[i]] && legs[..i + 1] == legs[..i] + [legs[i]];
  }

  method FetchInRuns(ask: Service, stops: seq<string>) returns (legs: seq<Leg>)
    ensures legs == AllLegs(Fetcher(ask), stops)
  {
    legs := NoLegs(|stops|);
    var i := 0;
    while i < |stops|
      invariant i <= |stops|
      invariant 0 < i < |stops| ==> Blank(stops[i - 1]) || Blank(stops[i])
      invariant FilledTo(AllLegs(Fetcher(ask), stops), legs, i)
    {
      if Blank(stops[i]) {
        OneMoreAbsent(AllLegs(Fetcher(ask), stops), legs, i);
        i := i + 1;
      } else {
        var j;
        legs, j := FetchRun(ask, stops, legs, i);
        i := j + 1;
      }
    }
  }

  /** The fetcher of `compute_drive_times`: as many legs as stops, the first always
      absent, each other leg the one of its own run or absent. */
  method DriveTimes(ask: Service, stops: seq<string>) returns (legs: seq<Leg>)
    ensures legs == AllLegs(Fetcher(ask), stops)
  {
    if forall a :: a in stops ==> !Blank(a) {
      legs := GoogleDistanceMatrix(ask, stops);
      NoBlankIsOneRun(ask, stops);
    } else {
      legs := FetchInRuns(ask, stops);
    }
  }

  /** When no stop is blank, splitting into runs is the one direct call. */
  lemma NoBlankIsOneRun(ask: Service, stops: seq<string>)
    requires forall a :: a in stops ==> !Blank(a)
    ensures AllLegs(Fetcher(ask), stops) == MatrixLegs(ask, stops)
  {
    if stops != [] {
      var last := |stops| - 1;
      assert stops[0..last + 1] == stops;
      RunFits(Fetcher(ask), stops, 0, last);
      SameFromTheSecond(AllLegs(Fetcher(ask), stops), MatrixLegs(ask, stops), last);
    }
  }

  lemma SameFromTheSecond(want: seq<Leg>, seg: seq<Leg>, last: nat)
    requires Fits(want, seg, 0, last) && |want| == last + 1 && seg[0] == None
    ensures want == seg
  {
    forall k: nat | k <= last ensures want[k] == seg[k] {
      assert k > 0 ==> want[k] == seg[k - 0];
    }
  }

  /** The service answers cell by cell: each cell is its own origin's drive to its own destination. */
  ghost predicate CellByCell(ask: Service, drive: (string, string) -> Leg) {
    forall os: seq<string>, ds: seq<string> :: |os| == |ds| ==>
      ask(os, ds).Some? && forall i: nat :: i < |os| ==> CellIs(ask(os, ds).value, i, drive(os[i], ds[i]))
  }

  /** The cell in row and column `i` is there, and gives this drive. */
  predicate CellIs(m: Matrix, i: nat, leg: Leg) {
    i < |m| && i < |m[i]| && (if m[i][i].ok then m[i][i].value == leg else leg == None)
  }

  /** A cell that is missing or not OK, or a failed answer, gives no leg. */
  lemma NoCellNoLeg(ask: Service, run: seq<string>, k: nat)
    requires 0 < k < |run|
    ensures var answer := ask(run[..|run| - 1], run[1..]);
      MatrixLegs(ask, run)[k] ==
        if answer.Some? && k - 1 < |answer.value| && k - 1 < |answer.value[k - 1]| && answer.value[k - 1][k - 1].ok
        then answer.value[k - 1][k - 1].value else None
  {
  }

  lemma LegOfRun(ask: Service, drive: (string, string) -> Leg, run: seq<string>, k: nat)
    requires CellByCell(ask, drive) && 0 < k < |run|
    ensures MatrixLegs(ask, run)[k] == drive(run[k - 1], run[k])
  {
    var n := |run| - 1;
    var os, ds := run[..n], run[1..];
    assert |os| == |ds| && os[k - 1] == run[k - 1] && ds[k - 1] == run[k];
    var m := ask(os, ds).value;
    assert CellIs(m, k - 1, drive(os[k - 1], ds[k - 1]));
    assert Diagonal(m, k - 1) == drive(os[k - 1], ds[k - 1]);
    assert MatrixLegs(ask, run)[k] == DiagonalLegs(m, n)[k - 1];
  }

  /** With such a service, splitting changes nothing: each leg is the drive between
      its two stops when both have an address, and absent otherwise. */
  lemma LegIsTheDrive(ask: Service, drive: (string, string) -> Leg, stops: seq<string>, k: nat)
    requires CellByCell(ask, drive) && k < |stops|
    ensures AllLegs(Fetcher(ask), stops)[k] ==
      if k == 0 || Blank(stops[k - 1]) || Blank(stops[k]) then None else drive(stops[k - 1], stops[k])
  {
    if k > 0 && !Blank(stops[k - 1]) && !Blank(stops[k]) {
      var s, e := RunStart(stops, k), RunEnd(stops, k);
      RunHasBoth(stops, k);
      LegOfRun(ask, drive, stops[s..e], k - s);
    }
  }

  lemma RunHasBoth(stops: seq<string>, k: nat)
    requires 0 < k < |stops| && !Blank(stops[k - 1])
    ensures var s, e := RunStart(stops, k), RunEnd(stops, k);
      s < k < e <= |stops| && stops[s..e][k - s - 1] == stops[k - 1] && stops[s..e][k - s] == stops[k]
  {
    assert RunStart(stops, k) == RunStart(stops, k - 1);
  }
}
