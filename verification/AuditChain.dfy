/**
 * The hash-chained audit log: what a row binds, the writer's append, and the
 * two readers, the ordered walk and the shape report.
 *
 * The digest is a term, so two digests are equal exactly when they were made
 * from the same predecessor and the same row text. Times are microseconds.
 */
module AuditChain {
  import opened Basics

  datatype Digest = Empty | H(prev: Digest, data: string)

  datatype Row = Row(
    id: nat, at: int,
    tenantId: Option<string>, userId: Option<string>, actorId: Option<string>,
    action: string, eventType: Option<string>,
    entityType: string, entityId: Option<string>,
    details: Option<string>, payload: Option<string>,   // canonical JSON text
    requestId: Option<string>,
    rowHash: Digest, prevHash: Digest, legacyHash: Digest)

  const SERIALIZED_ACTION := "audit_chain.serialized_writer"

  predicate Falsy(s: Option<string>) { s.None? || s.value == "" }

  function Show(s: Option<string>): string { if s.None? then "None" else s.value }

  function Actor(r: Row): string {
    if !Falsy(r.userId) then r.userId.value else if !Falsy(r.actorId) then r.actorId.value else "system"
  }

  function Details(r: Row): string {
    if r.details.Some? then r.details.value else if r.payload.Some? then r.payload.value else "{}"
  }

  function Action(r: Row): string {
    if r.action != "" then r.action else if !Falsy(r.eventType) then r.eventType.value else "unknown"
  }

  function Joined(fields: seq<string>): string {
    if fields == [] then "" else if |fields| == 1 then fields[0] else fields[0] + ":" + Joined(fields[1..])
  }

  function Fields(r: Row): seq<string> {
    [Show(r.tenantId), Actor(r), Action(r), r.entityType, Show(r.entityId), Details(r), Show(r.requestId)]
  }

  /** The text a row's digest binds. Joined with colons, so it does not bind the
      fields one by one. */
  function RowData(r: Row): string { Joined(Fields(r)) }

  /** `_expected_row_hash` */
  function Expected(r: Row, prev: Digest): Digest { H(prev, RowData(r)) }

  predicate IsChained(r: Row) { r.rowHash != Empty }

  function Chained(rows: seq<Row>): seq<Row> { Filter(rows, r => IsChained(r)) }

  // ---------------------------------------------------------------------
  // The writer
  // ---------------------------------------------------------------------

  datatype Event = Event(tenantId: Option<string>, userId: Option<string>, action: Option<string>,
                         entityType: Option<string>, entityId: Option<string>, details: string,
                         requestId: Option<string>)

  function Or(s: Option<string>, fallback: string): string { if Falsy(s) then fallback else s.value }

  predicate Later(a: Row, b: Row) { a.at > b.at || (a.at == b.at && a.id > b.id) }

  /** The chained row last in (created_at, id): the tip the writer reads. */
  function Tip(rows: seq<Row>): (tip: Option<Row>)
    ensures tip.Some? ==> tip.value in rows && IsChained(tip.value)
    ensures tip.None? ==> forall r :: r in rows ==> !IsChained(r)
    ensures tip.Some? ==> forall r :: r in rows && IsChained(r) ==>
      r.at < tip.value.at || (r.at == tip.value.at && r.id <= tip.value.id)
  {
    if rows == [] then None
    else
      var last := rows[|rows| - 1];
      var before := Tip(rows[..|rows| - 1]);
      assert rows == rows[..|rows| - 1] + [last];
      if IsChained(last) && (before.None? || Later(last, before.value)) then Some(last) else before
  }

  /** The row `_log_audit_event_impl` writes after reading `tip` at `clock`. */
  function NewRow(e: Event, id: nat, clock: int, tip: Option<Row>): Row {
    var user := Or(e.userId, "system");
    var action := Or(e.action, "unknown");
    var prev := if tip.Some? then tip.value.rowHash else Empty;
    var at := if tip.Some? && clock <= tip.value.at then tip.value.at + 1 else clock;
    var blank := Row(id, at, e.tenantId, Some(user), Some(user), action, Some(action),
                     Or(e.entityType, "unknown"), e.entityId, Some(e.details), Some(e.details), e.requestId,
                     Empty, prev, Empty);
    var digest := H(prev, RowData(blank));
    blank.(rowHash := digest, legacyHash := digest)
  }

  // ---------------------------------------------------------------------
  // The ordered walk
  // ---------------------------------------------------------------------

  function Stored(r: Row): Digest { if r.rowHash != Empty then r.rowHash else r.legacyHash }

  predicate LinkedAt(rows: seq<Row>, i: nat)
    requires i < |rows|
  {
    && Stored(rows[i]) == Expected(rows[i], rows[i].prevHash)
    && (i > 0 ==> rows[i].prevHash == Stored(rows[i - 1]))
  }

  /** Every row names its predecessor's digest and has the digest its text calls for. */
  predicate Linked(rows: seq<Row>) {
    forall i: nat :: i < |rows| ==> LinkedAt(rows, i)
  }

  /** `verify_audit_chain` over the whole log, `rows` in (created_at, id) order. */
  method VerifyAuditChain(rows: seq<Row>) returns (ok: bool)
    ensures ok <==> Linked(rows)
  {
    if rows == [] {
      return true;
    }
    var prev := rows[0].prevHash;
    for k := 0 to |rows|
      invariant forall i: nat :: i < k ==> LinkedAt(rows, i)
      invariant prev == if k == 0 then rows[0].prevHash else Stored(rows[k - 1])
    {
      var row := rows[k];
      var expected := Expected(row, prev);
      if row.prevHash != prev || Stored(row) != expected {
        assert !LinkedAt(rows, k);
        return false;
      }
      prev := Stored(row);
    }
    return true;
  }

  // ---------------------------------------------------------------------
  // The shape report
  // ---------------------------------------------------------------------

  datatype Fork = Fork(children: nat, lastAt: int, known: bool)

  datatype Report = Report(
    chained: nat, unchained: nat, badHash: nat, dangling: nat,
    forks: map<Digest, Fork>, newForks: nat, restarts: nat, newRestarts: nat, knownBreaks: int,
    cutoff: Option<int>, broken: bool)

  predicate BadHash(r: Row) { r.rowHash != Expected(r, r.prevHash) }

  function BadRows(rows: seq<Row>): seq<Row> { Filter(rows, r => BadHash(r)) }

  function DanglingRows(rows: seq<Row>, hashes: set<Digest>): seq<Row> { Filter(rows, r => Dangles(r, hashes)) }

  function Recent(rows: seq<Row>, cutoff: Option<int>): seq<Row> { Filter(rows, (r: Row) => !History(r.at, cutoff)) }

  function Hashes(rows: seq<Row>): set<Digest> { set r | r in rows :: r.rowHash }

  predicate Dangles(r: Row, hashes: set<Digest>) { r.prevHash != Empty && r.prevHash !in hashes }

  function Kids(rows: seq<Row>, prev: Digest): seq<Row> { Filter(rows, (r: Row) => r.prevHash == prev) }

  function Prevs(rows: seq<Row>): set<Digest> { set r | r in rows :: r.prevHash }

  function LastAt(rows: seq<Row>): int
    requires rows != []
  {
    if |rows| == 1 then rows[0].at else Max(rows[0].at, LastAt(rows[1..]))
  }

  predicate History(at: int, cutoff: Option<int>) { cutoff.Some? && at < cutoff.value }

  /** `_known_breaks_before` */
  function Cutoff(rows: seq<Row>): Option<int> {
    if rows == [] then None
    else
      var rest := Cutoff(rows[1..]);
      if rows[0].action != SERIALIZED_ACTION then rest
      else if rest.Some? && rest.value < rows[0].at then rest
      else Some(rows[0].at)
  }

  function ForksOf(chained: seq<Row>, cutoff: Option<int>): map<Digest, Fork> {
    map p | p in Prevs(chained) && p != Empty && |Kids(chained, p)| > 1 ::
      var last := LastAt(Kids(chained, p));
      Fork(|Kids(chained, p)|, last, History(last, cutoff))
  }

  function NewForkPrevs(forks: map<Digest, Fork>): set<Digest> { set p | p in forks && !forks[p].known }

  /** Position of the earliest start: the one start that is not a restart. */
  function Earliest(starts: seq<Row>): (k: nat)
    requires starts != []
    ensures k < |starts|
  {
    if |starts| == 1 then 0
    else
      var k := Earliest(starts[..|starts| - 1]);
      if Later(starts[k], starts[|starts| - 1]) then |starts| - 1 else k
  }

  function Restarts(starts: seq<Row>): seq<Row> {
    if starts == [] then []
    else var k := Earliest(starts); starts[..k] + starts[k + 1..]
  }

  function Tally(chained: nat, unchained: nat, bad: nat, dangling: nat,
                 forks: map<Digest, Fork>, starts: seq<Row>, cutoff: Option<int>): Report
  {
    var newForks := |NewForkPrevs(forks)|;
    var restarts := |Restarts(starts)|;
    var newRestarts := |Recent(Restarts(starts), cutoff)|;
    Report(chained, unchained, bad, dangling, forks, newForks, restarts, newRestarts,
           |forks| - newForks + restarts - newRestarts, cutoff,
           bad > 0 || dangling > 0 || newForks > 0 || newRestarts > 0)
  }

  /** `audit_chain_report`, as the counts it is meant to be. */
  function ReportOf(rows: seq<Row>): Report { ReportFrom(Chained(rows), |rows| - |Chained(rows)|, Cutoff(rows)) }

  function ReportFrom(chained: seq<Row>, unchained: nat, cutoff: Option<int>): Report {
    Tally(|chained|, unchained, |BadRows(chained)|, |DanglingRows(chained, Hashes(chained))|,
          ForksOf(chained, cutoff), Kids(chained, Empty), cutoff)
  }

  lemma FilterStep<T(!new)>(s: seq<T>, k: nat, p: T -> bool)
    requires k < |s|
    ensures Filter(s[..k + 1], p) == Filter(s[..k], p) + if p(s[k]) then [s[k]] else []
  {
    assert s[..k + 1] == s[..k] + [s[k]];
    FilterConcat(s[..k], [s[k]], p);
    assert Filter([s[k]], p) == if p(s[k]) then [s[k]] + Filter([], p) else Filter([], p);
  }

  lemma RowsStep(rows: seq<Row>, k: nat, hashes: set<Digest>)
    requires k < |rows|
    ensures BadRows(rows[..k + 1]) == BadRows(rows[..k]) + if BadHash(rows[k]) then [rows[k]] else []
    ensures DanglingRows(rows[..k + 1], hashes)
         == DanglingRows(rows[..k], hashes) + if Dangles(rows[k], hashes) then [rows[k]] else []
  {
    FilterStep(rows, k, r => BadHash(r));
    FilterStep(rows, k, r => Dangles(r, hashes));
  }

  lemma KidsStep(rows: seq<Row>, k: nat, p: Digest)
    requires k < |rows|
    ensures Kids(rows[..k + 1], p) == Kids(rows[..k], p) + if rows[k].prevHash == p then [rows[k]] else []
  {
    FilterStep(rows, k, (r: Row) => r.prevHash == p);
  }

  /** The `children` dictionary: rows grouped by the digest they follow. */
  ghost predicate Grouped(children: map<Digest, seq<Row>>, rows: seq<Row>) {
    forall p :: (if p in children then children[p] != [] && children[p] == Kids(rows, p) else Kids(rows, p) == [])
  }

  lemma GroupStep(children: map<Digest, seq<Row>>, rows: seq<Row>, k: nat)
    requires k < |rows| && Grouped(children, rows[..k])
    ensures var prev := rows[k].prevHash;
      Grouped(children[prev := (if prev in children then children[prev] else []) + [rows[k]]], rows[..k + 1])
  {
    var prev := rows[k].prevHash;
    var next := children[prev := (if prev in children then children[prev] else []) + [rows[k]]];
    forall p
      ensures if p in next then next[p] != [] && next[p] == Kids(rows[..k + 1], p) else Kids(rows[..k + 1], p) == []
    {
      KidsStep(rows, k, p);
    }
  }

  method ScanRows(chained: seq<Row>) returns (bad: nat, dangling: nat, children: map<Digest, seq<Row>>)
    ensures bad == |BadRows(chained)| && dangling == |DanglingRows(chained, Hashes(chained))|
    ensures Grouped(children, chained)
  {
    var hashes := Hashes(chained);
    children := map[];
    bad, dangling := 0, 0;
    for k := 0 to |chained|
      invariant bad == |BadRows(chained[..k])| && dangling == |DanglingRows(chained[..k], hashes)|
      invariant Grouped(children, chained[..k])
    {
      var row := chained[k];
      var prev := row.prevHash;
      RowsStep(chained, k, hashes);
      GroupStep(children, chained, k);
      if BadHash(row) {
        bad := bad + 1;
      }
      if prev != Empty && prev !in hashes {
        dangling := dangling + 1;
      }
      children := children[prev := (if prev in children then children[prev] else []) + [row]];
    }
    assert chained[..|chained|] == chained;
  }

  function ForksIn(children: map<Digest, seq<Row>>, cutoff: Option<int>): map<Digest, Fork> {
    map p | p in children && p != Empty && |children[p]| > 1 ::
      Fork(|children[p]|, LastAt(children[p]), History(LastAt(children[p]), cutoff))
  }

  lemma GroupsArePrevs(children: map<Digest, seq<Row>>, rows: seq<Row>, p: Digest)
    requires Grouped(children, rows)
    ensures p in children <==> p in Prevs(rows)
  {
    assert p in children ==> children[p][0] in Kids(rows, p);
    assert p in Prevs(rows) ==> exists r :: r in rows && r.prevHash == p && r in Kids(rows, p);
  }

  lemma ForksFromGroups(children: map<Digest, seq<Row>>, rows: seq<Row>, cutoff: Option<int>)
    requires Grouped(children, rows)
    ensures ForksIn(children, cutoff) == ForksOf(rows, cutoff)
  {
    forall p ensures p in children <==> p in Prevs(rows) {
      GroupsArePrevs(children, rows, p);
    }
  }

  method AuditChainReport(rows: seq<Row>) returns (report: Report)
    ensures report == ReportOf(rows)
  {
    var chained := Chained(rows);
    var bad, dangling, children := ScanRows(chained);
    var cutoff := Cutoff(rows);
    var forks := ForksIn(children, cutoff);
    ForksFromGroups(children, chained, cutoff);
    var starts := StartsIn(children, chained);
    report := Tally(|chained|, |rows| - |chained|, bad, dangling, forks, starts, cutoff);
  }

  method StartsIn(children: map<Digest, seq<Row>>, ghost chained: seq<Row>) returns (starts: seq<Row>)
    requires Grouped(children, chained)
    ensures starts == Kids(chained, Empty)
  {
    starts := if Empty in children then children[Empty] else [];
  }

  /** `audit_chain_broken` */
  predicate ChainBroken(ok: bool, report: Report) {
    report.broken || (!ok && report.unchained == 0 && report.knownBreaks == 0)
  }
}
