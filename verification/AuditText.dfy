/** The text an audit row's digest binds, field by field. */
module AuditText {
  import opened Basics
  import opened AuditChain
  import opened AuditShape

  function Colon(a: string, b: string): string { a + ":" + b }

  function Seven(a: string, b: string, c: string, d: string, e: string, f: string, g: string): string {
    Colon(a, Colon(b, Colon(c, Colon(d, Colon(e, Colon(f, g))))))
  }

  lemma JoinedPair(a: string, b: string)
    ensures Joined([a, b]) == Colon(a, b)
  {
    JoinedCons(a, [b]);
    assert [a] + [b] == [a, b];
  }

  lemma JoinedOn(a: string, rest: seq<string>, all: seq<string>)
    requires rest != [] && all == [a] + rest
    ensures Joined(all) == Colon(a, Joined(rest))
  {
    JoinedCons(a, rest);
  }

  lemma JoinedSeven(a: string, b: string, c: string, d: string, e: string, f: string, g: string)
    ensures Joined([a, b, c, d, e, f, g]) == Seven(a, b, c, d, e, f, g)
  {
    JoinedPair(f, g);
    JoinedOn(e, [f, g], [e, f, g]);
    JoinedOn(d, [e, f, g], [d, e, f, g]);
    JoinedOn(c, [d, e, f, g], [c, d, e, f, g]);
    JoinedOn(b, [c, d, e, f, g], [b, c, d, e, f, g]);
    JoinedOn(a, [b, c, d, e, f, g], [a, b, c, d, e, f, g]);
  }

  function OrNone(s: Option<string>): string { match s case None => "None" case Some(x) => x }

  function FirstGiven(a: Option<string>, b: Option<string>, fallback: string): string {
    if a.Some? && a.value != "" then a.value else if b.Some? && b.value != "" then b.value else fallback
  }

  /** What the verifier binds for a stored row: tenant, actor, action, entity, details and
      request, joined with colons, with the older columns filling in for empty ones. */
  lemma RowDataIs(r: Row)
    ensures RowData(r) == Seven(
      OrNone(r.tenantId), FirstGiven(r.userId, r.actorId, "system"), FirstGiven(Some(r.action), r.eventType, "unknown"),
      r.entityType, OrNone(r.entityId),
      if r.details.Some? then r.details.value else if r.payload.Some? then r.payload.value else "{}",
      OrNone(r.requestId))
  {
    JoinedSeven(Show(r.tenantId), Actor(r), Action(r), r.entityType, Show(r.entityId), Details(r), Show(r.requestId));
  }

  function Given(s: Option<string>, fallback: string): string { if s.Some? && s.value != "" then s.value else fallback }

  /** What the writer binds for an event is the event's own text, and the row it stores
      carries the event: so the verifier reads back what the writer bound. The row's time
      is the clock's, or just past the tip where the clock is not past it. */
  lemma WriterBindsTheEvent(e: Event, id: nat, clock: int, tip: Option<Row>)
    ensures var r := NewRow(e, id, clock, tip);
      var user, action := Given(e.userId, "system"), Given(e.action, "unknown");
      && r.rowHash == H(r.prevHash, Seven(OrNone(e.tenantId), user, action, Given(e.entityType, "unknown"),
                                          OrNone(e.entityId), e.details, OrNone(e.requestId)))
      && r.id == id && r.tenantId == e.tenantId && r.userId == Some(user) && r.action == action
      && r.entityId == e.entityId && r.details == Some(e.details) && r.requestId == e.requestId
      && r.prevHash == (if tip.Some? then tip.value.rowHash else Empty)
      && r.at == if tip.None? || clock > tip.value.at then clock else tip.value.at + 1
  {
    var r := NewRow(e, id, clock, tip);
    var blank := r.(rowHash := Empty, legacyHash := Empty);
    assert Fields(r) == Fields(blank);
    RowDataIs(r);
  }

  /** The digest the walk reads of a row: its own, or the older column where that is empty. */
  function Read(r: Row): Digest { match r.rowHash case Empty => r.legacyHash case H(_, _) => r.rowHash }

  predicate ReadsOn(rows: seq<Row>, i: nat)
    requires i < |rows|
  {
    && Read(rows[i]) == H(rows[i].prevHash, RowData(rows[i]))
    && (i == 0 || rows[i].prevHash == Read(rows[i - 1]))
  }

  /** The walk passes exactly when every row's digest is that of its text after the row
      before it, wherever the first one started. */
  lemma WalkIs(rows: seq<Row>)
    ensures Linked(rows) <==> forall i: nat :: i < |rows| ==> ReadsOn(rows, i)
  {
    forall i: nat | i < |rows| ensures LinkedAt(rows, i) <==> ReadsOn(rows, i) {
    }
  }

  lemma SameTail(a: string, b: string, x: string)
    requires Colon(a, x) == Colon(b, x)
    ensures a == b
  {
    assert |a| == |b|;
    assert a == Colon(a, x)[..|a|] && b == Colon(b, x)[..|b|];
  }

  lemma SameFront(a: string, x: string, y: string)
    requires Colon(a, x) == Colon(a, y)
    ensures x == y
  {
    assert x == Colon(a, x)[|a| + 1..] && y == Colon(a, y)[|a| + 1..];
  }

  /** The text binds each field where the others stand: a change of one field alone always
      changes the text. */
  lemma {:induction false} OneFieldIsBound(a: seq<string>, b: seq<string>, k: nat)
    requires |a| == |b| && k < |a| && (forall i: nat :: i < |a| && i != k ==> a[i] == b[i]) && Joined(a) == Joined(b)
    ensures a[k] == b[k]
    decreases |a|
  {
    if |a| > 1 {
      JoinedOn(a[0], a[1..], a);
      JoinedOn(b[0], b[1..], b);
      if k == 0 {
        assert a[1..] == b[1..];
        SameTail(a[0], b[0], Joined(a[1..]));
      } else {
        SameFront(a[0], Joined(a[1..]), Joined(b[1..]));
        OneFieldIsBound(a[1..], b[1..], k - 1);
      }
    }
  }

  lemma ChangedFieldChangesTheText(r: Row, r': Row, k: nat)
    requires k < 7 && Fields(r)[k] != Fields(r')[k]
    requires forall i: nat :: i < 7 && i != k ==> Fields(r)[i] == Fields(r')[i]
    ensures RowData(r) != RowData(r')
  {
    if RowData(r) == RowData(r') {
      OneFieldIsBound(Fields(r), Fields(r'), k);
    }
  }
}
