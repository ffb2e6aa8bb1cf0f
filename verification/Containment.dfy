/**
 * A database session under Postgres rules: a failed statement aborts the
 * transaction until a rollback to a savepoint or of the whole; SAVEPOINT and
 * RELEASE are refused on an aborted transaction.
 *
 * Caller code is a program over the session, so the results below hold for
 * every body a caller may run inside `contained_read`.
 */
module Containment {
  import opened Basics

  type Work = nat   // one staged write

  /** `flushed`: sent in the open transaction; `pending`: staged, not sent. */
  datatype Db = Db(durable: seq<Work>, flushed: seq<Work>, pending: seq<Work>, aborted: bool)

  datatype Op =
    | Read(fails: bool)
    | Stage(w: Work)
    | Flush
    | Raise                        // an error that is not the database's
    | Contained(body: seq<Op>)     // with contained_read(db): body
    | Swallow(body: seq<Op>)       // try: body, except: pass

  datatype Outcome = Outcome(db: Db, raised: bool)

  function Sent(s: Db): Db { s.(flushed := s.flushed + s.pending, pending := []) }

  /** The end of a `contained_read` block opened at `s`: roll back to the savepoint
      on an exception, release it on a clean exit. */
  function Close(s: Db, body: Outcome): Outcome {
    if body.raised then Outcome(body.db.(flushed := s.flushed, aborted := false), true)
    else Outcome(body.db, body.db.aborted)
  }

  function Exec(op: Op, s: Db): Outcome
    decreases op, 0
  {
    match op
    case Read(fails) => if s.aborted || fails then Outcome(s.(aborted := true), true) else Outcome(s, false)
    case Stage(w) => Outcome(s.(pending := s.pending + [w]), false)
    case Flush =>
      if s.pending == [] then Outcome(s, false)
      else if s.aborted then Outcome(s, true)
      else Outcome(Sent(s), false)
    case Raise => Outcome(s, true)
    case Contained(body) => if s.aborted then Outcome(s, true) else Close(s, ExecAll(body, s))
    case Swallow(body) => Outcome(ExecAll(body, s).db, false)
  }

  function ExecAll(ops: seq<Op>, s: Db): Outcome
    decreases ops
  {
    if ops == [] then Outcome(s, false)
    else
      var first := Exec(ops[0], s);
      if first.raised then first else ExecAll(ops[1..], first.db)
  }

  // ---------------------------------------------------------------------
  // One block
  // ---------------------------------------------------------------------

  predicate ReadsOnly(op: Op)
    decreases op
  {
    match op
    case Read(_) => true
    case Stage(_) => false
    case Flush => false
    case Raise => true
    case Contained(body) => forall o :: o in body ==> ReadsOnly(o)
    case Swallow(body) => forall o :: o in body ==> ReadsOnly(o)
  }

  lemma {:induction false} ReadsTouchOnlyTheFlag(op: Op, s: Db)
    requires ReadsOnly(op)
    ensures Exec(op, s).db == s.(aborted := Exec(op, s).db.aborted)
    decreases op, 0
  {
    match op
    case Contained(body) => if !s.aborted { ReadsAllTouchOnlyTheFlag(body, s); }
    case Swallow(body) => ReadsAllTouchOnlyTheFlag(body, s);
    case _ =>
  }

  lemma {:induction false} ReadsAllTouchOnlyTheFlag(ops: seq<Op>, s: Db)
    requires forall o :: o in ops ==> ReadsOnly(o)
    ensures ExecAll(ops, s).db == s.(aborted := ExecAll(ops, s).db.aborted)
    decreases ops
  {
    if ops != [] {
      assert ops[0] in ops;
      ReadsTouchOnlyTheFlag(ops[0], s);
      if !Exec(ops[0], s).raised {
        ReadsAllTouchOnlyTheFlag(ops[1..], Exec(ops[0], s).db);
      }
    }
  }

  /** A failure that leaves a block of reads is contained: pending work and transaction
      are as they were, and the exception goes on. */
  lemma PropagatedFailureIsContained(body: seq<Op>, s: Db)
    requires !s.aborted && (forall o :: o in body ==> ReadsOnly(o)) && ExecAll(body, s).raised
    ensures Exec(Contained(body), s) == Outcome(s, true)
  {
    ReadsAllTouchOnlyTheFlag(body, s);
  }

  // Which blocks restore the session however their reads turn out: a question about
  // the program text.

  /** The same program, with reads that may turn out otherwise. */
  predicate SameCode(a: Op, b: Op)
    decreases a
  {
    match a
    case Read(_) => b.Read?
    case Contained(body) => b.Contained? && SameCodeAll(body, b.body)
    case Swallow(body) => b.Swallow? && SameCodeAll(body, b.body)
    case _ => a == b
  }

  predicate SameCodeAll(a: seq<Op>, b: seq<Op>)
    decreases a
  {
    |a| == |b| && (a == [] || (SameCode(a[0], b[0]) && SameCodeAll(a[1..], b[1..])))
  }

  /** How a program of reads can end on a healthy transaction. */
  datatype End = Fine | Raised | RaisedAborted | Dead

  function EndOf(o: Outcome): End {
    if o.db.aborted then (if o.raised then RaisedAborted else Dead) else if o.raised then Raised else Fine
  }

  predicate AllSwallow(ops: seq<Op>) { forall o :: o in ops ==> o.Swallow? }

  /** The ends a program can come to, read off its text. Only a swallowed block whose
      failure nothing contains can end dead, and only while nothing but swallowed
      blocks follows does the program end dead with it. */
  predicate CanEnd(op: Op, e: End)
    decreases op
  {
    match op
    case Read(_) => e.Fine? || e.RaisedAborted?
    case Raise => e.Raised?
    case Contained(body) =>
      (match e
       case Fine => CanEndAll(body, Fine)
       case Raised => CanEndAll(body, Raised) || CanEndAll(body, RaisedAborted)
       case RaisedAborted => CanEndAll(body, Dead)
       case Dead => false)
    case Swallow(body) =>
      (match e
       case Fine => CanEndAll(body, Fine) || CanEndAll(body, Raised)
       case Dead => CanEndAll(body, RaisedAborted) || CanEndAll(body, Dead)
       case _ => false)
    case _ => e.Fine?
  }

  predicate CanEndAll(ops: seq<Op>, e: End)
    decreases ops
  {
    if ops == [] then e.Fine?
    else
      || ((e.Raised? || e.RaisedAborted?) && CanEnd(ops[0], e))
      || (CanEnd(ops[0], Fine) && CanEndAll(ops[1..], e))
      || (CanEnd(ops[0], Dead) && if AllSwallow(ops[1..]) then e.Dead? else e.RaisedAborted?)
  }

  /** On an aborted transaction everything raises except a swallowed block. */
  lemma {:induction false} AbortedGoesOn(ops: seq<Op>, s: Db)
    requires s.aborted && forall o :: o in ops ==> ReadsOnly(o)
    ensures EndOf(ExecAll(ops, s)) == if AllSwallow(ops) then Dead else RaisedAborted
    decreases ops
  {
    if ops != [] {
      assert ops[0] in ops;
      if ops[0].Swallow? {
        AbortedGoesOn(ops[0].body, s);
        AbortedGoesOn(ops[1..], Exec(ops[0], s).db);
        assert forall o :: o in ops <==> o == ops[0] || o in ops[1..];
      }
    }
  }

  lemma {:induction false} EndsAsTold(op: Op, b: Op, s: Db)
    requires !s.aborted && ReadsOnly(op) && SameCode(op, b)
    ensures ReadsOnly(b) && CanEnd(op, EndOf(Exec(b, s)))
    decreases op, 0
  {
    match op
    case Contained(body) => EndsAsToldAll(body, b.body, s);
    case Swallow(body) => EndsAsToldAll(body, b.body, s);
    case _ =>
  }

  lemma {:induction false} EndsAsToldAll(ops: seq<Op>, b: seq<Op>, s: Db)
    requires !s.aborted && SameCodeAll(ops, b) && forall o :: o in ops ==> ReadsOnly(o)
    ensures (forall o :: o in b ==> ReadsOnly(o)) && CanEndAll(ops, EndOf(ExecAll(b, s)))
    decreases ops
  {
    if ops != [] {
      var first := Exec(b[0], s);
      EndsAsTold(ops[0], b[0], s);
      EndsAsToldAll(ops[1..], b[1..], s);
      assert forall o :: o in b <==> o == b[0] || o in b[1..];
      if !first.raised {
        if first.db.aborted {
          AbortedGoesOn(b[1..], first.db);
          SameSwallows(ops[1..], b[1..]);
        } else {
          EndsAsToldAll(ops[1..], b[1..], first.db);
        }
      }
    }
  }

  lemma {:induction false} SameSwallows(a: seq<Op>, b: seq<Op>)
    requires SameCodeAll(a, b)
    ensures AllSwallow(a) <==> AllSwallow(b)
  {
    if a != [] {
      SameSwallows(a[1..], b[1..]);
      assert SameCode(a[0], b[0]) && (a[0].Swallow? <==> b[0].Swallow?);
      assert forall o :: o in a <==> o == a[0] || o in a[1..];
      assert forall o :: o in b <==> o == b[0] || o in b[1..];
    }
  }

  lemma {:induction false} SameAsItself(ops: seq<Op>)
    ensures SameCodeAll(ops, ops)
    decreases ops
  {
    if ops != [] {
      SameOpAsItself(ops[0]);
      SameAsItself(ops[1..]);
    }
  }

  lemma {:induction false} SameOpAsItself(op: Op)
    ensures SameCode(op, op)
    decreases op, 0
  {
    match op
    case Contained(body) => SameAsItself(body);
    case Swallow(body) => SameAsItself(body);
    case _ =>
  }

  /** Every end the text allows is reached by some outcome of the reads. */
  lemma {:induction false} Reach(op: Op, e: End, s: Db) returns (b: Op)
    requires !s.aborted && ReadsOnly(op) && CanEnd(op, e)
    ensures SameCode(op, b) && ReadsOnly(b) && EndOf(Exec(b, s)) == e
    decreases op, 0
  {
    match op
    case Read(_) => b := Read(e.RaisedAborted?);
    case Raise => b := Raise;
    case Contained(body) =>
      var inner := if e.Fine? then Fine else if e.RaisedAborted? then Dead
        else if CanEndAll(body, Raised) then Raised else RaisedAborted;
      var within := ReachAll(body, inner, s);
      b := Contained(within);
    case Swallow(body) =>
      var inner := if e.Fine? then (if CanEndAll(body, Fine) then Fine else Raised)
        else if CanEndAll(body, Dead) then Dead else RaisedAborted;
      var within := ReachAll(body, inner, s);
      b := Swallow(within);
  }

  lemma {:induction false} ReachAll(ops: seq<Op>, e: End, s: Db) returns (b: seq<Op>)
    requires !s.aborted && CanEndAll(ops, e) && forall o :: o in ops ==> ReadsOnly(o)
    ensures SameCodeAll(ops, b) && (forall o :: o in b ==> ReadsOnly(o)) && EndOf(ExecAll(b, s)) == e
    decreases ops
  {
    if ops == [] {
      b := [];
    } else {
      assert ops[0] in ops && forall o :: o in ops[1..] ==> o in ops;
      var first, rest;
      if CanEnd(ops[0], Fine) && CanEndAll(ops[1..], e) {
        first := Reach(ops[0], Fine, s);
        rest := ReachAll(ops[1..], e, Exec(first, s).db);
      } else {
        rest := ops[1..];
        SameAsItself(rest);
        if (e.Raised? || e.RaisedAborted?) && CanEnd(ops[0], e) {
          first := Reach(ops[0], e, s);
        } else {
          first := Reach(ops[0], Dead, s);
          AbortedGoesOn(rest, Exec(first, s).db);
        }
      }
      b := [first] + rest;
      assert b[1..] == rest;
    }
  }

  /** On a healthy transaction a block of reads leaves pending work and transaction as
      they were, however its reads turn out, exactly if its text cannot end dead. */
  lemma ContainedReadRestoresIff(body: seq<Op>, s: Db)
    requires !s.aborted && forall o :: o in body ==> ReadsOnly(o)
    ensures (forall b :: SameCodeAll(body, b) ==> Exec(Contained(b), s).db == s) <==> !CanEndAll(body, Dead)
  {
    if CanEndAll(body, Dead) {
      var b := ReachAll(body, Dead, s);
      assert Exec(Contained(b), s).db.aborted;
    } else {
      forall b | SameCodeAll(body, b) ensures Exec(Contained(b), s).db == s {
        EndsAsToldAll(body, b, s);
        ReadsAllTouchOnlyTheFlag(b, s);
      }
    }
  }

  /** What to look for in the text: a swallowed block that can be reached, in which a
      failure can go uncontained, and behind which only swallowed blocks follow. */
  ghost predicate DeadEndAt(ops: seq<Op>, k: nat) {
    && k < |ops| && ops[k].Swallow? && CanEnd(ops[k], Dead)
    && (forall m: nat :: m < k ==> CanEnd(ops[m], Fine)) && AllSwallow(ops[k + 1..])
  }

  lemma {:induction false} DeadEndIff(ops: seq<Op>)
    ensures CanEndAll(ops, Dead) <==> exists k: nat :: DeadEndAt(ops, k)
    decreases ops
  {
    if ops != [] {
      var rest := ops[1..];
      DeadEndIff(rest);
      if k: nat :| DeadEndAt(ops, k) {
        if k > 0 {
          assert ops[k + 1..] == rest[k..];
          assert forall m: nat :: m < k - 1 ==> rest[m] == ops[m + 1];
          assert DeadEndAt(rest, k - 1);
        }
      }
      if CanEnd(ops[0], Dead) && AllSwallow(rest) {
        assert DeadEndAt(ops, 0);
      } else if CanEnd(ops[0], Fine) && CanEndAll(rest, Dead) {
        var k: nat :| DeadEndAt(rest, k);
        assert ops[k + 2..] == rest[k + 1..];
        assert DeadEndAt(ops, k + 1);
      }
    }
  }

  /** The failing case at its smallest: a read whose failure is swallowed inside the block. */
  lemma SwallowedFailureKillsTheBlock(s: Db)
    requires !s.aborted
    ensures var body := [Swallow([Read(true)])];
      Exec(Contained(body), s) == Outcome(s.(aborted := true), true) && CanEndAll(body, Dead)
  {
    var inner := [Read(true)];
    assert inner[1..] == [] && ExecAll(inner, s) == Outcome(s.(aborted := true), true);
    assert CanEnd(Read(true), RaisedAborted) && CanEndAll(inner, RaisedAborted);
    var body := [Swallow(inner)];
    assert body[1..] == [] && ExecAll(body, s) == Outcome(s.(aborted := true), false);
  }

  // ---------------------------------------------------------------------
  // Writes inside a block
  // ---------------------------------------------------------------------

  /** What `contained_read` warns about: the pending count moved across the block. */
  predicate Warns(body: seq<Op>, s: Db) { |ExecAll(body, s).db.pending| != |s.pending| }

  /** Nothing sent before a program is unsent by it. */
  lemma {:induction false} SavepointIsPrefix(ops: seq<Op>, s: Db)
    ensures s.flushed <= ExecAll(ops, s).db.flushed && ExecAll(ops, s).db.durable == s.durable
    decreases ops
  {
    if ops != [] {
      OpKeepsPrefix(ops[0], s);
      if !Exec(ops[0], s).raised {
        SavepointIsPrefix(ops[1..], Exec(ops[0], s).db);
      }
    }
  }

  lemma {:induction false} OpKeepsPrefix(op: Op, s: Db)
    ensures s.flushed <= Exec(op, s).db.flushed && Exec(op, s).db.durable == s.durable
    decreases op, 0
  {
    match op
    case Contained(body) => SavepointIsPrefix(body, s);
    case Swallow(body) => SavepointIsPrefix(body, s);
    case _ =>
  }

  /** What a program sent, of the work it found pending or staged itself. */
  function SentBy(ops: seq<Op>, s: Db): seq<Work> {
    SavepointIsPrefix(ops, s);
    ExecAll(ops, s).db.flushed[|s.flushed|..]
  }

  /** What a program staged on its way. */
  function StagedBy(op: Op, s: Db): seq<Work>
    decreases op, 0
  {
    match op
    case Stage(w) => [w]
    case Contained(body) => if s.aborted then [] else StagedAll(body, s)
    case Swallow(body) => StagedAll(body, s)
    case _ => []
  }

  function StagedAll(ops: seq<Op>, s: Db): seq<Work>
    decreases ops
  {
    if ops == [] then []
    else StagedBy(ops[0], s) + if Exec(ops[0], s).raised then [] else StagedAll(ops[1..], Exec(ops[0], s).db)
  }

  /** What the blocks inside a program dropped: each failing block, all that was sent in it. */
  function DroppedBy(op: Op, s: Db): seq<Work>
    decreases op, 0
  {
    match op
    case Contained(body) =>
      if s.aborted then [] else DroppedAll(body, s) + if ExecAll(body, s).raised then SentBy(body, s) else []
    case Swallow(body) => DroppedAll(body, s)
    case _ => []
  }

  function DroppedAll(ops: seq<Op>, s: Db): seq<Work>
    decreases ops
  {
    if ops == [] then []
    else DroppedBy(ops[0], s) + if Exec(ops[0], s).raised then [] else DroppedAll(ops[1..], Exec(ops[0], s).db)
  }

  function Holds(s: Db): multiset<Work> { multiset(s.flushed) + multiset(s.pending) }

  /** For every program: what is held afterwards and what was dropped is what was held
      before and what was staged. */
  lemma {:induction false} NothingElseIsLost(ops: seq<Op>, s: Db)
    ensures Holds(ExecAll(ops, s).db) + multiset(DroppedAll(ops, s)) == Holds(s) + multiset(StagedAll(ops, s))
    decreases ops
  {
    if ops != [] {
      var first := Exec(ops[0], s);
      OpLosesNothingElse(ops[0], s);
      if !first.raised {
        var rest := ops[1..];
        NothingElseIsLost(rest, first.db);
        assert multiset(DroppedAll(ops, s)) == multiset(DroppedBy(ops[0], s)) + multiset(DroppedAll(rest, first.db));
        assert multiset(StagedAll(ops, s)) == multiset(StagedBy(ops[0], s)) + multiset(StagedAll(rest, first.db));
        Chain(Holds(s), Holds(first.db), Holds(ExecAll(ops, s).db),
              multiset(DroppedBy(ops[0], s)), multiset(StagedBy(ops[0], s)),
              multiset(DroppedAll(rest, first.db)), multiset(StagedAll(rest, first.db)));
      } else {
        assert DroppedAll(ops, s) == DroppedBy(ops[0], s) && StagedAll(ops, s) == StagedBy(ops[0], s);
      }
    }
  }

  lemma Chain(a: multiset<Work>, b: multiset<Work>, c: multiset<Work>,
              d1: multiset<Work>, s1: multiset<Work>, d2: multiset<Work>, s2: multiset<Work>)
    requires b + d1 == a + s1 && c + d2 == b + s2
    ensures c + (d1 + d2) == a + (s1 + s2)
  {
    assert c + (d1 + d2) == (c + d2) + d1 == (b + d1) + s2;
  }

  lemma Balance(f: multiset<Work>, f': multiset<Work>, x: multiset<Work>, p': multiset<Work>, d: multiset<Work>,
                p: multiset<Work>, st: multiset<Work>)
    requires f' == f + x && f' + p' + d == f + p + st
    ensures x + p' + d == p + st
  {
    forall w: Work ensures (x + p' + d)[w] == (p + st)[w] {
      assert (f' + p' + d)[w] == (f + p + st)[w];
    }
  }

  lemma {:induction false} OpLosesNothingElse(op: Op, s: Db)
    ensures Holds(Exec(op, s).db) + multiset(DroppedBy(op, s)) == Holds(s) + multiset(StagedBy(op, s))
    decreases op, 0
  {
    match op
    case Contained(body) =>
      if !s.aborted {
        NothingElseIsLost(body, s);
        BlockLosesWhatWasSent(body, s);
      }
    case Swallow(body) => NothingElseIsLost(body, s);
    case _ =>
  }

  lemma BlockLosesWhatWasSent(body: seq<Op>, s: Db)
    requires !s.aborted
    ensures Holds(Exec(Contained(body), s).db) + multiset(DroppedBy(Contained(body), s))
         == Holds(ExecAll(body, s).db) + multiset(DroppedAll(body, s))
  {
    SavepointIsPrefix(body, s);
    assert ExecAll(body, s).db.flushed == s.flushed + SentBy(body, s);
  }

  /** Every block that fails, over any work pending before it: it drops exactly what was
      sent inside it and keeps exactly what is still pending; what it found pending and
      what it staged is in one or the other, or was dropped by a block within. */
  lemma FailingBlockDropsWhatWasSent(body: seq<Op>, s: Db)
    requires !s.aborted && ExecAll(body, s).raised
    ensures Exec(Contained(body), s) == Outcome(Db(s.durable, s.flushed, ExecAll(body, s).db.pending, false), true)
    ensures multiset(SentBy(body, s)) + multiset(ExecAll(body, s).db.pending) + multiset(DroppedAll(body, s))
         == multiset(s.pending) + multiset(StagedAll(body, s))
  {
    SavepointIsPrefix(body, s);
    WorkIsSomewhere(body, s);
  }

  lemma WorkIsSomewhere(ops: seq<Op>, s: Db)
    ensures multiset(SentBy(ops, s)) + multiset(ExecAll(ops, s).db.pending) + multiset(DroppedAll(ops, s))
         == multiset(s.pending) + multiset(StagedAll(ops, s))
  {
    var out := ExecAll(ops, s).db;
    NothingElseIsLost(ops, s);
    SavepointIsPrefix(ops, s);
    SplitOff(out.flushed, s.flushed);
    Balance(multiset(s.flushed), multiset(out.flushed), multiset(SentBy(ops, s)), multiset(out.pending),
            multiset(DroppedAll(ops, s)), multiset(s.pending), multiset(StagedAll(ops, s)));
  }

  lemma SplitOff(all: seq<Work>, front: seq<Work>)
    requires front <= all
    ensures multiset(all) == multiset(front) + multiset(all[|front|..])
  {
    assert all == front + all[|front|..];
  }

  predicate NoFlush(op: Op)
    decreases op
  {
    match op
    case Flush => false
    case Contained(body) => forall o :: o in body ==> NoFlush(o)
    case Swallow(body) => forall o :: o in body ==> NoFlush(o)
    case _ => true
  }

  /** A body that never flushes sends nothing: all of its work survives the failure, and
      the block warns exactly if it staged any. */
  lemma {:induction false} UnflushedWorkSurvives(ops: seq<Op>, s: Db)
    requires forall o :: o in ops ==> NoFlush(o)
    ensures ExecAll(ops, s).db.flushed == s.flushed && SentBy(ops, s) == []
    ensures ExecAll(ops, s).db.pending == s.pending + StagedAll(ops, s)
    ensures Warns(ops, s) <==> StagedAll(ops, s) != []
    decreases ops
  {
    if ops != [] {
      assert ops[0] in ops && forall o :: o in ops[1..] ==> o in ops;
      UnflushedOpSurvives(ops[0], s);
      if !Exec(ops[0], s).raised {
        UnflushedWorkSurvives(ops[1..], Exec(ops[0], s).db);
      }
    }
  }

  lemma {:induction false} UnflushedOpSurvives(op: Op, s: Db)
    requires NoFlush(op)
    ensures Exec(op, s).db.flushed == s.flushed && Exec(op, s).db.pending == s.pending + StagedBy(op, s)
    decreases op, 0
  {
    match op
    case Contained(body) =>
      if !s.aborted {
        UnflushedWorkSurvives(body, s);
      }
    case Swallow(body) => UnflushedWorkSurvives(body, s);
    case _ =>
  }

  lemma {:induction false} ExecAllConcat(a: seq<Op>, b: seq<Op>, s: Db)
    requires !ExecAll(a, s).raised
    ensures ExecAll(a + b, s) == ExecAll(b, ExecAll(a, s).db)
    decreases a
  {
    if a == [] {
      assert a + b == b;
    } else {
      assert (a + b)[1..] == a[1..] + b;
      ExecAllConcat(a[1..], b, Exec(a[0], s).db);
    }
  }

  /** The first flush inside a failing block takes with it all that was pending, the
      caller's earlier work included. */
  lemma FlushedWorkIsLost(a: seq<Op>, b: seq<Op>, s: Db)
    requires !s.aborted && (forall o :: o in a ==> NoFlush(o))
    requires !ExecAll(a, s).raised && !ExecAll(a, s).db.aborted && ExecAll(a + ([Flush] + b), s).raised
    ensures s.pending + StagedAll(a, s) <= SentBy(a + ([Flush] + b), s)
    ensures Exec(Contained(a + ([Flush] + b)), s).db.flushed == s.flushed
  {
    var mid := ExecAll(a, s).db;
    UnflushedWorkSurvives(a, s);
    ExecAllConcat(a, [Flush] + b, s);
    assert ([Flush] + b)[1..] == b;
    SavepointIsPrefix(b, Exec(Flush, mid).db);
    assert Exec(Flush, mid).db.flushed == s.flushed + (s.pending + StagedAll(a, s));
  }

  // ---------------------------------------------------------------------
  // Whole programs
  // ---------------------------------------------------------------------

  /** Database failures inside cannot reach the enclosing handler uncontained. */
  predicate NoBareFailure(op: Op) { !op.Read? && !op.Flush? }

  /** Every swallowed database failure crosses a `contained_read` on its way. */
  predicate Disciplined(op: Op)
    decreases op
  {
    match op
    case Contained(body) => forall o :: o in body ==> Disciplined(o)
    case Swallow(body) => forall o :: o in body ==> Disciplined(o) && NoBareFailure(o)
    case _ => true
  }

  lemma {:induction false} DisciplineKeepsAlive(op: Op, s: Db)
    requires Disciplined(op) && !s.aborted
    ensures Exec(op, s).db.aborted ==> Exec(op, s).raised && !NoBareFailure(op)
    decreases op, 0
  {
    match op
    case Contained(body) => DisciplineKeepsAllAlive(body, s);
    case Swallow(body) => DisciplineKeepsAllAlive(body, s);
    case _ =>
  }

  lemma {:induction false} DisciplineKeepsAllAlive(ops: seq<Op>, s: Db)
    requires !s.aborted && forall o :: o in ops ==> Disciplined(o)
    ensures ExecAll(ops, s).db.aborted ==> ExecAll(ops, s).raised && exists o :: o in ops && !NoBareFailure(o)
    decreases ops
  {
    if ops != [] {
      assert ops[0] in ops;
      DisciplineKeepsAlive(ops[0], s);
      var first := Exec(ops[0], s);
      if !first.raised {
        assert forall o :: o in ops[1..] ==> o in ops;
        DisciplineKeepsAllAlive(ops[1..], first.db);
      }
    }
  }

  /** A block of reads that keeps the discipline restores the session. */
  lemma DisciplinedBlocksRestore(body: seq<Op>, s: Db)
    requires !s.aborted && forall o :: o in body ==> ReadsOnly(o) && Disciplined(o)
    ensures Exec(Contained(body), s).db == s
  {
    ReadsAllTouchOnlyTheFlag(body, s);
    DisciplineKeepsAllAlive(body, s);
  }

  /** A commit on an aborted transaction makes nothing durable. */
  function Commit(s: Db): Outcome {
    if s.aborted then Outcome(Db(s.durable, [], [], false), true)
    else Outcome(Db(s.durable + s.flushed + s.pending, [], [], false), false)
  }

  function Rollback(s: Db): Db { Db(s.durable, [], [], false) }

  /** Every program that keeps the discipline and ends without raising commits
      everything it holds, however many reads failed on the way. */
  lemma DisciplinedProgramsCommit(ops: seq<Op>, s: Db)
    requires !s.aborted && forall o :: o in ops ==> Disciplined(o)
    requires !ExecAll(ops, s).raised
    ensures var done := ExecAll(ops, s).db;
      !Commit(done).raised && Commit(done).db.durable == done.durable + done.flushed + done.pending
  {
    DisciplineKeepsAllAlive(ops, s);
  }

  // ---------------------------------------------------------------------
  // Recording a change
  // ---------------------------------------------------------------------

  /** What the database will say: to the caller's own staged rows, to the trail row. */
  datatype Verdict = Verdict(ownRefused: bool, trailRefused: bool)

  /** `db.flush()`: a refused row leaves the transaction aborted. */
  function FlushOwn(s: Db, v: Verdict): Outcome {
    if s.pending == [] then Outcome(s, false)
    else if s.aborted then Outcome(s, true)
    else if v.ownRefused then Outcome(s.(aborted := true), true)
    else Outcome(Sent(s), false)
  }

  /** `log_audit_event_sync`: stages the trail row and flushes it with everything pending. */
  function LogEvent(s: Db, trail: Work, v: Verdict): Outcome {
    if s.aborted then Outcome(s, true)
    else if v.trailRefused || (s.pending != [] && v.ownRefused) then Outcome(s.(aborted := true), true)
    else Outcome(Sent(s.(pending := s.pending + [trail])), false)
  }

  /** `audit_or_rollback` */
  function AuditOrRollback(s: Db, trail: Work, v: Verdict): Outcome {
    var logged := LogEvent(s, trail, v);
    if logged.raised then Outcome(Rollback(logged.db), true) else logged
  }

  /** `audit_best_effort_precommit`; `raised` is the caller's own flush failing, and
      the result says whether the trail row is staged. */
  function Precommit(s: Db, trail: Work, v: Verdict): (Outcome, bool) {
    var own := FlushOwn(s, v);
    if own.raised then (own, false)
    else if own.db.aborted then (own, false)            // the savepoint is refused
    else
      var logged := LogEvent(own.db, trail, v);
      if logged.raised then (own, false)                // rolled back to the savepoint
      else (logged, true)
  }

  /** The caller commits unless the helper raised. */
  function CommitUnless(o: Outcome): seq<Work> { if o.raised then o.db.durable else Commit(o.db).db.durable }

  predicate InFlight(s: Db, w: Work) { w in s.flushed + s.pending && w !in s.durable }

  predicate NowhereYet(s: Db, w: Work) { w !in s.flushed + s.pending && w !in s.durable }

  /** With `audit_or_rollback`, the change is durable exactly when its trail row is. */
  lemma ChangeAndTrailLandTogether(s: Db, change: Work, trail: Work, v: Verdict)
    requires InFlight(s, change) && NowhereYet(s, trail)
    ensures var durable := CommitUnless(AuditOrRollback(s, trail, v));
      change in durable <==> trail in durable
    ensures var durable := CommitUnless(AuditOrRollback(s, trail, v));
      change in durable <==> !s.aborted && !v.trailRefused && !(s.pending != [] && v.ownRefused)
  {
    if !AuditOrRollback(s, trail, v).raised {
      var sent := s.flushed + (s.pending + [trail]);
      assert AuditOrRollback(s, trail, v).db == Db(s.durable, sent, [], false);
      assert CommitUnless(AuditOrRollback(s, trail, v)) == s.durable + sent + [];
      assert change in sent && trail in sent;
    }
  }

  /** With the precommit helper, a refused trail row never costs the change, and
      the row is never durable without it. */
  lemma ChangeSurvivesARefusedTrail(s: Db, change: Work, trail: Work, v: Verdict)
    requires InFlight(s, change) && NowhereYet(s, trail)
    ensures var (out, staged) := Precommit(s, trail, v); var durable := CommitUnless(out);
      && (change in durable <==> !s.aborted && !(s.pending != [] && v.ownRefused))
      && (trail in durable <==> change in durable && !v.trailRefused)
      && (trail in durable <==> staged)
  {
    var own := FlushOwn(s, v);
    if !own.raised && !own.db.aborted {
      assert own.db.flushed == s.flushed + s.pending;
      var sent := own.db.flushed;
      assert Commit(own.db).db.durable == s.durable + sent + [];
      assert (sent + ([] + [trail]))[|sent|] == trail;
      assert forall w :: w in sent ==> w in sent + ([] + [trail]);
      assert !v.trailRefused ==>
        Commit(LogEvent(own.db, trail, v).db).db.durable == s.durable + (sent + ([] + [trail])) + [];
    } else if own.raised {
      assert own.db.durable == s.durable;
    } else {
      assert s.aborted && s.pending == [];
    }
  }

  // ---------------------------------------------------------------------
  // The session, changed in place
  // ---------------------------------------------------------------------

  class Session {
    var durable: seq<Work>
    var flushed: seq<Work>
    var pending: seq<Work>
    var aborted: bool

    constructor (db: Db)
      ensures View() == db
    {
      durable, flushed, pending, aborted := db.durable, db.flushed, db.pending, db.aborted;
    }

    function View(): Db
      reads this
    {
      Db(durable, flushed, pending, aborted)
    }

    /** `contained_read` around a caller's body: savepoint, body, release or roll back. */
    method ContainedRead(body: seq<Op>) returns (raised: bool)
      modifies this
      ensures Outcome(View(), raised) == Exec(Contained(body), old(View()))
      decreases body, 1
    {
      if aborted {
        return true;
      }
      var savepoint := |flushed|;
      raised := Run(body);
      SavepointIsPrefix(body, old(View()));
      if raised {
        flushed := flushed[..savepoint];
        aborted := false;
      } else {
        raised := aborted;
      }
    }

    /** `log_audit_event_sync`: the trail row goes out with everything pending, or the
        transaction is aborted; nothing becomes durable here. */
    method LogAuditEvent(trail: Work, v: Verdict) returns (raised: bool)
      modifies this
      ensures Outcome(View(), raised) == LogEvent(old(View()), trail, v)
      ensures durable == old(durable) && (raised <==> aborted)
      ensures !raised ==> pending == [] && flushed == old(flushed + pending) + [trail]
      ensures raised ==> pending == old(pending) && flushed == old(flushed)
      ensures raised <==> old(aborted) || v.trailRefused || (old(pending) != [] && v.ownRefused)
    {
      if aborted {
        return true;
      }
      if v.trailRefused || (pending != [] && v.ownRefused) {
        aborted := true;
        return true;
      }
      pending := pending + [trail];
      flushed, pending := flushed + pending, [];
      raised := false;
    }

    /** `audit_or_rollback`: record the change, or take it down. */
    method AuditOrRollbackInPlace(trail: Work, v: Verdict) returns (raised: bool)
      modifies this
      ensures Outcome(View(), raised) == AuditOrRollback(old(View()), trail, v)
      ensures durable == old(durable) && !aborted && pending == []
      ensures flushed == if raised then [] else old(flushed + pending) + [trail]
    {
      raised := LogAuditEvent(trail, v);
      if raised {
        flushed, pending, aborted := [], [], false;
      }
    }

    /** `audit_best_effort_precommit`: flush the caller's work, then try the trail
        row inside a savepoint. */
    method AuditPrecommit(trail: Work, v: Verdict) returns (raised: bool, staged: bool)
      modifies this
      ensures (Outcome(View(), raised), staged) == Precommit(old(View()), trail, v)
      ensures durable == old(durable) && (staged ==> !raised && !aborted)
      ensures !raised ==> pending == [] && flushed == old(flushed + pending) + if staged then [trail] else []
      ensures raised ==> aborted && pending == old(pending) && flushed == old(flushed)
      ensures raised <==> old(pending) != [] && (old(aborted) || v.ownRefused)
      ensures staged <==> !raised && !old(aborted) && !v.trailRefused
    {
      staged := false;
      raised := pending != [] && (aborted || v.ownRefused);
      if raised {
        aborted := true;
        return;
      }
      if pending != [] {
        flushed, pending := flushed + pending, [];
      }
      if aborted {
        return;
      }
      var savepoint := flushed;
      var refused := LogAuditEvent(trail, v);
      if refused {
        flushed, pending, aborted := savepoint, [], false;
      }
      staged := !refused;
    }

    method Run(ops: seq<Op>) returns (raised: bool)
      modifies this
      ensures Outcome(View(), raised) == ExecAll(ops, old(View()))
      decreases ops, 0
    {
      if ops == [] {
        return false;
      }
      match ops[0] {
        case Read(fails) =>
          raised := aborted || fails;
          aborted := raised;
        case Stage(w) =>
          raised := false;
          pending := pending + [w];
        case Flush =>
          raised := pending != [] && aborted;
          if pending != [] && !aborted {
            flushed, pending := flushed + pending, [];
          }
        case Raise =>
          raised := true;
        case Contained(body) =>
          raised := ContainedRead(body);
        case Swallow(body) =>
          var _ := Run(body);
          raised := false;
      }
      if !raised {
        raised := Run(ops[1..]);
      }
    }
  }
}
