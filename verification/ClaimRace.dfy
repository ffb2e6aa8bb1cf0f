/**
 * Concurrent builds that claim and price the current closeout's final-day hours,
 * under READ COMMITTED with row locks held to the end of the transaction.
 *
 * A build inserts its invoice, picks the job's current closeout, reads what is
 * left to bill, takes the closeout's row lock, stamps the row, prices the labor
 * and commits or rolls back; other builds, voids and new closeouts interleave
 * anywhere in between. One job's rows; a transaction is named by the invoice it
 * builds. Amounts are half hours.
 */
module ClaimRace {
  import opened Basics
  import opened Closeouts

  datatype Phase =
    | Building                 // the invoice is inserted, nothing is read yet
    | Skipped                  // nothing was left to bill: the claim returned before the lock
    | Waiting(toBill: nat)     // something was; the claim now wants the row lock
    | Locked(toBill: nat)
    | Claiming(toBill: nat)    // the UPDATE took the row
    | Refused                  // the UPDATE found a live holder

  /** `priced` is set once the labor lines are written. */
  datatype Txn = Txn(cid: nat, phase: Phase, priced: Option<nat>)

  /** A committed invoice. `skipped`: its build took the early return. */
  datatype Bill = Bill(cid: nat, hours: nat, live: bool, skipped: bool)

  datatype State = State(
    rows: seq<Closeout>, open: map<InvoiceId, Txn>, locks: map<nat, InvoiceId>, bills: map<InvoiceId, Bill>)

  datatype Step =
    | CloseOut(hoursWorked: int, techsOnSite: int, stillCompleted: bool)
    | Start(i: InvoiceId)
    | ReadToBill(i: InvoiceId)
    | TakeLock(i: InvoiceId)
    | Update(i: InvoiceId)
    | PriceLabor(i: InvoiceId)
    | Commit(i: InvoiceId)
    | Rollback(i: InvoiceId)
    | Void(i: InvoiceId)

  predicate LiveBill(s: State, i: InvoiceId) { i in s.bills && s.bills[i].live }

  /** The committed live invoices. */
  function Live(s: State): (live: set<InvoiceId>)
    ensures forall i :: i in live <==> LiveBill(s, i)
  {
    set i | i in s.bills && s.bills[i].live
  }

  /** The rows as open transaction `i` sees them: its own stamp on top. */
  function SeenRows(s: State, i: InvoiceId): seq<Closeout>
    requires i in s.open && s.open[i].cid < |s.rows|
  {
    var t := s.open[i];
    if t.phase.Claiming? then Stamped(s.rows, t.cid, i, t.phase.toBill) else s.rows
  }

  /** `closeout_man_hours_to_bill`, read by transaction `i` at this moment; its own
      invoice is live to it. */
  function SeenToBill(s: State, i: InvoiceId): nat
    requires i in s.open && s.open[i].cid < |s.rows|
  {
    ToBill(SeenRows(s, i), Live(s) + {i}, s.open[i].cid)
  }

  /** Another live invoice holds the row, as transaction `i` sees it. */
  predicate HeldByOther(s: State, i: InvoiceId)
    requires i in s.open && s.open[i].cid < |s.rows|
  {
    var h := Holder(SeenRows(s, i)[s.open[i].cid], Live(s) + {i});
    h.Some? && h.value != i
  }

  predicate HoldsLock(p: Phase) { p.Locked? || p.Claiming? || p.Refused? }

  predicate Ready(t: Txn) { t.phase.Skipped? || t.phase.Claiming? || t.phase.Refused? }

  function Unlock(locks: map<nat, InvoiceId>, i: InvoiceId): map<nat, InvoiceId> {
    map c | c in locks && locks[c] != i :: locks[c]
  }

  function Enter(s: State, i: InvoiceId, p: Phase): State
    requires i in s.open
  {
    s.(open := s.open[i := s.open[i].(phase := p)])
  }

  /** A void's UPDATE waits for the lock of every row that names the invoice. */
  predicate CanVoid(s: State, i: InvoiceId) {
    LiveBill(s, i) && forall c: nat :: c < |s.rows| && s.rows[c].billedBy == Some(i) ==> c !in s.locks
  }

  predicate OpenOn(s: State, i: InvoiceId) { i in s.open && s.open[i].cid < |s.rows| }

  predicate Enabled(s: State, step: Step) {
    match step
    case CloseOut(_, _, _) => true
    case Start(i) => i !in s.open && i !in s.bills && s.rows != []
    case ReadToBill(i) => OpenOn(s, i) && s.open[i].phase.Building?
    case TakeLock(i) => OpenOn(s, i) && s.open[i].phase.Waiting? && s.open[i].cid !in s.locks
    case Update(i) => OpenOn(s, i) && s.open[i].phase.Locked?
    case PriceLabor(i) => OpenOn(s, i) && s.open[i].priced.None? && Ready(s.open[i])
    case Commit(i) => OpenOn(s, i) && s.open[i].priced.Some?
    case Rollback(i) => i in s.open
    case Void(i) => CanVoid(s, i)
  }

  function Next(s: State, step: Step): State {
    if !Enabled(s, step) then s else
    match step
    case CloseOut(h, n, still) => s.(rows := s.rows + [NextRow(s.rows, h, n, still)])
    case Start(i) => s.(open := s.open[i := Txn(|s.rows| - 1, Building, None)])
    case ReadToBill(i) => Enter(s, i, if SeenToBill(s, i) > 0 then Waiting(SeenToBill(s, i)) else Skipped)
    case TakeLock(i) => Enter(s, i, Locked(s.open[i].phase.toBill)).(locks := s.locks[s.open[i].cid := i])
    case Update(i) => Enter(s, i, if HeldByOther(s, i) then Refused else Claiming(s.open[i].phase.toBill))
    case PriceLabor(i) =>
      s.(open := s.open[i := s.open[i].(priced := Some(if HeldByOther(s, i) then 0 else SeenToBill(s, i)))])
    case Commit(i) =>
      var t := s.open[i];
      State(SeenRows(s, i), s.open - {i}, Unlock(s.locks, i),
            s.bills[i := Bill(t.cid, t.priced.value, true, t.phase.Skipped?)])
    case Rollback(i) => s.(open := s.open - {i}, locks := Unlock(s.locks, i))
    case Void(i) => s.(rows := Release(s.rows, i), bills := s.bills[i := s.bills[i].(live := false)])
  }

  function Exec(s: State, steps: seq<Step>): State
    decreases |steps|
  {
    if steps == [] then s else Exec(Next(s, steps[0]), steps[1..])
  }

  const Idle := State([], map[], map[], map[])

  // ---------------------------------------------------------------------
  // What every step keeps
  // ---------------------------------------------------------------------

  /** A lock is held by exactly the transaction whose phase says so. */
  ghost predicate LocksMatch(s: State) {
    && (forall c :: c in s.locks ==>
          s.locks[c] in s.open && s.open[s.locks[c]].cid == c && HoldsLock(s.open[s.locks[c]].phase))
    && (forall i :: i in s.open && HoldsLock(s.open[i].phase) ==>
          s.open[i].cid in s.locks && s.locks[s.open[i].cid] == i)
  }

  predicate Free(s: State, c: nat)
    requires c < |s.rows|
  {
    Holder(s.rows[c], Live(s)).None?
  }

  predicate WantsHours(p: Phase) { (p.Waiting? || p.Locked? || p.Claiming?) ==> p.toBill > 0 }

  /** Under its lock, a transaction's verdict on the row stays true. */
  predicate VerdictStands(s: State, i: InvoiceId)
    requires OpenOn(s, i)
  {
    var t := s.open[i];
    && WantsHours(t.phase)
    && (t.phase.Claiming? ==> Free(s, t.cid))
    && (t.phase.Refused? ==> !Free(s, t.cid))
    && (t.priced.Some? ==> Ready(t))
    && (t.phase.Refused? && t.priced.Some? ==> t.priced.value == 0)
  }

  /** A committed invoice holds the stamp of what it priced, unless it skipped the claim. */
  predicate BillStands(s: State, i: InvoiceId)
    requires i in s.bills && s.bills[i].cid < |s.rows|
  {
    var b := s.bills[i];
    && (b.live && b.hours > 0 && !b.skipped ==> s.rows[b.cid].billedBy == Some(i))
    && (b.skipped ==> forall c: nat :: c < |s.rows| ==> s.rows[c].billedBy != Some(i))
  }

  ghost predicate StampsKnown(s: State) {
    forall c: nat :: c < |s.rows| && s.rows[c].billedBy.Some? ==> s.rows[c].billedBy.value in s.bills
  }

  ghost predicate Safe(s: State) {
    && Linear(s.rows) && LocksMatch(s) && s.open.Keys !! s.bills.Keys && StampsKnown(s)
    && (forall i :: i in s.open ==> OpenOn(s, i) && VerdictStands(s, i))
    && (forall i :: i in s.bills ==> s.bills[i].cid < |s.rows| && BillStands(s, i))
  }

  /** A transaction's own stamp and its own invoice do not change what it reads:
      a row is never part of its own run here, and nobody else names the invoice. */
  lemma SeesTheCommitted(s: State, i: InvoiceId)
    requires Safe(s) && i in s.open
    ensures SeenToBill(s, i) == ToBill(s.rows, Live(s), s.open[i].cid)
    ensures HeldByOther(s, i) <==> !s.open[i].phase.Claiming? && !Free(s, s.open[i].cid)
  {
    var c := s.open[i].cid;
    var seen := SeenRows(s, i);
    RunStep(s.rows, c);
    RunFromFrame(s.rows, seen, c, {});
    forall k: nat | k < |s.rows| && k != c ensures HeldBy(seen[k], Live(s) + {i}) == HeldBy(s.rows[k], Live(s)) {
      NobodyNames(s, i, k);
    }
    NobodyNames(s, i, c);
    RunShape(s.rows, c);
    HeldFrame(s.rows, Live(s), seen, Live(s) + {i}, Run(s.rows, c));
  }

  lemma NobodyNames(s: State, i: InvoiceId, k: nat)
    requires Safe(s) && i in s.open && k < |s.rows|
    ensures s.rows[k].billedBy != Some(i)
    ensures Holder(s.rows[k], Live(s) + {i}) == Holder(s.rows[k], Live(s))
  {
    assert s.rows[k].billedBy == Some(i) ==> i in s.bills;
  }

  lemma StepKeepsSafe(s: State, step: Step)
    requires Safe(s)
    ensures Safe(Next(s, step))
  {
    if Enabled(s, step) {
      match step
      case CloseOut(h, n, still) => CloseOutKeepsSafe(s, h, n, still);
      case Start(i) => StartKeepsSafe(s, i);
      case ReadToBill(i) => ReadKeepsSafe(s, i);
      case TakeLock(i) => TakeLockKeepsSafe(s, i);
      case Update(i) => UpdateKeepsSafe(s, i);
      case PriceLabor(i) => PriceKeepsSafe(s, i);
      case Commit(i) => CommitKeepsSafe(s, i);
      case Rollback(i) => RollbackKeepsSafe(s, i);
      case Void(i) => VoidKeepsSafe(s, i);
    }
  }

  lemma CloseOutKeepsSafe(s: State, h: int, n: int, still: bool)
    requires Safe(s)
    ensures Safe(Next(s, CloseOut(h, n, still)))
  {
    var s' := Next(s, CloseOut(h, n, still));
    assert Live(s') == Live(s);
    forall i | i in s'.open ensures OpenOn(s', i) && VerdictStands(s', i) {
      assert OpenOn(s, i) && VerdictStands(s, i);
    }
    forall i | i in s'.bills ensures s'.bills[i].cid < |s'.rows| && BillStands(s', i) {
      assert BillStands(s, i);
    }
  }

  /** Steps that only move one transaction along. */
  ghost predicate Moves(s: State, s': State, i: InvoiceId) {
    && s'.rows == s.rows && s'.bills == s.bills && i in s'.open
    && s'.open.Keys == s.open.Keys + {i} && i !in s.bills
    && (forall j :: j in s.open && j != i ==> s'.open[j] == s.open[j])
  }

  lemma MoveKeepsSafe(s: State, s': State, i: InvoiceId)
    requires Safe(s) && Moves(s, s', i) && LocksMatch(s') && OpenOn(s', i) && VerdictStands(s', i)
    ensures Safe(s')
  {
    assert Live(s') == Live(s);
    forall j | j in s'.open ensures OpenOn(s', j) && VerdictStands(s', j) {
      assert j != i ==> OpenOn(s, j) && VerdictStands(s, j);
    }
    forall j | j in s'.bills ensures s'.bills[j].cid < |s'.rows| && BillStands(s', j) {
      assert BillStands(s, j);
    }
  }

  lemma StartKeepsSafe(s: State, i: InvoiceId)
    requires Safe(s) && Enabled(s, Start(i))
    ensures Safe(Next(s, Start(i)))
  {
    MoveKeepsSafe(s, Next(s, Start(i)), i);
  }

  lemma ReadKeepsSafe(s: State, i: InvoiceId)
    requires Safe(s) && Enabled(s, ReadToBill(i))
    ensures Safe(Next(s, ReadToBill(i)))
  {
    assert VerdictStands(s, i);
    MoveKeepsSafe(s, Next(s, ReadToBill(i)), i);
  }

  lemma TakeLockKeepsSafe(s: State, i: InvoiceId)
    requires Safe(s) && Enabled(s, TakeLock(i))
    ensures Safe(Next(s, TakeLock(i)))
  {
    assert VerdictStands(s, i);
    MoveKeepsSafe(s, Next(s, TakeLock(i)), i);
  }

  lemma UpdateKeepsSafe(s: State, i: InvoiceId)
    requires Safe(s) && Enabled(s, Update(i))
    ensures Safe(Next(s, Update(i)))
  {
    assert VerdictStands(s, i);
    SeesTheCommitted(s, i);
    assert Live(Next(s, Update(i))) == Live(s);
    MoveKeepsSafe(s, Next(s, Update(i)), i);
  }

  lemma PriceKeepsSafe(s: State, i: InvoiceId)
    requires Safe(s) && Enabled(s, PriceLabor(i))
    ensures Safe(Next(s, PriceLabor(i)))
  {
    assert VerdictStands(s, i);
    SeesTheCommitted(s, i);
    assert Live(Next(s, PriceLabor(i))) == Live(s);
    MoveKeepsSafe(s, Next(s, PriceLabor(i)), i);
  }

  lemma RollbackKeepsSafe(s: State, i: InvoiceId)
    requires Safe(s) && Enabled(s, Rollback(i))
    ensures Safe(Next(s, Rollback(i)))
  {
    var s' := Next(s, Rollback(i));
    assert Live(s') == Live(s);
    forall j | j in s'.open ensures OpenOn(s', j) && VerdictStands(s', j) {
      assert OpenOn(s, j) && VerdictStands(s, j);
    }
    forall j | j in s'.bills ensures BillStands(s', j) {
      assert BillStands(s, j);
    }
  }

  lemma CommitKeepsSafe(s: State, i: InvoiceId)
    requires Safe(s) && Enabled(s, Commit(i))
    ensures Safe(Next(s, Commit(i)))
  {
    var s' := Next(s, Commit(i));
    CommitKeepsLocks(s, i);
    forall j | j in s'.open ensures OpenOn(s', j) && VerdictStands(s', j) {
      CommitKeepsVerdict(s, i, j);
    }
    forall j | j in s'.bills ensures s'.bills[j].cid < |s'.rows| && BillStands(s', j) {
      CommitKeepsBill(s, i, j);
    }
  }

  lemma CommitKeepsLocks(s: State, i: InvoiceId)
    requires Safe(s) && Enabled(s, Commit(i))
    ensures LocksMatch(Next(s, Commit(i)))
  {
  }

  lemma CommitKeepsVerdict(s: State, i: InvoiceId, j: InvoiceId)
    requires Safe(s) && Enabled(s, Commit(i)) && j in s.open && j != i
    ensures var s' := Next(s, Commit(i)); OpenOn(s', j) && VerdictStands(s', j)
  {
    var s' := Next(s, Commit(i));
    assert VerdictStands(s, j);
    assert Live(s') == Live(s) + {i};
    NobodyNames(s, i, s.open[j].cid);
    if HoldsLock(s.open[i].phase) && HoldsLock(s.open[j].phase) {
      assert s.open[i].cid != s.open[j].cid;
    }
  }

  lemma CommitKeepsBill(s: State, i: InvoiceId, j: InvoiceId)
    requires Safe(s) && Enabled(s, Commit(i)) && (j in s.bills || j == i)
    ensures var s' := Next(s, Commit(i)); s'.bills[j].cid < |s'.rows| && BillStands(s', j)
  {
    assert VerdictStands(s, i);
    if j != i {
      assert BillStands(s, j);
    } else {
      forall k: nat | k < |s.rows| ensures s.rows[k].billedBy != Some(i) {
        NobodyNames(s, i, k);
      }
    }
  }

  lemma VoidKeepsSafe(s: State, i: InvoiceId)
    requires Safe(s) && Enabled(s, Void(i))
    ensures Safe(Next(s, Void(i)))
  {
    var s' := Next(s, Void(i));
    forall j | j in s'.open ensures OpenOn(s', j) && VerdictStands(s', j) {
      VoidKeepsVerdict(s, i, j);
    }
    forall j | j in s'.bills ensures s'.bills[j].cid < |s'.rows| && BillStands(s', j) {
      VoidKeepsBill(s, i, j);
    }
  }

  lemma VoidKeepsVerdict(s: State, i: InvoiceId, j: InvoiceId)
    requires Safe(s) && Enabled(s, Void(i)) && j in s.open
    ensures var s' := Next(s, Void(i)); OpenOn(s', j) && VerdictStands(s', j)
  {
    var c := s.open[j].cid;
    var s' := Next(s, Void(i));
    assert OpenOn(s, j) && VerdictStands(s, j);
    assert HoldsLock(s.open[j].phase) ==> c in s.locks;
    assert s'.rows[c] == ReleaseRow(s.rows[c], i);
    assert Live(s') == Live(s) - {i};
  }

  lemma VoidKeepsBill(s: State, i: InvoiceId, j: InvoiceId)
    requires Safe(s) && Enabled(s, Void(i)) && j in s.bills
    ensures var s' := Next(s, Void(i)); j in s'.bills && s'.bills[j].cid < |s'.rows| && BillStands(s', j)
  {
    assert BillStands(s, j);
  }

  lemma {:induction false} ExecKeepsSafe(s: State, steps: seq<Step>)
    requires Safe(s)
    ensures Safe(Exec(s, steps))
    decreases |steps|
  {
    if steps != [] {
      StepKeepsSafe(s, steps[0]);
      ExecKeepsSafe(Next(s, steps[0]), steps[1..]);
    }
  }

  // ---------------------------------------------------------------------
  // One price per closeout
  // ---------------------------------------------------------------------

  predicate Prices(s: State, i: InvoiceId, c: nat) { LiveBill(s, i) && s.bills[i].cid == c && s.bills[i].hours > 0 }

  /** In every interleaving, a committed live invoice that prices a closeout holds
      its stamp exactly when it did not take the early return. */
  lemma PriceHoldsTheStamp(steps: seq<Step>, c: nat, i: InvoiceId)
    requires Prices(Exec(Idle, steps), i, c)
    ensures var s := Exec(Idle, steps);
      c < |s.rows| && (s.rows[c].billedBy == Some(i) <==> !s.bills[i].skipped)
  {
    ExecKeepsSafe(Idle, steps);
    assert BillStands(Exec(Idle, steps), i);
  }

  /** A void of an invoice stamped on a row of the run, while build `j` stands
      between its read and its price. */
  ghost predicate VoidsUnder(s: State, step: Step, j: InvoiceId) {
    && step.Void? && CanVoid(s, step.i)
    && OpenOn(s, j) && s.open[j].phase.Skipped? && s.open[j].priced.None?
    && exists k: nat :: k < |s.rows| && k in Run(s.rows, s.open[j].cid) && s.rows[k].billedBy == Some(step.i)
  }

  /** An open build that took the early return has priced nothing, and has nothing to price. */
  predicate CalmOpen(s: State, j: InvoiceId) {
    OpenOn(s, j) && s.open[j].phase.Skipped? ==>
      if s.open[j].priced.Some? then s.open[j].priced.value == 0 else ToBill(s.rows, Live(s), s.open[j].cid) == 0
  }

  /** Neither has a committed one. */
  predicate CalmBill(s: State, j: InvoiceId) { j in s.bills && s.bills[j].skipped ==> s.bills[j].hours == 0 }

  predicate Calm(s: State, j: InvoiceId) { CalmOpen(s, j) && CalmBill(s, j) }

  /** What a row of the run bills never falls, unless a void takes it. */
  lemma HeldStays(s: State, step: Step, k: nat)
    requires Safe(s) && Enabled(s, step) && k < |s.rows|
    requires step.Void? ==> s.rows[k].billedBy != Some(step.i)
    ensures k < |Next(s, step).rows| && HeldBy(s.rows[k], Live(s)) <= HeldBy(Next(s, step).rows[k], Live(Next(s, step)))
  {
    var s' := Next(s, step);
    if step.Commit? {
      assert VerdictStands(s, step.i);
      assert Live(s') == Live(s) + {step.i};
      NobodyNames(s, step.i, k);
    } else if step.Void? {
      assert Live(s') == Live(s) - {step.i};
      assert s'.rows[k] == ReleaseRow(s.rows[k], step.i);
    } else {
      assert Live(s') == Live(s);
    }
  }

  lemma LeftStays(s: State, step: Step, c: nat)
    requires Safe(s) && Enabled(s, step) && c < |s.rows|
    requires step.Void? ==> forall k: nat :: k < |s.rows| && k in Run(s.rows, c) ==> s.rows[k].billedBy != Some(step.i)
    ensures c < |Next(s, step).rows|
    ensures ToBill(Next(s, step).rows, Live(Next(s, step)), c) <= ToBill(s.rows, Live(s), c)
  {
    var s' := Next(s, step);
    StepKeepsSafe(s, step);
    RunStays(s, step, c);
    RunShape(s.rows, c);
    forall m: nat | m < |Run(s.rows, c)|
      ensures HeldBy(s.rows[Run(s.rows, c)[m]], Live(s)) <= HeldBy(s'.rows[Run(s.rows, c)[m]], Live(s'))
    {
      assert Run(s.rows, c)[m] in Run(s.rows, c);
      HeldStays(s, step, Run(s.rows, c)[m]);
    }
    HeldShrinks(s'.rows, Live(s'), s.rows, Live(s), Run(s.rows, c));
  }

  /** Rows are only ever added, and their attestations and links never change. */
  lemma RunStays(s: State, step: Step, c: nat)
    requires Safe(s) && Safe(Next(s, step)) && c < |s.rows|
    ensures c < |Next(s, step).rows| && Run(Next(s, step).rows, c) == Run(s.rows, c)
    ensures ManHours(Next(s, step).rows[c]) == ManHours(s.rows[c])
  {
    if Enabled(s, step) && step.CloseOut? {
      RunOfPrefix(s.rows, NextRow(s.rows, step.hoursWorked, step.techsOnSite, step.stillCompleted), c);
    } else {
      RunFromFrame(s.rows, Next(s, step).rows, c, {});
    }
  }

  lemma CalmStep(s: State, step: Step, j: InvoiceId)
    requires Safe(s) && Calm(s, j) && !VoidsUnder(s, step, j)
    ensures Calm(Next(s, step), j)
  {
    if Enabled(s, step) {
      CalmBillStep(s, step, j);
      if OpenOn(s, j) && s.open[j].phase.Skipped? && s.open[j].priced.None? {
        CalmSkipped(s, step, j);
      } else {
        CalmOtherwise(s, step, j);
      }
    }
  }

  lemma CalmBillStep(s: State, step: Step, j: InvoiceId)
    requires Safe(s) && Calm(s, j) && Enabled(s, step)
    ensures CalmBill(Next(s, step), j)
  {
  }

  lemma CalmSkipped(s: State, step: Step, j: InvoiceId)
    requires Safe(s) && Calm(s, j) && Enabled(s, step) && !VoidsUnder(s, step, j)
    requires OpenOn(s, j) && s.open[j].phase.Skipped? && s.open[j].priced.None?
    ensures CalmOpen(Next(s, step), j)
  {
    SeesTheCommitted(s, j);
    LeftStays(s, step, s.open[j].cid);
  }

  lemma CalmOtherwise(s: State, step: Step, j: InvoiceId)
    requires Safe(s) && Calm(s, j) && Enabled(s, step)
    requires !(OpenOn(s, j) && s.open[j].phase.Skipped? && s.open[j].priced.None?)
    ensures CalmOpen(Next(s, step), j)
  {
    if step == ReadToBill(j) {
      SeesTheCommitted(s, j);
      assert Live(Next(s, step)) == Live(s);
    }
  }

  lemma {:induction false} ExecSnoc(s: State, steps: seq<Step>, step: Step)
    ensures Exec(s, steps + [step]) == Next(Exec(s, steps), step)
    decreases |steps|
  {
    if steps == [] {
      assert [step][1..] == [];
    } else {
      assert (steps + [step])[1..] == steps[1..] + [step];
      ExecSnoc(Next(s, steps[0]), steps[1..], step);
    }
  }

  /** Step `m` of the history is a void under build `j`, which builds closeout `c`. */
  ghost predicate WindowVoid(steps: seq<Step>, m: nat, j: InvoiceId, c: nat) {
    && m < |steps| && VoidsUnder(Exec(Idle, steps[..m]), steps[m], j)
    && Exec(Idle, steps[..m]).open[j].cid == c
  }

  function CidOf(s: State, j: InvoiceId): Option<nat> {
    if j in s.open then Some(s.open[j].cid) else if j in s.bills then Some(s.bills[j].cid) else None
  }

  lemma UneasyKeepsItsCid(s: State, step: Step, j: InvoiceId)
    requires Safe(s) && !Calm(s, j) && !Calm(Next(s, step), j)
    ensures CidOf(Next(s, step), j) == CidOf(s, j)
  {
  }

  lemma {:induction false} LostCalm(steps: seq<Step>, j: InvoiceId) returns (m: nat)
    requires !Calm(Exec(Idle, steps), j)
    ensures CidOf(Exec(Idle, steps), j).Some? && WindowVoid(steps, m, j, CidOf(Exec(Idle, steps), j).value)
    ensures CidOf(Exec(Idle, steps), j).value < |Exec(Idle, steps[..m]).rows|
    ensures var c := CidOf(Exec(Idle, steps), j).value;
      c < |Exec(Idle, steps).rows| && Run(Exec(Idle, steps).rows, c) == Run(Exec(Idle, steps[..m]).rows, c)
    decreases |steps|
  {
    var n := |steps| - 1;
    var before, step := steps[..n], steps[n];
    var s := Exec(Idle, before);
    assert steps == before + [step];
    ExecSnoc(Idle, before, step);
    ExecKeepsSafe(Idle, before);
    StepKeepsSafe(s, step);
    if Calm(s, j) {
      CalmStepMeetsAVoid(s, step, j);
      m := n;
    } else {
      m := LostCalm(before, j);
      UneasyKeepsItsCid(s, step, j);
      assert before[..m] == steps[..m];
    }
    RunStays(s, step, CidOf(s, j).value);
  }

  lemma CalmStepMeetsAVoid(s: State, step: Step, j: InvoiceId)
    requires Safe(s) && Calm(s, j) && !Calm(Next(s, step), j)
    ensures VoidsUnder(s, step, j) && j in Next(s, step).open && Next(s, step).open[j] == s.open[j]
  {
    if !VoidsUnder(s, step, j) {
      CalmStep(s, step, j);
    }
  }

  /** In every interleaving, a build that took the early return prices hours only if
      an invoice stamped on a row of its run was voided between its read and its price. */
  lemma SkippedPriceNeedsAVoid(steps: seq<Step>, i: InvoiceId)
    requires var s := Exec(Idle, steps); i in s.bills && s.bills[i].skipped && s.bills[i].hours > 0
    ensures exists m :: WindowVoid(steps, m, i, Exec(Idle, steps).bills[i].cid)
  {
    ExecKeepsSafe(Idle, steps);
    var m := LostCalm(steps, i);
  }

  /** So two live invoices price one closeout only around such a void. */
  lemma PricedOncePerCloseout(steps: seq<Step>, c: nat, i: InvoiceId, j: InvoiceId)
    requires var s := Exec(Idle, steps); Prices(s, i, c) && Prices(s, j, c) && i != j
    ensures exists m, k :: (k == i || k == j) && WindowVoid(steps, m, k, c)
  {
    var s := Exec(Idle, steps);
    PriceHoldsTheStamp(steps, c, i);
    PriceHoldsTheStamp(steps, c, j);
    SkippedPriceNeedsAVoid(steps, if s.bills[i].skipped then i else j);
  }

  /** While nothing is voided, no two invoices price the same closeout row. */
  lemma BuildsAlonePriceARowOnce(steps: seq<Step>, c: nat, i: InvoiceId, j: InvoiceId)
    requires forall m: nat :: m < |steps| ==> !steps[m].Void?
    requires var s := Exec(Idle, steps); Prices(s, i, c) && Prices(s, j, c)
    ensures i == j
  {
    if i != j {
      PricedOncePerCloseout(steps, c, i, j);
    }
  }

  /** With voids anywhere, a closeout that restates nothing is priced by at most one
      live invoice. */
  lemma FreshCloseoutPricedOnce(steps: seq<Step>, c: nat, i: InvoiceId, j: InvoiceId)
    requires var s := Exec(Idle, steps); Prices(s, i, c) && Prices(s, j, c)
    requires var s := Exec(Idle, steps); c < |s.rows| && Run(s.rows, c) == []
    ensures i == j
  {
    if i != j {
      var s := Exec(Idle, steps);
      ExecKeepsSafe(Idle, steps);
      PriceHoldsTheStamp(steps, c, i);
      PriceHoldsTheStamp(steps, c, j);
      var m := LostCalm(steps, if s.bills[i].skipped then i else j);
    }
  }

  // ---------------------------------------------------------------------
  // One build, run on its own from any reachable state
  // ---------------------------------------------------------------------

  lemma {:induction false} ExecConcat(s: State, a: seq<Step>, b: seq<Step>)
    ensures Exec(s, a + b) == Exec(Exec(s, a), b)
    decreases |a|
  {
    if a == [] {
      assert a + b == b;
    } else {
      assert (a + b)[1..] == a[1..] + b;
      ExecConcat(Next(s, a[0]), a[1..], b);
    }
  }

  lemma ExecTwo(s: State, a: Step, b: Step)
    ensures Exec(s, [a, b]) == Next(Next(s, a), b)
  {
    ExecSnoc(s, [], a);
    ExecSnoc(s, [a], b);
    assert [] + [a] == [a] && [a] + [b] == [a, b];
    assert Exec(s, []) == s;
  }

  function Left(s: State, c: nat): nat
    requires c < |s.rows|
  {
    ToBill(s.rows, Live(s), c)
  }

  function Opening(i: InvoiceId): seq<Step> { [Start(i), ReadToBill(i)] }

  function Stamping(i: InvoiceId): seq<Step> { [TakeLock(i), Update(i)] }

  function Closing(i: InvoiceId): seq<Step> { [PriceLabor(i), Commit(i)] }

  function Finishing(i: InvoiceId): seq<Step> { Stamping(i) + Closing(i) }

  function AfterRead(left: nat): Phase { if left > 0 then Waiting(left) else Skipped }

  function Opened(s: State, i: InvoiceId, t: Txn): State { s.(open := s.open[i := t]) }

  lemma OpeningIs(s: State, i: InvoiceId)
    requires Safe(s) && Enabled(s, Start(i))
    ensures var c := |s.rows| - 1; Exec(s, Opening(i)) == Opened(s, i, Txn(c, AfterRead(Left(s, c)), None))
  {
    StartReadsLeft(s, i);
    StartThenRead(s, i, Left(s, |s.rows| - 1));
  }

  lemma StartReadsLeft(s: State, i: InvoiceId)
    requires Safe(s) && Enabled(s, Start(i))
    ensures SeenToBill(Opened(s, i, Txn(|s.rows| - 1, Building, None)), i) == Left(s, |s.rows| - 1)
  {
    var s1 := Opened(s, i, Txn(|s.rows| - 1, Building, None));
    StartKeepsSafe(s, i);
    SeesTheCommitted(s1, i);
    assert Live(s1) == Live(s);
  }

  lemma StartThenRead(s: State, i: InvoiceId, left: nat)
    requires Enabled(s, Start(i)) && SeenToBill(Opened(s, i, Txn(|s.rows| - 1, Building, None)), i) == left
    ensures Exec(s, Opening(i)) == Opened(s, i, Txn(|s.rows| - 1, AfterRead(left), None))
  {
    ExecTwo(s, Start(i), ReadToBill(i));
  }

  /** What the labor of a build that has its verdict comes to. */
  function PriceNow(s: State, i: InvoiceId): nat
    requires OpenOn(s, i)
  {
    if s.open[i].phase.Claiming? || Free(s, s.open[i].cid) then Left(s, s.open[i].cid) else 0
  }

  function Closed(s: State, i: InvoiceId, hours: nat): State
    requires OpenOn(s, i)
  {
    State(SeenRows(s, i), s.open - {i}, Unlock(s.locks, i),
          s.bills[i := Bill(s.open[i].cid, hours, true, s.open[i].phase.Skipped?)])
  }

  lemma ClosingIs(s: State, i: InvoiceId)
    requires Safe(s) && i in s.open && s.open[i].priced.None? && Ready(s.open[i])
    ensures Exec(s, Closing(i)) == Closed(s, i, PriceNow(s, i))
  {
    SeesTheCommitted(s, i);
    PriceThenCommit(s, i, PriceNow(s, i));
  }

  lemma PriceThenCommit(s: State, i: InvoiceId, hours: nat)
    requires OpenOn(s, i) && s.open[i].priced.None? && Ready(s.open[i])
    requires hours == if HeldByOther(s, i) then 0 else SeenToBill(s, i)
    ensures Exec(s, Closing(i)) == Closed(s, i, hours)
  {
    ExecTwo(s, PriceLabor(i), Commit(i));
    var s1 := Next(s, PriceLabor(i));
    assert s1 == Opened(s, i, s.open[i].(priced := Some(hours)));
    assert s1.open - {i} == s.open - {i};
  }

  /** Build `i` waits for the lock of a free row nobody has locked. */
  predicate CanFinish(s: State, i: InvoiceId) {
    && OpenOn(s, i) && s.open[i].phase.Waiting? && s.open[i].priced.None?
    && s.open[i].cid !in s.locks && Free(s, s.open[i].cid)
  }

  lemma StampingIs(s: State, i: InvoiceId)
    requires Safe(s) && CanFinish(s, i)
    ensures Exec(s, Stamping(i)) == Opened(Locking(s, i), i, s.open[i].(phase := Claiming(s.open[i].phase.toBill)))
  {
    TakeLockKeepsSafe(s, i);
    assert Live(Locking(s, i)) == Live(s);
    SeesTheCommitted(Locking(s, i), i);
    LockThenUpdate(s, i);
  }

  function Locking(s: State, i: InvoiceId): State
    requires OpenOn(s, i) && s.open[i].phase.Waiting?
  {
    Opened(s, i, s.open[i].(phase := Locked(s.open[i].phase.toBill))).(locks := s.locks[s.open[i].cid := i])
  }

  lemma LockThenUpdate(s: State, i: InvoiceId)
    requires CanFinish(s, i) && !HeldByOther(Locking(s, i), i)
    ensures Exec(s, Stamping(i)) == Opened(Locking(s, i), i, s.open[i].(phase := Claiming(s.open[i].phase.toBill)))
  {
    ExecTwo(s, TakeLock(i), Update(i));
    assert Next(s, TakeLock(i)) == Locking(s, i);
  }

  /** A build that finishes undisturbed stamps what it read and prices what is left now. */
  lemma FinishingIs(s: State, i: InvoiceId)
    requires Safe(s) && CanFinish(s, i)
    ensures var t := s.open[i];
      Exec(s, Finishing(i)) == State(Stamped(s.rows, t.cid, i, t.phase.toBill), s.open - {i}, s.locks,
                                     s.bills[i := Bill(t.cid, Left(s, t.cid), true, false)])
  {
    var s1 := Exec(s, Stamping(i));
    StampingIs(s, i);
    ExecKeepsSafe(s, Stamping(i));
    ClosingIs(s1, i);
    assert Live(s1) == Live(s);
    ClosedAfterStamping(s, i, Left(s, s.open[i].cid));
    ExecConcat(s, Stamping(i), Closing(i));
  }

  lemma ClosedAfterStamping(s: State, i: InvoiceId, hours: nat)
    requires LocksMatch(s) && CanFinish(s, i)
    ensures var t := s.open[i];
      Closed(Opened(Locking(s, i), i, t.(phase := Claiming(t.phase.toBill))), i, hours)
      == State(Stamped(s.rows, t.cid, i, t.phase.toBill), s.open - {i}, s.locks,
               s.bills[i := Bill(t.cid, hours, true, false)])
  {
    var t := s.open[i];
    var locked, claiming := t.(phase := Locked(t.phase.toBill)), t.(phase := Claiming(t.phase.toBill));
    assert s.open[i := locked][i := claiming] - {i} == s.open - {i};
    assert Unlock(s.locks[t.cid := i], i) == s.locks;
  }

  /** A rolled-back build leaves nothing behind: no row, invoice or lock of its own. */
  lemma RollbackLeavesNoTrace(s: State, i: InvoiceId)
    requires i in s.open
    ensures var s' := Next(s, Rollback(i));
      && s'.rows == s.rows && s'.bills == s.bills && i !in s'.open && (forall c :: c in s'.locks ==> s'.locks[c] != i)
      && (forall j :: j in s.open && j != i ==> j in s'.open && s'.open[j] == s.open[j])
      && (forall c :: c in s.locks && s.locks[c] != i ==> c in s'.locks && s'.locks[c] == s.locks[c])
  {
  }

  // ---------------------------------------------------------------------
  // A void in the window
  // ---------------------------------------------------------------------

  /** A build with a void between its read and its price. */
  function WindowSteps(i: InvoiceId, v: InvoiceId): seq<Step> { Opening(i) + [Void(v)] + Closing(i) }

  lemma VoidPassesBy(s: State, i: InvoiceId, t: Txn, v: InvoiceId)
    requires CanVoid(s, v)
    ensures Next(Opened(s, i, t), Void(v)) == Opened(Next(s, Void(v)), i, t)
  {
    assert CanVoid(Opened(s, i, t), v);
  }

  lemma WindowOpens(s: State, i: InvoiceId, v: InvoiceId)
    requires Safe(s) && Enabled(s, Start(i)) && CanVoid(s, v)
    ensures var c := |s.rows| - 1;
      Exec(s, Opening(i) + [Void(v)]) == Opened(Next(s, Void(v)), i, Txn(c, AfterRead(Left(s, c)), None))
  {
    var t := Txn(|s.rows| - 1, AfterRead(Left(s, |s.rows| - 1)), None);
    ExecSnoc(s, Opening(i), Void(v));
    OpeningIs(s, i);
    VoidPassesBy(s, i, t, v);
  }

  /** Whether a build that was read as `AfterRead` says prices hours it never stamped. */
  lemma WindowCloses(s: State, i: InvoiceId)
    requires Safe(s) && i in s.open && s.open[i].priced.None? && (s.open[i].phase.Skipped? || s.open[i].phase.Waiting?)
    ensures var c := s.open[i].cid; var done := Exec(s, Closing(i));
      Prices(done, i, c) && done.bills[i].skipped <==> s.open[i].phase.Skipped? && Free(s, c) && Left(s, c) > 0
  {
    if s.open[i].phase.Skipped? {
      ClosingIs(s, i);
    } else {
      ExecTwo(s, PriceLabor(i), Commit(i));
      assert i !in s.bills;
    }
  }

  /** From every reachable state, such a build prices hours it never stamped exactly
      when nothing was left to bill, the row is free and the void leaves the run
      holding less than the closeout attests. */
  lemma WindowPricesIff(s: State, i: InvoiceId, v: InvoiceId)
    requires Safe(s) && Enabled(s, Start(i)) && CanVoid(s, v)
    ensures var c := |s.rows| - 1; var done := Exec(s, WindowSteps(i, v)); var voided := Next(s, Void(v));
      && |voided.rows| == |s.rows|
      && (Prices(done, i, c) && done.bills[i].skipped <==> Left(s, c) == 0 && Free(voided, c) && Left(voided, c) > 0)
  {
    var s2 := Exec(s, Opening(i) + [Void(v)]);
    InTheWindow(s, i, v);
    WindowCloses(s2, i);
    ExecConcat(s, Opening(i) + [Void(v)], Closing(i));
  }

  lemma InTheWindow(s: State, i: InvoiceId, v: InvoiceId)
    requires Safe(s) && Enabled(s, Start(i)) && CanVoid(s, v)
    ensures var s2 := Exec(s, Opening(i) + [Void(v)]); var voided := Next(s, Void(v)); var c := |s.rows| - 1;
      && Safe(s2) && |s2.rows| == |s.rows| == |voided.rows| && s2.locks == s.locks && s2.bills.Keys == s.bills.Keys
      && s2.open == s.open[i := Txn(c, AfterRead(Left(s, c)), None)]
      && (Free(s2, c) <==> Free(voided, c)) && Left(s2, c) == Left(voided, c)
  {
    ExecKeepsSafe(s, Opening(i) + [Void(v)]);
    WindowOpens(s, i, v);
    assert Live(Exec(s, Opening(i) + [Void(v)])) == Live(Next(s, Void(v)));
  }

  /** An invoice that prices a closeout it does not hold is open to a second price:
      from every reachable state where that row is current, free, unlocked and has
      hours left, the next build claims and prices them again. */
  lemma UnheldHoursArePricedAgain(s: State, i: InvoiceId, j: InvoiceId)
    requires Safe(s) && Enabled(s, Start(j)) && Prices(s, i, |s.rows| - 1)
    requires var c := |s.rows| - 1; Free(s, c) && c !in s.locks && Left(s, c) > 0
    ensures var c := |s.rows| - 1; var done := Exec(s, Opening(j) + Finishing(j));
      i != j && Prices(done, i, c) && Prices(done, j, c)
  {
    ExecConcat(s, Opening(j), Finishing(j));
    OpeningIs(s, j);
    var s1 := Exec(s, Opening(j));
    ExecKeepsSafe(s, Opening(j));
    assert Live(s1) == Live(s);
    FinishingIs(s1, j);
  }

  /** Committing an invoice that stamped nothing changes nothing anyone else reads. */
  lemma UnstampedCommitChangesNoRead(s: State, i: InvoiceId, hours: nat)
    requires Safe(s) && i in s.open && s.open[i].phase.Skipped?
    ensures var c := s.open[i].cid; var done := Closed(s, i, hours);
      done.rows == s.rows && (Free(done, c) <==> Free(s, c)) && Left(done, c) == Left(s, c)
  {
    SeesTheCommitted(s, i);
    assert Live(Closed(s, i, hours)) == Live(s) + {i};
  }

  /** A skipped build that prices hours, and the build after it. */
  lemma SkippedThenAnother(s: State, i: InvoiceId, j: InvoiceId)
    requires Safe(s) && OpenOn(s, i) && s.open[i].phase.Skipped? && s.open[i].priced.None? && i != j
    requires Enabled(s, Start(j)) && s.open[i].cid == |s.rows| - 1 && s.open[i].cid !in s.locks
    requires Free(s, s.open[i].cid) && Left(s, s.open[i].cid) > 0
    ensures var done := Exec(s, Closing(i) + (Opening(j) + Finishing(j)));
      Prices(done, i, |s.rows| - 1) && Prices(done, j, |s.rows| - 1)
  {
    var mid := Closed(s, i, PriceNow(s, i));
    AfterASkippedPrice(s, i, j);
    UnheldHoursArePricedAgain(mid, i, j);
    ExecConcat(s, Closing(i), Opening(j) + Finishing(j));
    ClosingIs(s, i);
  }

  lemma AfterASkippedPrice(s: State, i: InvoiceId, j: InvoiceId)
    requires Safe(s) && OpenOn(s, i) && s.open[i].phase.Skipped? && s.open[i].priced.None? && i != j
    requires Enabled(s, Start(j)) && s.open[i].cid == |s.rows| - 1 && s.open[i].cid !in s.locks
    requires Free(s, s.open[i].cid) && Left(s, s.open[i].cid) > 0
    ensures var mid := Closed(s, i, PriceNow(s, i)); var c := |s.rows| - 1;
      && Safe(mid) && Enabled(mid, Start(j)) && mid.rows == s.rows
      && Prices(mid, i, c) && Free(mid, c) && c !in mid.locks && Left(mid, c) > 0
  {
    UnstampedCommitChangesNoRead(s, i, PriceNow(s, i));
    ClosingIs(s, i);
    ExecKeepsSafe(s, Closing(i));
  }

  /** So wherever the window prices hours, the next build prices them a second time. */
  lemma VoidInTheWindowDoubleBills(s: State, i: InvoiceId, v: InvoiceId, j: InvoiceId)
    requires Safe(s) && Enabled(s, Start(i)) && CanVoid(s, v) && Enabled(s, Start(j)) && i != j
    requires var c := |s.rows| - 1; var voided := Next(s, Void(v));
      c !in s.locks && Left(s, c) == 0 && Free(voided, c) && Left(voided, c) > 0
    ensures var c := |s.rows| - 1; var done := Exec(s, WindowSteps(i, v) + (Opening(j) + Finishing(j)));
      Prices(done, i, c) && Prices(done, j, c)
  {
    var head, tail := Opening(i) + [Void(v)], Opening(j) + Finishing(j);
    InTheWindow(s, i, v);
    SkippedThenAnother(Exec(s, head), i, j);
    ExecConcat(s, head, Closing(i) + tail);
    assert WindowSteps(i, v) + tail == head + (Closing(i) + tail);
  }

  // Two hours billed by invoice 10 and restated at two hours.
  const BilledRow := Closeout(200, 1, None, false, Some(10), Some(4))
  const RestatedRow := Closeout(200, 1, Some(0), true, None, None)
  const BilledAndRestated := State([BilledRow, RestatedRow], map[], map[], map[10 := Bill(0, 4, true, false)])

  function BilledAndRestatedSteps(): seq<Step> {
    [CloseOut(200, 1, false)] + (Opening(10) + Finishing(10)) + [CloseOut(200, 1, true)]
  }

  const FirstRow := State([Closeout(200, 1, None, false, None, None)], map[], map[], map[])

  lemma FirstRowIsReachable()
    ensures Exec(Idle, [CloseOut(200, 1, false)]) == FirstRow && Safe(FirstRow)
  {
    var first := CloseOut(200, 1, false);
    ExecSnoc(Idle, [], first);
    assert [] + [first] == [first] && Exec(Idle, []) == Idle;
    ExecKeepsSafe(Idle, [first]);
  }

  lemma FirstRowIsBilled()
    ensures Exec(FirstRow, Opening(10) + Finishing(10))
         == State([BilledRow], map[], map[], map[10 := Bill(0, 4, true, false)])
  {
    FirstRowIsReachable();
    LoneRow(FirstRow);
    OpeningIs(FirstRow, 10);
    var s1 := Exec(FirstRow, Opening(10));
    ExecKeepsSafe(FirstRow, Opening(10));
    LoneRow(s1);
    FinishingIs(s1, 10);
    ExecConcat(FirstRow, Opening(10), Finishing(10));
    assert s1.open - {10} == map[];
  }

  lemma BilledAndRestatedIsReachable()
    ensures Exec(Idle, BilledAndRestatedSteps()) == BilledAndRestated
  {
    var first := [CloseOut(200, 1, false)];
    FirstRowIsReachable();
    FirstRowIsBilled();
    ExecConcat(Idle, first, Opening(10) + Finishing(10));
    ExecSnoc(Idle, first + (Opening(10) + Finishing(10)), CloseOut(200, 1, true));
  }

  lemma LoneRow(s: State)
    requires s.rows == [Closeout(200, 1, None, false, None, None)]
    ensures Free(s, 0) && Left(s, 0) == 4
  {
    assert Run(s.rows, 0) == [];
  }

  lemma RestatedLeft(t: seq<Closeout>, live: set<InvoiceId>)
    requires |t| == 2 && t[0].(billedBy := None) == BilledRow.(billedBy := None) && t[1] == RestatedRow
    ensures ToBill(t, live, 1) == if Holder(t[0], live).Some? then 0 else 4
  {
    assert Run(t, 1) == [0] by {
      assert RunFrom(t, 0, {0}) == [] && {} + {0} == {0};
    }
    assert Held(t, live, [0]) == HeldBy(t[0], live) + Held(t, live, []);
  }

  /** Such a state is reachable: 2 h billed and restated at 2 h, the invoice voided
      while a second build stands between its read and its price, and a third build
      bills the hours again. */
  lemma VoidBetweenReadAndPriceDoubleBills()
    ensures var steps := BilledAndRestatedSteps() + (WindowSteps(11, 10) + (Opening(12) + Finishing(12)));
      Prices(Exec(Idle, steps), 11, 1) && Prices(Exec(Idle, steps), 12, 1)
  {
    BilledAndRestatedIsReachable();
    OpenToAWindow();
    VoidInTheWindowDoubleBills(BilledAndRestated, 11, 10, 12);
    ExecConcat(Idle, BilledAndRestatedSteps(), WindowSteps(11, 10) + (Opening(12) + Finishing(12)));
  }

  lemma OpenToAWindow()
    ensures var s := BilledAndRestated; var voided := Next(s, Void(10));
      Safe(s) && CanVoid(s, 10) && |voided.rows| == 2 && Left(s, 1) == 0 && Free(voided, 1) && Left(voided, 1) == 4
  {
    BilledAndRestatedIsReachable();
    ExecKeepsSafe(Idle, BilledAndRestatedSteps());
    RestatedLeft(BilledAndRestated.rows, Live(BilledAndRestated));
    FirstInvoiceVoided();
    RestatedLeft(VoidedAndRestated.rows, Live(VoidedAndRestated));
  }

  const VoidedAndRestated :=
    State([BilledRow.(billedBy := None), RestatedRow], map[], map[], map[10 := Bill(0, 4, false, false)])

  lemma FirstInvoiceVoided()
    ensures CanVoid(BilledAndRestated, 10) && Next(BilledAndRestated, Void(10)) == VoidedAndRestated
  {
    assert Release(BilledAndRestated.rows, 10) == VoidedAndRestated.rows;
  }
}
