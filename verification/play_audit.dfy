/** Optional audit work inside a business transaction, isolated by a savepoint. */
module PlayAudit {
  import opened Common

  /** The note that audit history is missing from a first to a last month. */
  datatype Gap = Gap(serverId: Option<string>, firstYear: Option<int>, firstMonth: Option<int>, lastYear: int, lastMonth: int)

  datatype World = World(serverId: Option<string>, year: int, month: int, gap: Option<Gap>)

  /** What the transaction can see and a rollback restores; timeouts are in milliseconds, 0 is none. */
  datatype Tx = Tx(data: map<string, string>, world: Option<World>, statementTimeout: nat, lockTimeout: nat)

  datatype Op =
    | Write(key: string, value: string)
    | SetTimeouts(statement: nat, lock: nat)
    | SqlError(swallowed: bool)        // poisons the transaction; the audit code may catch the error
    | Throw                            // an error outside SQL

  /** One step of the audit work and the time it takes. */
  datatype Step = Step(op: Op, takes: nat)

  const BUDGET: nat := 1000

  function Bound(current: nat, cap: nat): nat {
    if current == 0 then cap else Min(current, cap)
  }

  /** Audit work never waits longer than the caller allowed, nor longer than its own cap. */
  lemma BoundTightens(current: nat, cap: nat)
    requires cap >= 1
    ensures 1 <= Bound(current, cap) <= cap && (current != 0 ==> Bound(current, cap) <= current)
    ensures Bound(Bound(current, cap), cap) == Bound(current, cap)
  {
  }

  function Bounded(tx: Tx): Tx {
    tx.(statementTimeout := Bound(tx.statementTimeout, 1000), lockTimeout := Bound(tx.lockTimeout, 250))
  }

  /** The audit work as its caller sees it: the state it leaves, whether it threw, whether the
      transaction is poisoned, and the time it took. */
  datatype Ran = Ran(tx: Tx, ok: bool, poisoned: bool, elapsed: nat)

  function RunStep(r: Ran, s: Step): Ran {
    var later := r.elapsed + s.takes;
    if !r.ok then r
    else match s.op
      case Throw => r.(ok := false, elapsed := later)
      case SqlError(swallowed) =>
        if r.elapsed >= BUDGET then r.(ok := swallowed) else r.(ok := swallowed, poisoned := true, elapsed := later)
      case Write(k, v) =>
        if r.elapsed >= BUDGET then r.(ok := false)
        else if r.poisoned then r.(ok := false, elapsed := later)
        else Ran(r.tx.(data := r.tx.data[k := v]), later < BUDGET, false, later)
      case SetTimeouts(st, lock) =>
        if r.elapsed >= BUDGET then r.(ok := false)
        else if r.poisoned then r.(ok := false, elapsed := later)
        else Ran(r.tx.(statementTimeout := st, lockTimeout := lock), later < BUDGET, false, later)
  }

  function RunWork(tx: Tx, work: seq<Step>): Ran {
    if work == [] then Ran(tx, true, false, 0) else RunStep(RunWork(tx, work[..|work| - 1]), work[|work| - 1])
  }

  predicate SetsNoTimeouts(work: seq<Step>) {
    forall i :: 0 <= i < |work| ==> !work[i].op.SetTimeouts?
  }

  /** Within the caller's limit, where there is one, and within the cap. */
  predicate Tight(timeout: nat, caller: nat, cap: nat) {
    1 <= timeout <= cap && (caller != 0 ==> timeout <= caller)
  }

  /** Every statement of audit work that leaves the timeouts alone runs within the caller's limits
      and within the audit's own. */
  lemma {:induction false} TimeoutsStayTight(tx: Tx, work: seq<Step>)
    requires SetsNoTimeouts(work)
    ensures var now := RunWork(Bounded(tx), work).tx;
      Tight(now.statementTimeout, tx.statementTimeout, 1000) && Tight(now.lockTimeout, tx.lockTimeout, 250)
  {
    BoundTightens(tx.statementTimeout, 1000);
    BoundTightens(tx.lockTimeout, 250);
    if work != [] {
      TimeoutsStayTight(tx, work[..|work| - 1]);
    }
  }

  /** The work counts only if nothing threw, no SQL error is pending and the budget was kept. */
  predicate WorkSucceeds(tx: Tx, work: seq<Step>) {
    Good(RunWork(Bounded(tx), work))
  }

  // ---- the gap record ----

  function RecordGap(w: World): World {
    var same := w.gap.Some? && w.gap.value.serverId.Some? && w.gap.value.serverId == w.serverId;
    w.(gap := Some(Gap(w.serverId,
                       if same && w.gap.value.firstYear.Some? then w.gap.value.firstYear else Some(w.year),
                       if same && w.gap.value.firstMonth.Some? then w.gap.value.firstMonth else Some(w.month),
                       w.year, w.month)))
  }

  datatype Month = Month(year: int, month: int)

  /** The world after a failure in each of these months. */
  function AfterFailures(w: World, months: seq<Month>): World {
    if months == [] then w else
      var m := months[|months| - 1];
      RecordGap(AfterFailures(w, months[..|months| - 1]).(year := m.year, month := m.month))
  }

  /** Within one season the record holds the first and the latest failing month. */
  lemma {:induction false} GapSpansFailures(w: World, months: seq<Month>)
    requires months != [] && w.serverId.Some?
    requires w.gap.None? || w.gap.value.serverId != w.serverId
    ensures var after := AfterFailures(w, months);
      && after.serverId == w.serverId
      && after.gap == Some(Gap(w.serverId, Some(months[0].year), Some(months[0].month),
                               months[|months| - 1].year, months[|months| - 1].month))
  {
    if |months| > 1 {
      GapSpansFailures(w, months[..|months| - 1]);
    } else {
      assert months[..0] == [];
    }
  }

  /** A record of the same season that is already there keeps its first month. */
  lemma {:induction false} GapKeepsFirst(w: World, months: seq<Month>)
    requires w.serverId.Some? && w.gap.Some? && w.gap.value.serverId == w.serverId
    requires w.gap.value.firstYear.Some? && w.gap.value.firstMonth.Some?
    ensures var after := AfterFailures(w, months);
      && after.serverId == w.serverId && after.gap.Some?
      && after.gap.value.serverId == w.serverId
      && after.gap.value.firstYear == w.gap.value.firstYear && after.gap.value.firstMonth == w.gap.value.firstMonth
  {
    if months != [] {
      GapKeepsFirst(w, months[..|months| - 1]);
    }
  }

  /** Without a server id the record cannot be matched, so its first month is always the latest. */
  lemma {:induction false} AnonymousGapIsLatest(w: World, months: seq<Month>)
    requires months != [] && w.serverId.None?
    ensures var last := months[|months| - 1];
      AfterFailures(w, months).serverId.None?
      && AfterFailures(w, months).gap == Some(Gap(None, Some(last.year), Some(last.month), last.year, last.month))
  {
    if |months| > 1 {
      AnonymousGapIsLatest(w, months[..|months| - 1]);
    } else {
      assert months[..0] == [];
    }
  }

  // ---- the savepoint ----

  class Session {
    var tx: Tx
    var poisoned: bool
    var saved: seq<Tx>

    constructor (tx0: Tx)
      ensures tx == tx0 && !poisoned && saved == []
    {
      tx, poisoned, saved := tx0, false, [];
    }

    method Savepoint()
      requires !poisoned
      modifies this`saved
      ensures saved == old(saved) + [tx]
    {
      saved := saved + [tx];
    }

    method RollbackTo()
      requires saved != []
      modifies this`tx, this`poisoned
      ensures tx == saved[|saved| - 1] && !poisoned
    {
      tx, poisoned := saved[|saved| - 1], false;
    }

    method ReleaseSavepoint()
      requires saved != [] && !poisoned
      modifies this`saved
      ensures saved == old(saved)[..|old(saved)| - 1]
    {
      saved := saved[..|saved| - 1];
    }

    /** A settings query fails on a poisoned transaction. */
    method SetConfig(statement: nat, lock: nat) returns (ok: bool)
      modifies this`tx
      ensures ok <==> !poisoned
      ensures tx == if ok then old(tx).(statementTimeout := statement, lockTimeout := lock) else old(tx)
    {
      ok := !poisoned;
      if ok { tx := tx.(statementTimeout := statement, lockTimeout := lock); }
    }

    /** Runs the audit steps until one throws, checking the budget around each database call. */
    method Collect(work: seq<Step>) returns (ok: bool, elapsed: nat)
      requires !poisoned
      modifies this`tx, this`poisoned
      ensures Ran(tx, ok, poisoned, elapsed) == RunWork(old(tx), work)
    {
      ok, elapsed := true, 0;
      for i := 0 to |work|
        invariant Ran(tx, ok, poisoned, elapsed) == RunWork(old(tx), work[..i])
      {
        assert work[..i + 1][..i] == work[..i];
        if ok {
          var s := work[i];
          match s.op
          case Throw =>
            ok, elapsed := false, elapsed + s.takes;
          case SqlError(swallowed) =>
            if elapsed < BUDGET { poisoned, elapsed := true, elapsed + s.takes; }
            ok := swallowed;
          case Write(k, v) =>
            if elapsed >= BUDGET {
              ok := false;
            } else {
              ok, elapsed := !poisoned && elapsed + s.takes < BUDGET, elapsed + s.takes;
              if !poisoned { tx := tx.(data := tx.data[k := v]); }
            }
          case SetTimeouts(st, lock) =>
            if elapsed >= BUDGET {
              ok := false;
            } else {
              ok, elapsed := !poisoned && elapsed + s.takes < BUDGET, elapsed + s.takes;
              if !poisoned { tx := tx.(statementTimeout := st, lockTimeout := lock); }
            }
        }
      }
      assert work[..|work|] == work;
    }

    /** Nothing of a failed audit survives except the gap record, and either way the caller's
        timeouts, savepoints and usable transaction are back. */
    method WithAuditSavepoint(work: seq<Step>) returns (ok: bool)
      requires !poisoned
      modifies this
      ensures ok <==> WorkSucceeds(old(tx), work)
      ensures tx.statementTimeout == old(tx).statementTimeout && tx.lockTimeout == old(tx).lockTimeout
      ensures !poisoned && saved == old(saved)
      ensures ok ==> tx.data == RunWork(Bounded(old(tx)), work).tx.data && tx.world == old(tx).world
      ensures !ok ==> tx == old(tx).(world := if old(tx).world.None? then None else Some(RecordGap(old(tx).world.value)))
    {
      Savepoint();
      var statement, lock := tx.statementTimeout, tx.lockTimeout;
      tx := Bounded(tx);
      WorkLeavesWorld(tx, work);
      var done, elapsed := Collect(work);
      ok := done && elapsed < BUDGET;
      if ok { ok := SetConfig(statement, lock); }
      if ok {
        ReleaseSavepoint();
      } else {
        RollbackTo();
        ReleaseSavepoint();
        if tx.world.Some? { tx := tx.(world := Some(RecordGap(tx.world.value))); }
      }
    }
  }

  lemma {:induction false} WorkLeavesWorld(tx: Tx, work: seq<Step>)
    ensures RunWork(tx, work).tx.world == tx.world
  {
    if work != [] {
      WorkLeavesWorld(tx, work[..|work| - 1]);
    }
  }

  function Written(data: map<string, string>, work: seq<Step>): map<string, string> {
    if work == [] then data else
      var before := Written(data, work[..|work| - 1]);
      match work[|work| - 1].op
      case Write(k, v) => before[k := v]
      case _ => before
  }

  predicate Errs(s: Step) {
    s.op.SqlError? || s.op.Throw?
  }

  function Duration(work: seq<Step>): nat {
    if work == [] then 0 else Duration(work[..|work| - 1]) + work[|work| - 1].takes
  }

  predicate Good(r: Ran) {
    r.ok && !r.poisoned && r.elapsed < BUDGET
  }

  predicate NoErrors(work: seq<Step>) {
    forall i :: 0 <= i < |work| ==> !Errs(work[i])
  }

  /** Audit work is kept exactly when it meets no error, caught or not, and stays in budget; all
      its writes are then in place. */
  lemma {:induction false} SucceedsIff(tx: Tx, work: seq<Step>)
    ensures Good(RunWork(tx, work)) <==> Duration(work) < BUDGET && NoErrors(work)
    ensures Good(RunWork(tx, work)) ==>
      RunWork(tx, work).elapsed == Duration(work) && RunWork(tx, work).tx.data == Written(tx.data, work)
  {
    if work != [] {
      var shorter := work[..|work| - 1];
      SucceedsIff(tx, shorter);
      assert NoErrors(work) <==> NoErrors(shorter) && !Errs(work[|work| - 1]) by {
        assert forall i :: 0 <= i < |shorter| ==> shorter[i] == work[i];
      }
    }
  }
}
