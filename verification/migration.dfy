/** One migration run: cursors, paged upserts, checkpoints, all inside one transaction. */
module Migration {
  import opened Common
  import opened Upsert
  import opened Paging

  datatype Mode = Full | Incremental

  datatype Source = Source(profile: string, key: string, fingerprint: string)

  datatype Slot = Slot(profile: string, key: string, table: string)

  datatype Checkpoint = Checkpoint(fingerprint: string, lastId: int)

  datatype Status = Running | Completed | Failed

  datatype Db = Db(tables: map<string, Table>, checkpoints: map<Slot, Checkpoint>, runs: seq<Status>)

  /** One table to migrate, with what its queries see: the source log as it ends up, how much of
      it was visible when its maximum id was measured, and how much at each page query. */
  datatype Job = Job(table: string, size: nat, append: bool, log: seq<Row>, measured: nat, views: seq<nat>)

  datatype Fault =
    | NoFault
    | Break(at: nat)                   // a statement fails in step `at`, or at the latest the commit does
    | CommitUnseen(applied: bool)      // the commit reports an error although it may have applied
    | Crash(applied: bool)             // the process dies, before or after the commit applied

  predicate JobOk(job: Job) {
    && job.size >= 1 && Ascending(job.log) && job.measured <= |job.log|
    && Views(job.log, job.views, job.measured)
  }

  predicate JobsOk(jobs: seq<Job>) {
    && (forall i :: 0 <= i < |jobs| ==> JobOk(jobs[i]))
    && (forall i, j :: 0 <= i < j < |jobs| ==> jobs[i].table != jobs[j].table)
  }

  predicate Present(tables: map<string, Table>, jobs: seq<Job>) {
    forall i :: 0 <= i < |jobs| ==> jobs[i].table in tables
  }

  function MaxId(rows: seq<Row>): (m: int)
    ensures m >= -1
  {
    if rows == [] then -1 else Max(MaxId(rows[..|rows| - 1]), rows[|rows| - 1].id)
  }

  lemma {:induction false} MaxIsLast(rows: seq<Row>)
    requires Ascending(rows)
    ensures MaxId(rows) == if rows == [] then -1 else rows[|rows| - 1].id
  {
    if |rows| > 1 {
      MaxIsLast(rows[..|rows| - 1]);
    }
  }

  /** The measured maximum id marks exactly the measured prefix. */
  lemma StartAtMeasured(log: seq<Row>, measured: nat)
    requires Ascending(log) && measured <= |log|
    ensures Start(log, MaxId(log[..measured])) == measured
  {
    MaxIsLast(log[..measured]);
    if measured > 0 {
      StartAfterRow(log, measured - 1);
    } else {
      BoundaryIsStart(log, -1, 0);
    }
  }

  // ---- cursors ----

  function SlotOf(who: Source, job: Job): Slot {
    Slot(who.profile, who.key, job.table)
  }

  function EndId(job: Job): int
    requires JobOk(job)
  {
    MaxId(job.log[..job.measured])
  }

  function CursorOf(db: Db, who: Source, mode: Mode, job: Job): Result<int, string>
    requires JobOk(job)
  {
    var slot := SlotOf(who, job);
    if mode.Full? || !job.append then Ok(-1)
    else if slot !in db.checkpoints then Err("a completed full checkpoint is required")
    else if db.checkpoints[slot].fingerprint != who.fingerprint then Err("the source fingerprint changed")
    else if EndId(job) < db.checkpoints[slot].lastId then Err("the source maximum id regressed")
    else Ok(db.checkpoints[slot].lastId)
  }

  function CursorsOf(db: Db, who: Source, mode: Mode, jobs: seq<Job>): (r: Result<seq<int>, string>)
    requires JobsOk(jobs)
    ensures r.Ok? ==> |r.value| == |jobs|
  {
    if jobs == [] then Ok([]) else
      var last := |jobs| - 1;
      match CursorsOf(db, who, mode, jobs[..last])
      case Err(e) => Err(e)
      case Ok(cs) =>
        match CursorOf(db, who, mode, jobs[last])
        case Err(e) => Err(e)
        case Ok(c) => Ok(cs + [c])
  }

  // ---- the transaction ----

  function PagesOf(job: Job, after: int): seq<seq<Row>>
    requires job.size >= 1
  {
    Pages(job.log, job.views, Start(job.log, after), job.size)
  }

  function ReachedBy(job: Job, after: int): (n: nat)
    requires JobOk(job)
    ensures n <= |job.log|
  {
    Reached(job.log, job.views, Start(job.log, after), job.size)
  }

  function MoveAll(tables: map<string, Table>, jobs: seq<Job>, cursors: seq<int>, write: bool, run: nat): (r: Option<map<string, Table>>)
    requires JobsOk(jobs) && |cursors| == |jobs| && Present(tables, jobs)
    ensures r.Some? ==> r.value.Keys == tables.Keys
  {
    if jobs == [] then Some(tables) else
      var last := |jobs| - 1;
      match MoveAll(tables, jobs[..last], cursors[..last], write, run)
      case None => None
      case Some(ts) =>
        match MovePages(ts[jobs[last].table], PagesOf(jobs[last], cursors[last]), write, run)
        case None => None
        case Some(t) => Some(ts[jobs[last].table := t])
  }

  function SaveAll(checkpoints: map<Slot, Checkpoint>, jobs: seq<Job>, who: Source): map<Slot, Checkpoint>
    requires JobsOk(jobs)
  {
    if jobs == [] then checkpoints else
      var last := |jobs| - 1;
      var before := SaveAll(checkpoints, jobs[..last], who);
      if jobs[last].append then before[SlotOf(who, jobs[last]) := Checkpoint(who.fingerprint, EndId(jobs[last]))]
      else before
  }

  /** What the transaction leaves if no statement breaks; None if it must fail. */
  function Migrated(db: Db, who: Source, mode: Mode, jobs: seq<Job>, run: nat): Option<Db>
    requires JobsOk(jobs) && Present(db.tables, jobs)
  {
    match CursorsOf(db, who, mode, jobs)
    case Err(_) => None
    case Ok(cursors) =>
      match MoveAll(db.tables, jobs, cursors, true, run)
      case None => None
      case Some(tables) => Some(db.(tables := tables, checkpoints := SaveAll(db.checkpoints, jobs, who)))
  }

  function Finish(db: Db, run: nat, status: Status): Db
    requires 1 <= run <= |db.runs|
  {
    db.(runs := db.runs[run - 1 := status])
  }

  /** The database after one run. */
  function RunResult(db: Db, who: Source, mode: Mode, apply: bool, connected: bool, jobs: seq<Job>, fault: Fault): Db
    requires JobsOk(jobs) && Present(db.tables, jobs)
  {
    if !apply || !connected then db else
      var run := |db.runs| + 1;
      var begun := db.(runs := db.runs + [Running]);
      match fault
      case Crash(applied) =>
        (match Migrated(begun, who, mode, jobs, run)
         case None => begun
         case Some(done) => if applied then Finish(done, run, Completed) else begun)
      case Break(_) => Finish(begun, run, Failed)
      case NoFault =>
        (match Migrated(begun, who, mode, jobs, run)
         case None => Finish(begun, run, Failed)
         case Some(done) => Finish(done, run, Completed))
      case CommitUnseen(applied) =>
        match Migrated(begun, who, mode, jobs, run)
        case None => Finish(begun, run, Failed)
        case Some(done) => Finish(if applied then done else begun, run, Failed)
  }

  function Rest(views: seq<nat>, query: nat): seq<nat> {
    if query < |views| then views[query..] else []
  }

  function Seen(job: Job, query: nat): (n: nat)
    ensures n <= |job.log|
  {
    if query < |job.views| then Min(job.views[query], |job.log|) else |job.log|
  }

  function Remaining(job: Job, query: nat, lastId: int): seq<seq<Row>>
    requires job.size >= 1
  {
    Pages(job.log, Rest(job.views, query), Start(job.log, lastId), job.size)
  }

  lemma RestStep(job: Job, query: nat)
    ensures Rest(job.views, query + 1) == if Rest(job.views, query) == [] then [] else Rest(job.views, query)[1..]
    ensures Seen(job, query) == NextView(job.log, Rest(job.views, query))
  {
  }

  /** What a page query reads, in terms of positions in the log. */
  lemma QueryReadsSlice(job: Job, seen: nat, lastId: int)
    requires job.size >= 1 && Ascending(job.log) && seen <= |job.log|
    ensures var from := Start(job.log, lastId);
      Select(job.log[..seen], lastId, job.size)
      == if seen <= from then [] else job.log[from..Min(seen, from + job.size)]
  {
    var view, from := job.log[..seen], Start(job.log, lastId);
    SelectIsSlice(view, lastId, job.size);
    StartOfPrefix(job.log, lastId, seen);
    if from < seen {
      var to := Min(seen, from + job.size);
      SliceOfPrefix(job.log, seen, from, to);
    }
  }

  lemma SliceOfPrefix(rows: seq<Row>, n: nat, from: nat, to: nat)
    requires from <= to <= n <= |rows|
    ensures rows[..n][from..to] == rows[from..to]
  {
    assert forall i :: 0 <= i < to - from ==> rows[..n][from..to][i] == rows[from..to][i];
  }

  lemma RemainingUnfolds(job: Job, query: nat, lastId: int)
    requires job.size >= 1
    ensures var seen, from := Seen(job, query), Start(job.log, lastId);
      Remaining(job, query, lastId)
      == if seen <= from then []
         else [job.log[from..Min(seen, from + job.size)]]
              + Pages(job.log, Rest(job.views, query + 1), Min(seen, from + job.size), job.size)
  {
    RestStep(job, query);
  }

  /** Behind a page the reading goes on at the id of its last row. */
  lemma RemainingAfter(job: Job, query: nat, lastId: int, to: nat)
    requires job.size >= 1 && Ascending(job.log)
    requires Start(job.log, lastId) < Seen(job, query) && to == Min(Seen(job, query), Start(job.log, lastId) + job.size)
    ensures Start(job.log, job.log[to - 1].id) == to
    ensures Remaining(job, query, lastId)
      == [job.log[Start(job.log, lastId)..to]] + Remaining(job, query + 1, job.log[to - 1].id)
  {
    StartAfterRow(job.log, to - 1);
    RemainingUnfolds(job, query, lastId);
  }

  /** The next page query returns the head of the remaining pages, and its last id is the cursor
      for the others. */
  lemma NextPage(job: Job, query: nat, lastId: int)
    requires job.size >= 1 && Ascending(job.log)
    ensures var rows := Select(job.log[..Seen(job, query)], lastId, job.size);
      if rows == [] then Remaining(job, query, lastId) == []
      else Remaining(job, query, lastId) == [rows] + Remaining(job, query + 1, rows[|rows| - 1].id)
           && Start(job.log, rows[|rows| - 1].id) > Start(job.log, lastId)
  {
    var seen, from := Seen(job, query), Start(job.log, lastId);
    QueryReadsSlice(job, seen, lastId);
    if from < seen {
      var to := Min(seen, from + job.size);
      RemainingAfter(job, query, lastId, to);
      assert job.log[from..to][to - from - 1] == job.log[to - 1];
    } else {
      RemainingUnfolds(job, query, lastId);
    }
  }

  lemma NextCursor(db: Db, who: Source, mode: Mode, jobs: seq<Job>, i: nat, cursors: seq<int>)
    requires JobsOk(jobs) && i < |jobs| && CursorsOf(db, who, mode, jobs[..i]) == Ok(cursors)
    ensures JobOk(jobs[i])
    ensures CursorsOf(db, who, mode, jobs[..i + 1])
      == match CursorOf(db, who, mode, jobs[i]) case Err(e) => Err(e) case Ok(c) => Ok(cursors + [c])
  {
    assert jobs[..i + 1][..i] == jobs[..i];
  }

  function WithTable(db: Db, name: string, t: Table): Db {
    db.(tables := db.tables[name := t])
  }

  lemma WithTableTwice(db: Db, name: string, t: Table, u: Table)
    ensures WithTable(WithTable(db, name, t), name, u) == WithTable(db, name, u)
    ensures name in WithTable(db, name, t).tables && WithTable(db, name, t).tables[name] == t
    ensures name in db.tables ==> WithTable(db, name, db.tables[name]) == db
  {
    assert db.tables[name := t][name := u] == db.tables[name := u];
    assert name in db.tables ==> db.tables[name := db.tables[name]] == db.tables;
  }

  lemma PageMoves(t: Table, page: seq<Row>, rest: seq<seq<Row>>, write: bool, run: nat)
    ensures MovePages(t, [page] + rest, write, run)
      == if GoodPage(page, write) then MovePages(MovePage(t, page, write, run), rest, write, run) else None
    ensures |Concat([page] + rest)| == |page| + |Concat(rest)|
  {
    ConcatFirst(page, rest);
    assert ([page] + rest)[1..] == rest;
  }

  class Migrator {
    var db: Db

    constructor (db0: Db)
      ensures db == db0
    {
      db := db0;
    }

    method LoadCursor(who: Source, mode: Mode, job: Job) returns (r: Result<int, string>)
      requires JobOk(job)
      ensures r == CursorOf(db, who, mode, job)
    {
      var endAt := EndId(job);
      var after := -1;
      if mode.Incremental? && job.append {
        var slot := SlotOf(who, job);
        if slot !in db.checkpoints { return Err("a completed full checkpoint is required"); }
        if db.checkpoints[slot].fingerprint != who.fingerprint { return Err("the source fingerprint changed"); }
        after := db.checkpoints[slot].lastId;
      }
      if endAt < after { return Err("the source maximum id regressed"); }
      r := Ok(after);
    }

    method MapAndUpsert(table: string, rows: seq<Row>, write: bool, run: nat) returns (ok: bool)
      requires table in db.tables
      modifies this
      ensures ok <==> GoodPage(rows, write)
      ensures db == if ok then WithTable(old(db), table, MovePage(old(db).tables[table], rows, write, run)) else old(db)
    {
      WithTableTwice(db, table, db.tables[table], db.tables[table]);
      ok := forall i :: 0 <= i < |rows| ==> rows[i].valid;
      if ok && write {
        var t;
        ok, t := UpsertRows(db.tables[table], rows, run, true);
        db := WithTable(db, table, t);
      }
    }

    method MigratePage(job: Job, query: nat, lastId: int, write: bool, run: nat) returns (ok: bool, rows: seq<Row>)
      requires JobOk(job) && job.table in db.tables
      modifies this
      ensures Remaining(job, query, lastId)
        == if rows == [] then [] else [rows] + Remaining(job, query + 1, rows[|rows| - 1].id)
      ensures rows != [] ==> Start(job.log, rows[|rows| - 1].id) > Start(job.log, lastId)
      ensures rows == [] ==> db == old(db)
      ensures rows != [] ==> (ok <==> GoodPage(rows, write))
      ensures rows != [] && ok ==>
        db == WithTable(old(db), job.table, MovePage(old(db).tables[job.table], rows, write, run))
      ensures !ok ==> db == old(db)
    {
      rows := Select(job.log[..Seen(job, query)], lastId, job.size);
      NextPage(job, query, lastId);
      ok := true;
      if rows != [] { ok := MapAndUpsert(job.table, rows, write, run); }
    }

    /** On failure the table may be half written; the caller rolls back. */
    method MigrateSimpleTable(job: Job, after: int, write: bool, run: nat) returns (ok: bool, processed: nat)
      requires JobOk(job) && job.table in db.tables
      modifies this
      ensures db.checkpoints == old(db).checkpoints && db.runs == old(db).runs && (!write ==> db == old(db))
      ensures var moved := MovePages(old(db).tables[job.table], PagesOf(job, after), write, run);
        (ok <==> moved.Some?) && (ok ==> db.tables == old(db).tables[job.table := moved.value])
      ensures ok ==> processed == |Concat(PagesOf(job, after))|
    {
      var lastId, query := after, 0;
      ghost var was, t := db, db.tables[job.table];
      processed := 0;
      assert job.views[0..] == job.views;
      WithTableTwice(was, job.table, t, t);
      while true
        invariant query >= 0 && db == WithTable(was, job.table, t) && (!write ==> t == was.tables[job.table])
        invariant MovePages(was.tables[job.table], PagesOf(job, after), write, run)
          == MovePages(t, Remaining(job, query, lastId), write, run)
        invariant |Concat(PagesOf(job, after))| == processed + |Concat(Remaining(job, query, lastId))|
        decreases |job.log| - Start(job.log, lastId)
      {
        WithTableTwice(was, job.table, t, t);
        var done, rows := MigratePage(job, query, lastId, write, run);
        if rows == [] { return true, processed; }
        PageMoves(t, rows, Remaining(job, query + 1, rows[|rows| - 1].id), write, run);
        if !done { return false, processed; }
        ghost var moved := MovePage(t, rows, write, run);
        WithTableTwice(was, job.table, t, moved);
        t := moved;
        processed := processed + |rows|;
        lastId, query := rows[|rows| - 1].id, query + 1;
      }
    }

    method LoadCursors(who: Source, mode: Mode, jobs: seq<Job>) returns (r: Result<seq<int>, string>)
      requires JobsOk(jobs)
      ensures r == CursorsOf(db, who, mode, jobs)
    {
      var cursors := [];
      for i := 0 to |jobs|
        invariant CursorsOf(db, who, mode, jobs[..i]) == Ok(cursors)
      {
        NextCursor(db, who, mode, jobs, i, cursors);
        var c := LoadCursor(who, mode, jobs[i]);
        if c.Err? {
          CursorErrorStays(db, who, mode, jobs, i + 1);
          return Err(c.error);
        }
        cursors := cursors + [c.value];
      }
      assert jobs[..|jobs|] == jobs;
      r := Ok(cursors);
    }

    /** One more table; `was` are the tables before the first one. */
    method MoveTable(ghost was: map<string, Table>, jobs: seq<Job>, cursors: seq<int>, write: bool, run: nat, i: nat)
      returns (ok: bool)
      requires JobsOk(jobs) && |cursors| == |jobs| && Present(was, jobs) && i < |jobs|
      requires MoveAll(was, jobs[..i], cursors[..i], write, run) == Some(db.tables)
      modifies this
      ensures db.checkpoints == old(db).checkpoints && db.runs == old(db).runs && (!write ==> db == old(db))
      ensures ok ==> MoveAll(was, jobs[..i + 1], cursors[..i + 1], write, run) == Some(db.tables)
      ensures !ok ==> MoveAll(was, jobs, cursors, write, run).None?
    {
      MoveNext(was, jobs, cursors, write, run, i, db.tables);
      var processed;
      ok, processed := MigrateSimpleTable(jobs[i], cursors[i], write, run);
      if !ok { MoveFailureStays(was, jobs, cursors, write, run, i + 1); }
    }

    method MoveTables(jobs: seq<Job>, cursors: seq<int>, write: bool, run: nat, fault: Fault) returns (ok: bool)
      requires JobsOk(jobs) && |cursors| == |jobs| && Present(db.tables, jobs)
      modifies this
      ensures db.checkpoints == old(db).checkpoints && db.runs == old(db).runs && (!write ==> db == old(db))
      ensures var moved := MoveAll(old(db).tables, jobs, cursors, write, run);
        && (ok ==> moved == Some(db.tables))
        && (moved.Some? && !fault.Break? ==> ok)
    {
      ok := true;
      for i := 0 to |jobs|
        invariant db.checkpoints == old(db).checkpoints && db.runs == old(db).runs && (!write ==> db == old(db))
        invariant MoveAll(old(db).tables, jobs[..i], cursors[..i], write, run) == Some(db.tables)
      {
        if fault == Break(i) { return false; }
        var done := MoveTable(old(db).tables, jobs, cursors, write, run, i);
        if !done { return false; }
      }
      assert jobs[..|jobs|] == jobs && cursors[..|cursors|] == cursors;
    }

    method SaveCheckpoints(jobs: seq<Job>, who: Source)
      requires JobsOk(jobs)
      modifies this
      ensures db == old(db).(checkpoints := SaveAll(old(db).checkpoints, jobs, who))
    {
      for i := 0 to |jobs|
        invariant db == old(db).(checkpoints := SaveAll(old(db).checkpoints, jobs[..i], who))
      {
        assert jobs[..i + 1][..i] == jobs[..i];
        if jobs[i].append {
          db := db.(checkpoints := db.checkpoints[SlotOf(who, jobs[i]) := Checkpoint(who.fingerprint, EndId(jobs[i]))]);
        }
      }
      assert jobs[..|jobs|] == jobs;
    }

    method Run(who: Source, mode: Mode, write: bool, jobs: seq<Job>, run: nat, fault: Fault) returns (ok: bool)
      requires JobsOk(jobs) && Present(db.tables, jobs)
      modifies this
      ensures db.runs == old(db).runs && (!write ==> db == old(db))
      ensures write && ok ==> Migrated(old(db), who, mode, jobs, run) == Some(db)
      ensures write && Migrated(old(db), who, mode, jobs, run).Some? && !fault.Break? ==> ok
    {
      var cursors := LoadCursors(who, mode, jobs);
      if cursors.Err? { return false; }
      ok := MoveTables(jobs, cursors.value, write, run, fault);
      if ok && write { SaveCheckpoints(jobs, who); }
      ok := ok && !fault.Break?;
    }

    /** `connected` says whether there is a target database. */
    method Migrate(who: Source, mode: Mode, apply: bool, connected: bool, jobs: seq<Job>, fault: Fault)
      returns (ok: bool)
      requires JobsOk(jobs) && Present(db.tables, jobs)
      modifies this
      ensures db == RunResult(old(db), who, mode, apply, connected, jobs, fault)
      ensures apply && connected && ok ==> db.runs == old(db).runs + [Completed]
      ensures apply && connected && !fault.Crash? && db.runs == old(db).runs + [Completed] ==> ok
    {
      if mode.Incremental? && !connected { return false; }
      if !apply || !connected {
        ok := Run(who, mode, false, jobs, 0, fault);
        return;
      }
      var run := |db.runs| + 1;
      db := db.(runs := db.runs + [Running]);
      var saved := db;
      ok := Run(who, mode, true, jobs, run, fault);
      if ok && fault.NoFault? {
        db := Finish(db, run, Completed);
        assert db.runs == old(db).runs + [Completed];
        return;
      }
      var applied := ok && (fault == CommitUnseen(true) || fault == Crash(true));
      if !applied { db := saved; }
      ok := false;
      if fault.Crash? {
        if applied { db := Finish(db, run, Completed); }
      } else {
        db := Finish(db, run, Failed);
        assert db.runs[run - 1] != Completed;
      }
    }
  }

  lemma {:induction false} CursorErrorStays(db: Db, who: Source, mode: Mode, jobs: seq<Job>, n: nat)
    requires JobsOk(jobs) && n <= |jobs| && CursorsOf(db, who, mode, jobs[..n]).Err?
    ensures CursorsOf(db, who, mode, jobs) == CursorsOf(db, who, mode, jobs[..n])
  {
    if n == |jobs| {
      assert jobs[..n] == jobs;
    } else {
      var shorter := jobs[..|jobs| - 1];
      assert shorter[..n] == jobs[..n];
      CursorErrorStays(db, who, mode, shorter, n);
    }
  }

  /** Moving one more table. */
  lemma MoveNext(tables: map<string, Table>, jobs: seq<Job>, cursors: seq<int>, write: bool, run: nat, i: nat,
                 now: map<string, Table>)
    requires JobsOk(jobs) && |cursors| == |jobs| && Present(tables, jobs) && i < |jobs|
    requires MoveAll(tables, jobs[..i], cursors[..i], write, run) == Some(now)
    ensures JobOk(jobs[i]) && jobs[i].table in now
    ensures var moved := MovePages(now[jobs[i].table], PagesOf(jobs[i], cursors[i]), write, run);
      MoveAll(tables, jobs[..i + 1], cursors[..i + 1], write, run)
      == if moved.None? then None else Some(now[jobs[i].table := moved.value])
  {
    assert jobs[..i + 1][..i] == jobs[..i] && cursors[..i + 1][..i] == cursors[..i];
    assert now.Keys == tables.Keys;
  }

  lemma {:induction false} MoveFailureStays(tables: map<string, Table>, jobs: seq<Job>, cursors: seq<int>, write: bool,
                                            run: nat, n: nat)
    requires JobsOk(jobs) && |cursors| == |jobs| && Present(tables, jobs) && n <= |jobs|
    requires MoveAll(tables, jobs[..n], cursors[..n], write, run).None?
    ensures MoveAll(tables, jobs, cursors, write, run).None?
  {
    if n == |jobs| {
      assert jobs[..n] == jobs && cursors[..n] == cursors;
    } else {
      var shorter, fewer := jobs[..|jobs| - 1], cursors[..|jobs| - 1];
      assert shorter[..n] == jobs[..n] && fewer[..n] == cursors[..n];
      MoveFailureStays(tables, shorter, fewer, write, run, n);
    }
  }
}
