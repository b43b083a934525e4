/** Any history of full, incremental, dry, rejected and failed runs over a growing source. */
module MigrationHistory {
  import opened Common
  import opened Upsert
  import opened Paging
  import opened Migration

  datatype Spec = Spec(table: string, size: nat, append: bool)

  /** The simple tables of a game database, in the order they are migrated. */
  const GAME_PLAN := [
    Spec("ng_games", 250, false), Spec("hall", 250, true), Spec("ng_old_generals", 250, true),
    Spec("ng_old_nations", 250, true), Spec("emperior", 250, true), Spec("inheritance_result", 250, true),
    Spec("user_record", 250, true), Spec("ng_history", 25, true)]

  const GATEWAY_PLAN := [Spec("member_log", 500, true)]

  type Plan = seq<Spec>

  predicate PlanOk(plan: Plan) {
    && (forall i :: 0 <= i < |plan| ==> plan[i].size >= 1)
    && (forall i, j :: 0 <= i < j < |plan| ==> plan[i].table != plan[j].table)
    && (exists i :: 0 <= i < |plan| && plan[i].append)
  }

  /** Both plans qualify for every history below. */
  lemma PlansOk()
    ensures PlanOk(GAME_PLAN) && PlanOk(GATEWAY_PLAN)
  {
    assert GAME_PLAN[1].append && GATEWAY_PLAN[0].append;
  }

  /** `logs` are the source tables so far, `read` how much of each the target holds. */
  datatype World = World(db: Db, logs: seq<seq<Row>>, read: seq<nat>)

  datatype Event =
    | Grow(i: nat, rows: seq<Row>)
    | Change(i: nat, rows: seq<Row>)    // the rows of a rescanned table change in place
    | Ours(mode: Mode, apply: bool, connected: bool, jobs: seq<Job>, fault: Fault)
    | Foreign(fingerprint: string, apply: bool, connected: bool, jobs: seq<Job>, fault: Fault)

  predicate Fits(plan: Plan, jobs: seq<Job>) {
    && JobsOk(jobs) && |jobs| == |plan|
    && forall i :: 0 <= i < |plan| ==>
         jobs[i].table == plan[i].table && jobs[i].size == plan[i].size && jobs[i].append == plan[i].append
  }

  /** A run sees at least what was there before it, and possibly rows added meanwhile. */
  predicate Extends(job: Job, log: seq<Row>) {
    log <= job.log && |log| <= job.measured
  }

  /** In place, a row keeps its id and conflict key. The simple tables have no preserved columns. */
  predicate SameRows(before: seq<Row>, after: seq<Row>) {
    && |before| == |after|
    && forall k :: 0 <= k < |before| ==>
         before[k].id == after[k].id && before[k].key == after[k].key && before[k].kept == after[k].kept
  }

  predicate Shaped(plan: Plan, w: World) {
    && |w.logs| == |w.read| == |plan|
    && (forall i :: 0 <= i < |plan| ==> plan[i].table in w.db.tables && Ascending(w.logs[i]))
  }

  predicate Possible(plan: Plan, w: World, e: Event) {
    && Shaped(plan, w)
    && match e
       case Grow(i, rows) => i < |plan| && Ascending(w.logs[i] + rows)
       case Change(i, rows) => i < |plan| && !plan[i].append && SameRows(w.logs[i], rows)
       case Ours(_, _, _, jobs, _) => Fits(plan, jobs) && forall i :: 0 <= i < |plan| ==> Extends(jobs[i], w.logs[i])
       case Foreign(_, _, _, jobs, _) => Fits(plan, jobs)
  }

  lemma FitsPresent(plan: Plan, w: World, jobs: seq<Job>)
    requires Shaped(plan, w) && Fits(plan, jobs)
    ensures Present(w.db.tables, jobs)
  {
    forall i | 0 <= i < |jobs| ensures jobs[i].table in w.db.tables {
      assert jobs[i].table == plan[i].table;
    }
  }

  /** Whether the run's transaction took effect. */
  predicate Effective(db: Db, who: Source, e: Event)
    requires e.Ours? && JobsOk(e.jobs) && Present(db.tables, e.jobs)
  {
    && e.apply && e.connected
    && (e.fault.NoFault? || e.fault == CommitUnseen(true) || e.fault == Crash(true))
    && Migrated(Begun(db), who, e.mode, e.jobs, |db.runs| + 1).Some?
  }

  function Begun(db: Db): Db {
    db.(runs := db.runs + [Running])
  }

  function CursorsUsed(db: Db, who: Source, e: Event): (cs: seq<int>)
    requires e.Ours? && JobsOk(e.jobs) && Present(db.tables, e.jobs) && Effective(db, who, e)
    ensures |cs| == |e.jobs|
  {
    CursorsOf(Begun(db), who, e.mode, e.jobs).value
  }

  function After(plan: Plan, who: Source, w: World, e: Event): World
    requires Possible(plan, w, e)
  {
    match e
    case Grow(i, rows) => w.(logs := w.logs[i := w.logs[i] + rows])
    case Change(i, rows) => w.(logs := w.logs[i := rows])
    case Foreign(fingerprint, apply, connected, jobs, fault) =>
      FitsPresent(plan, w, jobs);
      w.(db := RunResult(w.db, who.(fingerprint := fingerprint), Incremental, apply, connected, jobs, fault))
    case Ours(mode, apply, connected, jobs, fault) =>
      FitsPresent(plan, w, jobs);
      World(RunResult(w.db, who, mode, apply, connected, jobs, fault),
            seq(|jobs|, i requires 0 <= i < |jobs| => jobs[i].log),
            if Effective(w.db, who, e)
            then seq(|jobs|, i requires 0 <= i < |jobs| => ReachedBy(jobs[i], CursorsUsed(w.db, who, e)[i]))
            else w.read)
  }

  // ---- the invariant, one table at a time ----

  /** The target table holds exactly one scan of the first `read` source rows. */
  predicate Holds(t: Table, base: Table, log: seq<Row>, read: nat) {
    read <= |log| && Contents(t) == Scan(Contents(base), log[..read])
  }

  /** The target table holds the keys of such a scan; a row the source has changed since it was
      read may be stale. */
  predicate OutlineAt(t: Table, base: Table, log: seq<Row>, read: nat, key: string) {
    read <= |log| &&
    var now, scan := Contents(t), Scan(Contents(base), log[..read]);
    && (key in now <==> key in scan)
    && (key in now ==> now[key].id == scan[key].id && now[key].kept == scan[key].kept)
    && (key in now && Last(log[..read], key).None? ==> now[key] == scan[key])
  }

  ghost predicate Outlines(t: Table, base: Table, log: seq<Row>, read: nat) {
    read <= |log| && forall key :: OutlineAt(t, base, log, read, key)
  }

  ghost predicate Imported(plan: Plan, w: World, base: map<string, Table>, i: nat)
    requires Shaped(plan, w) && i < |plan|
  {
    && plan[i].table in base
    && Outlines(w.db.tables[plan[i].table], base[plan[i].table], w.logs[i], w.read[i])
    && (plan[i].append ==> Holds(w.db.tables[plan[i].table], base[plan[i].table], w.logs[i], w.read[i]))
  }

  lemma HoldsOutlines(t: Table, base: Table, log: seq<Row>, read: nat)
    requires Holds(t, base, log, read)
    ensures Outlines(t, base, log, read)
  {
    forall key ensures OutlineAt(t, base, log, read, key) {
    }
  }

  lemma {:induction false} SameRowsLast(before: seq<Row>, after: seq<Row>, key: string)
    requires SameRows(before, after)
    ensures Last(before, key).None? <==> Last(after, key).None?
  {
    if before != [] {
      SameRowsLast(before[..|before| - 1], after[..|after| - 1], key);
    }
  }

  lemma {:induction false} SameRowsScan(base: map<string, Cell>, before: seq<Row>, after: seq<Row>, key: string)
    requires SameRows(before, after)
    ensures var a, b := Scan(base, before), Scan(base, after);
      && (key in a <==> key in b)
      && (key in a ==> a[key].id == b[key].id && a[key].kept == b[key].kept)
  {
    if before != [] {
      SameRowsScan(base, before[..|before| - 1], after[..|after| - 1], key);
    }
  }

  lemma ChangeKeepsOutline(t: Table, base: Table, before: seq<Row>, after: seq<Row>, read: nat)
    requires SameRows(before, after) && Outlines(t, base, before, read)
    ensures Outlines(t, base, after, read)
  {
    forall key ensures OutlineAt(t, base, after, read, key) {
      assert OutlineAt(t, base, before, read, key);
      var was, now := before[..read], after[..read];
      assert SameRows(was, now);
      SameRowsLast(was, now, key);
      SameRowsScan(Contents(base), was, now, key);
      ScanKeepsLast(Contents(base), was, key);
      ScanKeepsLast(Contents(base), now, key);
    }
  }

  /** Only appended tables have a checkpoint; it lies within the log, and everything up to it has been read. */
  predicate Marks(cs: map<Slot, Checkpoint>, slot: Slot, append: bool, fingerprint: string, log: seq<Row>, read: nat) {
    slot in cs ==>
      && append
      && cs[slot].fingerprint == fingerprint
      && -1 <= cs[slot].lastId <= MaxId(log) && Start(log, cs[slot].lastId) <= read
  }

  predicate CheckpointOk(plan: Plan, who: Source, w: World, i: nat)
    requires Shaped(plan, w) && i < |plan|
  {
    Marks(w.db.checkpoints, Slot(who.profile, who.key, plan[i].table), plan[i].append, who.fingerprint, w.logs[i], w.read[i])
  }

  ghost predicate Sound(plan: Plan, who: Source, base: map<string, Table>, w: World) {
    && Shaped(plan, w)
    && forall i :: 0 <= i < |plan| ==> Imported(plan, w, base, i) && CheckpointOk(plan, who, w, i)
  }

  ghost function SoundWorlds(plan: Plan, who: Source, base: map<string, Table>): iset<World> {
    iset w | Sound(plan, who, base, w)
  }

  /** Rows appended later do not move a checkpoint's place in the log. */
  lemma StartStays(log: seq<Row>, longer: seq<Row>, id: int)
    requires log <= longer && Ascending(longer) && id <= MaxId(log)
    ensures Ascending(log) && Start(longer, id) == Start(log, id)
    ensures MaxId(log) <= MaxId(longer)
  {
    assert log == longer[..|log|];
    StartOfPrefix(longer, id, |log|);
    StartIsBoundary(longer, id);
    MaxIsLast(log);
    MaxIsLast(longer);
    assert |log| < |longer| ==> !Below(longer, id, |log|);
  }

  lemma {:induction false} CursorAt(db: Db, who: Source, mode: Mode, jobs: seq<Job>, i: nat)
    requires JobsOk(jobs) && i < |jobs| && CursorsOf(db, who, mode, jobs).Ok?
    ensures CursorOf(db, who, mode, jobs[i]) == Ok(CursorsOf(db, who, mode, jobs).value[i])
  {
    if i < |jobs| - 1 {
      CursorAt(db, who, mode, jobs[..|jobs| - 1], i);
    }
  }

  lemma {:induction false} CursorErr(db: Db, who: Source, mode: Mode, jobs: seq<Job>, i: nat)
    requires JobsOk(jobs) && i < |jobs| && CursorOf(db, who, mode, jobs[i]).Err?
    ensures CursorsOf(db, who, mode, jobs).Err?
  {
    if i < |jobs| - 1 {
      CursorErr(db, who, mode, jobs[..|jobs| - 1], i);
    }
  }

  /** Each table of a run is moved on its own. */
  lemma {:induction false} MovedAt(tables: map<string, Table>, jobs: seq<Job>, cursors: seq<int>, write: bool, run: nat, i: nat)
    requires JobsOk(jobs) && |cursors| == |jobs| && Present(tables, jobs) && i < |jobs|
    requires MoveAll(tables, jobs, cursors, write, run).Some?
    ensures jobs[i].table in MoveAll(tables, jobs, cursors, write, run).value
    ensures MovePages(tables[jobs[i].table], PagesOf(jobs[i], cursors[i]), write, run)
      == Some(MoveAll(tables, jobs, cursors, write, run).value[jobs[i].table])
  {
    var last := |jobs| - 1;
    if i < last {
      MovedAt(tables, jobs[..last], cursors[..last], write, run, i);
    } else {
      UnmovedAt(tables, jobs[..last], cursors[..last], write, run, jobs[last].table);
    }
  }

  lemma {:induction false} UnmovedAt(tables: map<string, Table>, jobs: seq<Job>, cursors: seq<int>, write: bool, run: nat, t: string)
    requires JobsOk(jobs) && |cursors| == |jobs| && Present(tables, jobs) && t in tables
    requires forall i :: 0 <= i < |jobs| ==> jobs[i].table != t
    requires MoveAll(tables, jobs, cursors, write, run).Some?
    ensures MoveAll(tables, jobs, cursors, write, run).value[t] == tables[t]
  {
    if jobs != [] {
      UnmovedAt(tables, jobs[..|jobs| - 1], cursors[..|jobs| - 1], write, run, t);
    }
  }

  /** Which checkpoints a completed run leaves. */
  lemma {:induction false} SavedAt(cs: map<Slot, Checkpoint>, jobs: seq<Job>, who: Source, slot: Slot)
    requires JobsOk(jobs)
    ensures var saved := SaveAll(cs, jobs, who);
      && (slot in saved ==>
            (slot in cs && saved[slot] == cs[slot])
            || exists i :: 0 <= i < |jobs| && SavesTo(jobs, who, slot, saved[slot], i))
      && (forall i :: 0 <= i < |jobs| && jobs[i].append && SlotOf(who, jobs[i]) == slot ==>
            slot in saved && SavesTo(jobs, who, slot, saved[slot], i))
  {
    if jobs != [] {
      var shorter := jobs[..|jobs| - 1];
      SavedAt(cs, shorter, who, slot);
      var saved, before := SaveAll(cs, jobs, who), SaveAll(cs, shorter, who);
      assert forall i, c :: 0 <= i < |shorter| ==> (SavesTo(shorter, who, slot, c, i) <==> SavesTo(jobs, who, slot, c, i));
      if jobs[|jobs| - 1].append && SlotOf(who, jobs[|jobs| - 1]) == slot {
        assert SavesTo(jobs, who, slot, saved[slot], |jobs| - 1);
        forall i | 0 <= i < |jobs| - 1 ensures SlotOf(who, jobs[i]) != slot {
        }
      }
    }
  }

  predicate SavesTo(jobs: seq<Job>, who: Source, slot: Slot, c: Checkpoint, i: nat)
    requires i < |jobs| && JobsOk(jobs)
  {
    jobs[i].append && SlotOf(who, jobs[i]) == slot && c == Checkpoint(who.fingerprint, EndId(jobs[i]))
  }

  // ---- one effective run, one table ----

  /** Where a run starts reading lies within what was already imported. */
  lemma CursorWithinRead(plan: Plan, who: Source, base: map<string, Table>, w: World, mode: Mode, job: Job, i: nat)
    requires Sound(plan, who, base, w) && i < |plan| && JobOk(job) && job.table == plan[i].table
    requires Extends(job, w.logs[i])
    requires CursorOf(w.db, who, mode, job).Ok?
    ensures Start(job.log, CursorOf(w.db, who, mode, job).value) <= w.read[i]
  {
    assert CheckpointOk(plan, who, w, i) && Imported(plan, w, base, i);
    if mode.Full? || !job.append {
      BoundaryIsStart(job.log, -1, 0);
    } else {
      StartStays(w.logs[i], job.log, w.db.checkpoints[SlotOf(who, job)].lastId);
    }
  }

  /** An append-only source never looks as if its maximum id had regressed. */
  lemma NeverRegresses(plan: Plan, who: Source, base: map<string, Table>, w: World, job: Job, i: nat)
    requires Sound(plan, who, base, w) && i < |plan| && JobOk(job) && job.table == plan[i].table && job.append
    requires Extends(job, w.logs[i])
    ensures CursorOf(w.db, who, Incremental, job).Ok? <==> SlotOf(who, job) in w.db.checkpoints
  {
    assert CheckpointOk(plan, who, w, i);
    var measured := job.log[..job.measured];
    assert w.logs[i] <= measured;
    StartStays(w.logs[i], measured, -1);
  }

  /** Reading on from the cursor and folding into the table amounts to one longer scan. */
  lemma MoveExtendsScan(t: Table, base: Table, job: Job, read: nat, after: int, run: nat)
    requires JobOk(job) && Start(job.log, after) <= read <= job.measured
    requires Contents(t) == Scan(Contents(base), job.log[..read])
    requires MovePages(t, PagesOf(job, after), true, run).Some?
    ensures read <= ReachedBy(job, after) && job.measured <= ReachedBy(job, after)
    ensures Contents(MovePages(t, PagesOf(job, after), true, run).value)
      == Scan(Contents(base), job.log[..ReachedBy(job, after)])
  {
    var from, to := Start(job.log, after), ReachedBy(job, after);
    PagesAreSlice(job.log, job.views, from, job.size);
    ReachedFloor(job.log, job.views, from, job.size, job.measured);
    MovePagesIsStore(t, PagesOf(job, after), true, run);
    StoreIsScan(t, job.log[from..to], run);
    OverlappingScans(Contents(base), job.log, from, read, to);
  }

  /** A rescan from the first row ends in the scan, whatever changed since the last one. */
  lemma RescanIsScan(t: Table, base: Table, job: Job, read: nat, run: nat)
    requires JobOk(job) && read <= job.measured
    requires Outlines(t, base, job.log, read)
    requires MovePages(t, PagesOf(job, -1), true, run).Some?
    ensures job.measured <= ReachedBy(job, -1)
    ensures Contents(MovePages(t, PagesOf(job, -1), true, run).value) == Scan(Contents(base), job.log[..ReachedBy(job, -1)])
  {
    BoundaryIsStart(job.log, -1, 0);
    var to := ReachedBy(job, -1);
    PagesAreSlice(job.log, job.views, 0, job.size);
    ReachedFloor(job.log, job.views, 0, job.size, job.measured);
    MovePagesIsStore(t, PagesOf(job, -1), true, run);
    StoreIsScan(t, job.log[0..to], run);
    OutlineRescanned(t, base, job.log, read, to);
  }

  lemma OutlineRescanned(t: Table, base: Table, log: seq<Row>, read: nat, to: nat)
    requires Outlines(t, base, log, read) && read <= to <= |log|
    ensures Scan(Contents(t), log[..to]) == Scan(Contents(base), log[..to])
  {
    var scan := Scan(Contents(base), log[..read]);
    assert log[0..to] == log[..to];
    OverlappingScans(Contents(base), log, 0, read, to);
    var a, b := Scan(Contents(t), log[..to]), Scan(scan, log[..to]);
    forall key ensures (key in a <==> key in b) && (key in a ==> a[key] == b[key]) {
      assert OutlineAt(t, base, log, read, key);
      assert log[..to] == log[..read] + log[read..to];
      LastConcat(log[..read], log[read..to], key);
      ScanAgrees(Contents(t), scan, log[..to], key);
    }
  }

  lemma {:induction false} LastConcat(a: seq<Row>, b: seq<Row>, key: string)
    ensures Last(a + b, key).None? ==> Last(a, key).None?
  {
    if b == [] {
      assert a + b == a;
    } else {
      assert (a + b)[..|a + b| - 1] == a + b[..|b| - 1];
      LastConcat(a, b[..|b| - 1], key);
    }
  }

  lemma SavedMarks(cs: map<Slot, Checkpoint>, jobs: seq<Job>, who: Source, i: nat, log: seq<Row>, read: nat, reached: nat)
    requires JobsOk(jobs) && i < |jobs| && Extends(jobs[i], log)
    requires Marks(cs, SlotOf(who, jobs[i]), jobs[i].append, who.fingerprint, log, read)
    requires read <= reached && jobs[i].measured <= reached
    ensures Marks(SaveAll(cs, jobs, who), SlotOf(who, jobs[i]), jobs[i].append, who.fingerprint, jobs[i].log, reached)
  {
    var job, slot := jobs[i], SlotOf(who, jobs[i]);
    SavedAt(cs, jobs, who, slot);
    if job.append {
      StartAtMeasured(job.log, job.measured);
      StartStays(job.log[..job.measured], job.log, -1);
    } else {
      assert forall k :: 0 <= k < |jobs| && SlotOf(who, jobs[k]) == slot ==> k == i;
    }
  }

  lemma OutlinesLonger(t: Table, base: Table, log: seq<Row>, longer: seq<Row>, read: nat)
    requires Outlines(t, base, log, read) && log <= longer
    ensures Outlines(t, base, longer, read)
  {
    assert log[..read] == longer[..read];
    forall key ensures OutlineAt(t, base, longer, read, key) {
      assert OutlineAt(t, base, log, read, key);
    }
  }

  lemma MovedHolds(plan: Plan, who: Source, base: map<string, Table>, w: World, e: Event, i: nat)
    requires Sound(plan, who, base, w) && e.Ours? && Possible(plan, w, e) && i < |plan|
    requires Present(w.db.tables, e.jobs) && Effective(w.db, who, e)
    ensures var job, reached := e.jobs[i], ReachedBy(e.jobs[i], CursorsUsed(w.db, who, e)[i]);
      && w.read[i] <= reached && job.measured <= reached
      && Migrated(Begun(w.db), who, e.mode, e.jobs, |w.db.runs| + 1).value.tables.Keys == w.db.tables.Keys
      && job.table in w.db.tables && job.table in base
      && Holds(Migrated(Begun(w.db), who, e.mode, e.jobs, |w.db.runs| + 1).value.tables[job.table],
               base[job.table], job.log, reached)
  {
    var begun, run, job := Begun(w.db), |w.db.runs| + 1, e.jobs[i];
    var cursors := CursorsUsed(w.db, who, e);
    assert Imported(plan, w, base, i) && Extends(job, w.logs[i]);
    CursorAt(begun, who, e.mode, e.jobs, i);
    assert CursorOf(begun, who, e.mode, job) == CursorOf(w.db, who, e.mode, job);
    CursorWithinRead(plan, who, base, w, e.mode, job, i);
    MovedAt(begun.tables, e.jobs, cursors, true, run, i);
    assert job.log[..w.read[i]] == w.logs[i][..w.read[i]];
    if job.append {
      MoveExtendsScan(w.db.tables[job.table], base[job.table], job, w.read[i], cursors[i], run);
    } else {
      OutlinesLonger(w.db.tables[job.table], base[job.table], w.logs[i], job.log, w.read[i]);
      RescanIsScan(w.db.tables[job.table], base[job.table], job, w.read[i], run);
    }
  }

  predicate TakesEffect(plan: Plan, who: Source, w: World, e: Event) {
    Possible(plan, w, e) && e.Ours? && Present(w.db.tables, e.jobs) && Effective(w.db, who, e)
  }

  ghost predicate TableSound(plan: Plan, who: Source, base: map<string, Table>, w: World, i: nat) {
    Shaped(plan, w) && i < |plan| && Imported(plan, w, base, i) && CheckpointOk(plan, who, w, i)
  }

  lemma TablesSound(plan: Plan, who: Source, base: map<string, Table>, w: World)
    requires plan != [] && forall i: nat :: i < |plan| ==> TableSound(plan, who, base, w, i)
    ensures Sound(plan, who, base, w)
  {
    assert TableSound(plan, who, base, w, 0);
    forall i | 0 <= i < |plan| ensures Imported(plan, w, base, i) && CheckpointOk(plan, who, w, i) {
      assert TableSound(plan, who, base, w, i);
    }
  }

  lemma EffectiveRunAt(plan: Plan, who: Source, base: map<string, Table>, w: World, e: Event, i: nat)
    requires Sound(plan, who, base, w) && TakesEffect(plan, who, w, e) && i < |plan|
    ensures TableSound(plan, who, base, After(plan, who, w, e), i)
    ensures After(plan, who, w, e).read[i] >= e.jobs[i].measured
    ensures Holds(After(plan, who, w, e).db.tables[plan[i].table], base[plan[i].table], e.jobs[i].log, After(plan, who, w, e).read[i])
  {
    MovedHolds(plan, who, base, w, e, i);
    HoldsOutlines(After(plan, who, w, e).db.tables[plan[i].table], base[plan[i].table], e.jobs[i].log,
                  After(plan, who, w, e).read[i]);
    assert CheckpointOk(plan, who, w, i) && Extends(e.jobs[i], w.logs[i]);
    SavedMarks(w.db.checkpoints, e.jobs, who, i, w.logs[i], w.read[i],
               ReachedBy(e.jobs[i], CursorsUsed(w.db, who, e)[i]));
  }

  // ---- every event, every history ----

  /** A run that takes no effect leaves tables and checkpoints alone. */
  lemma FailedRunChangesNothing(db: Db, who: Source, e: Event)
    requires e.Ours? && JobsOk(e.jobs) && Present(db.tables, e.jobs) && !Effective(db, who, e)
    ensures var after := RunResult(db, who, e.mode, e.apply, e.connected, e.jobs, e.fault);
      after.tables == db.tables && after.checkpoints == db.checkpoints
      && forall run :: run in after.runs && run.Completed? ==> run in db.runs
  {
  }

  /** An incremental run against a source with another fingerprint is refused. */
  lemma ForeignChangesNothing(plan: Plan, who: Source, base: map<string, Table>, w: World, e: Event)
    requires PlanOk(plan) && Sound(plan, who, base, w) && e.Foreign? && Possible(plan, w, e) && e.fingerprint != who.fingerprint
    ensures After(plan, who, w, e).db.tables == w.db.tables
    ensures After(plan, who, w, e).db.checkpoints == w.db.checkpoints
  {
    FitsPresent(plan, w, e.jobs);
    var i :| 0 <= i < |plan| && plan[i].append;
    assert CheckpointOk(plan, who, w, i);
    CursorErr(Begun(w.db), who.(fingerprint := e.fingerprint), Incremental, e.jobs, i);
  }

  lemma LongerLogOk(plan: Plan, who: Source, base: map<string, Table>, w: World, w': World, i: nat)
    requires Shaped(plan, w) && Shaped(plan, w') && i < |plan|
    requires Imported(plan, w, base, i) && CheckpointOk(plan, who, w, i)
    requires w'.db.tables == w.db.tables && w'.db.checkpoints == w.db.checkpoints
    requires w'.read == w.read && w.logs[i] <= w'.logs[i]
    ensures Imported(plan, w', base, i) && CheckpointOk(plan, who, w', i)
  {
    var slot := Slot(who.profile, who.key, plan[i].table);
    if slot in w.db.checkpoints {
      StartStays(w.logs[i], w'.logs[i], w.db.checkpoints[slot].lastId);
    }
    OutlinesLonger(w.db.tables[plan[i].table], base[plan[i].table], w.logs[i], w'.logs[i], w.read[i]);
    assert w.logs[i][..w.read[i]] == w'.logs[i][..w.read[i]];
  }

  lemma ChangeSound(plan: Plan, who: Source, base: map<string, Table>, w: World, e: Event)
    requires Sound(plan, who, base, w) && e.Change? && Possible(plan, w, e)
    ensures Sound(plan, who, base, After(plan, who, w, e))
  {
    var w' := After(plan, who, w, e);
    forall i | 0 <= i < |plan| ensures Shaped(plan, w') && Imported(plan, w', base, i) && CheckpointOk(plan, who, w', i) {
      assert Imported(plan, w, base, i) && CheckpointOk(plan, who, w, i);
      if i == e.i {
        ChangeKeepsOutline(w.db.tables[plan[i].table], base[plan[i].table], w.logs[i], e.rows, w.read[i]);
      }
    }
  }

  predicate Legal(plan: Plan, who: Source, w: World, e: Event) {
    Possible(plan, w, e) && (e.Foreign? ==> e.fingerprint != who.fingerprint)
  }

  lemma EffectiveSound(plan: Plan, who: Source, base: map<string, Table>, w: World, e: Event)
    requires plan != [] && Sound(plan, who, base, w) && TakesEffect(plan, who, w, e)
    ensures Sound(plan, who, base, After(plan, who, w, e))
  {
    var w' := After(plan, who, w, e);
    forall i: nat | i < |plan| ensures TableSound(plan, who, base, w', i) {
      EffectiveRunAt(plan, who, base, w, e, i);
    }
    TablesSound(plan, who, base, w');
  }

  lemma StepSound(plan: Plan, who: Source, base: map<string, Table>, w: World, e: Event)
    requires PlanOk(plan) && w in SoundWorlds(plan, who, base) && Legal(plan, who, w, e)
    ensures After(plan, who, w, e) in SoundWorlds(plan, who, base)
    ensures e.Ours? ==> Present(w.db.tables, e.jobs)
  {
    var w' := After(plan, who, w, e);
    if e.Ours? {
      FitsPresent(plan, w, e.jobs);
      forall i | 0 <= i < |plan| ensures Extends(e.jobs[i], w.logs[i]) && JobOk(e.jobs[i]) {
      }
    }
    if e.Change? {
      ChangeSound(plan, who, base, w, e);
    } else if e.Ours? && Effective(w.db, who, e) {
      EffectiveSound(plan, who, base, w, e);
    } else {
      if e.Foreign? { ForeignChangesNothing(plan, who, base, w, e); }
      assert Shaped(plan, w');
      forall i | 0 <= i < |plan| ensures Imported(plan, w', base, i) && CheckpointOk(plan, who, w', i) {
        assert Imported(plan, w, base, i) && CheckpointOk(plan, who, w, i);
        LongerLogOk(plan, who, base, w, w', i);
      }
    }
  }

  /** Before the first run: no checkpoint of this source, nothing imported. */
  predicate Fresh(plan: Plan, who: Source, w: World) {
    && Shaped(plan, w)
    && (forall i :: 0 <= i < |plan| ==> w.read[i] == 0 && Slot(who.profile, who.key, plan[i].table) !in w.db.checkpoints)
  }

  ghost predicate History(plan: Plan, who: Source, ws: seq<World>, es: seq<Event>) {
    && PlanOk(plan) && |ws| == |es| + 1 && Fresh(plan, who, ws[0])
    && forall i :: 0 <= i < |es| ==> Becomes(plan, who, ws[i], es[i], ws[i + 1])
  }

  predicate Becomes(plan: Plan, who: Source, w: World, e: Event, w': World) {
    Legal(plan, who, w, e) && w' == After(plan, who, w, e)
  }

  lemma {:induction false} HistorySound(plan: Plan, who: Source, ws: seq<World>, es: seq<Event>, n: nat)
    requires History(plan, who, ws, es) && n < |ws|
    ensures ws[n] in SoundWorlds(plan, who, ws[0].db.tables)
  {
    if n == 0 {
      FreshSound(plan, who, ws[0]);
    } else {
      HistorySound(plan, who, ws, es, n - 1);
      HistoryStep(plan, who, ws, es, n - 1);
      StepSound(plan, who, ws[0].db.tables, ws[n - 1], es[n - 1]);
    }
  }

  lemma FreshSound(plan: Plan, who: Source, w: World)
    requires Fresh(plan, who, w)
    ensures w in SoundWorlds(plan, who, w.db.tables)
  {
    forall i | 0 <= i < |plan| ensures Imported(plan, w, w.db.tables, i) && CheckpointOk(plan, who, w, i) {
      assert w.logs[i][..0] == [];
      HoldsOutlines(w.db.tables[plan[i].table], w.db.tables[plan[i].table], w.logs[i], 0);
    }
  }

  lemma HistoryStep(plan: Plan, who: Source, ws: seq<World>, es: seq<Event>, n: nat)
    requires History(plan, who, ws, es) && n < |es|
    ensures PlanOk(plan) && Becomes(plan, who, ws[n], es[n], ws[n + 1])
  {
  }

  /** Whatever happened, each appended table is one scan, in id order, of a prefix of its source; a
      rescanned one has the keys and ids of such a scan. */
  lemma Convergence(plan: Plan, who: Source, ws: seq<World>, es: seq<Event>, n: nat, i: nat)
    requires History(plan, who, ws, es) && n < |ws| && i < |plan|
    ensures Shaped(plan, ws[n]) && plan[i].table in ws[0].db.tables && ws[n].read[i] <= |ws[n].logs[i]|
    ensures plan[i].append ==>
      (Contents(ws[n].db.tables[plan[i].table])
       == Scan(Contents(ws[0].db.tables[plan[i].table]), ws[n].logs[i][..ws[n].read[i]]))
    ensures Outlines(ws[n].db.tables[plan[i].table], ws[0].db.tables[plan[i].table], ws[n].logs[i], ws[n].read[i])
  {
    HistorySound(plan, who, ws, es, n);
    assert Imported(plan, ws[n], ws[0].db.tables, i);
  }

  /** Every source row at or below the checkpoint is in the target, under its conflict key, with
      the content of the last row read for that key. */
  lemma CheckpointedRowsAreThere(plan: Plan, who: Source, ws: seq<World>, es: seq<Event>, n: nat, i: nat, r: nat)
    requires History(plan, who, ws, es) && n < |ws| && i < |plan|
    requires Slot(who.profile, who.key, plan[i].table) in ws[n].db.checkpoints
    requires Shaped(plan, ws[n]) && r < |ws[n].logs[i]|
    requires ws[n].logs[i][r].id <= ws[n].db.checkpoints[Slot(who.profile, who.key, plan[i].table)].lastId
    ensures var row, t, read := ws[n].logs[i][r], ws[n].db.tables[plan[i].table], ws[n].logs[i][..Min(ws[n].read[i], |ws[n].logs[i]|)];
      && r < |read| && row.key in t && Last(read, row.key).Some?
      && Last(read, row.key).value.id >= row.id
      && t[row.key].cell.id == Last(read, row.key).value.id && t[row.key].cell.content == Last(read, row.key).value.content
  {
    HistorySound(plan, who, ws, es, n);
    assert Imported(plan, ws[n], ws[0].db.tables, i) && CheckpointOk(plan, who, ws[n], i);
    var log, read := ws[n].logs[i], ws[n].read[i];
    var id := ws[n].db.checkpoints[Slot(who.profile, who.key, plan[i].table)].lastId;
    StartIsBoundary(log, id);
    assert Below(log, id, r);
    LastAtLeast(log[..read], r);
    ScanKeepsLast(Contents(ws[0].db.tables[plan[i].table]), log[..read], log[r].key);
  }

  lemma {:induction false} LastAtLeast(rows: seq<Row>, r: nat)
    requires Ascending(rows) && r < |rows|
    ensures Last(rows, rows[r].key).Some? && Last(rows, rows[r].key).value.id >= rows[r].id
    ensures Last(rows, rows[r].key).value.key == rows[r].key && Last(rows, rows[r].key).value in rows
  {
    if r < |rows| - 1 {
      LastAtLeast(rows[..|rows| - 1], r);
    }
  }

  /** A run that completes while the source is quiet leaves what one full scan would leave, in
      rescanned tables too, however their rows changed before it. */
  lemma CompletedRunIsFullScan(plan: Plan, who: Source, ws: seq<World>, es: seq<Event>, i: nat)
    requires History(plan, who, ws, es) && es != [] && i < |plan|
    requires var n := |es| - 1;
      es[n].Ours? && ws[n + 1].db.runs == ws[n].db.runs + [Completed] && ws[n + 1].logs == ws[n].logs
    ensures plan[i].table in ws[0].db.tables && |ws[|es|].logs| == |plan| && plan[i].table in ws[|es|].db.tables
    ensures Contents(ws[|es|].db.tables[plan[i].table])
      == Scan(Contents(ws[0].db.tables[plan[i].table]), ws[|es|].logs[i])
  {
    var n := |es| - 1;
    var w, e := ws[n], es[n];
    HistoryStep(plan, who, ws, es, n);
    HistorySound(plan, who, ws, es, n);
    assert Sound(plan, who, ws[0].db.tables, w);
    FitsPresent(plan, w, e.jobs);
    assert Effective(w.db, who, e) by {
      assert ws[n + 1].db.runs[|w.db.runs|] == Completed;
    }
    EffectiveRunAt(plan, who, ws[0].db.tables, w, e, i);
    assert Extends(e.jobs[i], w.logs[i]) && e.jobs[i].log == ws[n + 1].logs[i];
    assert ws[n + 1].logs[i][..ws[n + 1].read[i]] == ws[n + 1].logs[i];
  }

  /** Two histories over the same source, however they went, agree after a completed quiet run. */
  lemma HistoriesAgree(plan: Plan, who: Source, ws: seq<World>, es: seq<Event>, vs: seq<World>, fs: seq<Event>, i: nat)
    requires History(plan, who, ws, es) && History(plan, who, vs, fs) && es != [] && fs != [] && i < |plan|
    requires es[|es| - 1].Ours? && fs[|fs| - 1].Ours?
    requires ws[|es|].db.runs == ws[|es| - 1].db.runs + [Completed] && ws[|es|].logs == ws[|es| - 1].logs
    requires vs[|fs|].db.runs == vs[|fs| - 1].db.runs + [Completed] && vs[|fs|].logs == vs[|fs| - 1].logs
    requires ws[0].db.tables == vs[0].db.tables && ws[|es|].logs == vs[|fs|].logs
    ensures plan[i].table in ws[|es|].db.tables && plan[i].table in vs[|fs|].db.tables
    ensures Contents(ws[|es|].db.tables[plan[i].table]) == Contents(vs[|fs|].db.tables[plan[i].table])
  {
    CompletedRunIsFullScan(plan, who, ws, es, i);
    CompletedRunIsFullScan(plan, who, vs, fs, i);
  }

  // ---- when a run succeeds ----

  lemma {:induction false} MoveAllIff(tables: map<string, Table>, jobs: seq<Job>, cursors: seq<int>, write: bool, run: nat)
    requires JobsOk(jobs) && |cursors| == |jobs| && Present(tables, jobs)
    ensures MoveAll(tables, jobs, cursors, write, run).Some? <==> AllPagesGood(jobs, cursors, write)
  {
    if jobs != [] {
      var last := |jobs| - 1;
      MoveAllIff(tables, jobs[..last], cursors[..last], write, run);
      var before := MoveAll(tables, jobs[..last], cursors[..last], write, run);
      if before.Some? {
        MovePagesIsStore(before.value[jobs[last].table], PagesOf(jobs[last], cursors[last]), write, run);
      }
    }
  }

  predicate AllPagesGood(jobs: seq<Job>, cursors: seq<int>, write: bool)
    requires JobsOk(jobs) && |cursors| == |jobs|
  {
    jobs == [] ||
    (AllPagesGood(jobs[..|jobs| - 1], cursors[..|jobs| - 1], write)
     && PagesGood(jobs[|jobs| - 1], cursors[|jobs| - 1], write))
  }

  lemma {:induction false} AllPagesGoodIff(jobs: seq<Job>, cursors: seq<int>, write: bool)
    requires JobsOk(jobs) && |cursors| == |jobs|
    ensures AllPagesGood(jobs, cursors, write) <==> forall i :: 0 <= i < |jobs| ==> PagesGood(jobs[i], cursors[i], write)
  {
    if jobs != [] {
      AllPagesGoodIff(jobs[..|jobs| - 1], cursors[..|jobs| - 1], write);
    }
  }

  predicate PagesGood(job: Job, after: int, write: bool)
    requires JobOk(job)
  {
    forall p :: p in PagesOf(job, after) ==> GoodPage(p, write)
  }

  /** The block of `size` rows that row `n` falls in. */
  function Block(n: nat, size: nat): nat
    requires size >= 1
  {
    if n < size then 0 else 1 + Block(n - size, size)
  }

  predicate Clash(log: seq<Row>, from: nat, size: nat, i: nat, j: nat)
    requires size >= 1
  {
    from <= i < j < |log| && Block(i - from, size) == Block(j - from, size) && log[i].key == log[j].key
  }

  /** The pages of a quiet source are its blocks of `size` rows. */
  ghost predicate BlocksGood(log: seq<Row>, from: nat, size: nat)
    requires size >= 1
  {
    && (forall i :: from <= i < |log| ==> log[i].valid)
    && (forall i: nat, j: nat :: !Clash(log, from, size, i, j))
  }

  lemma {:induction false} QuietPages(log: seq<Row>, from: nat, size: nat)
    requires size >= 1 && from <= |log|
    ensures (forall p :: p in Pages(log, [], from, size) ==> GoodPage(p, true)) <==> BlocksGood(log, from, size)
    decreases |log| - from
  {
    if from < |log| {
      var to := Min(|log|, from + size);
      QuietPages(log, to, size);
      var page, rest := log[from..to], Pages(log, [], to, size);
      assert Pages(log, [], from, size) == [page] + rest;
      FirstBlock(log, from, size);
    }
  }

  lemma FirstBlock(log: seq<Row>, from: nat, size: nat)
    requires size >= 1 && from < |log|
    ensures var to := Min(|log|, from + size);
      BlocksGood(log, from, size) <==> GoodPage(log[from..to], true) && BlocksGood(log, to, size)
  {
    var to := Min(|log|, from + size);
    var page := log[from..to];
    assert forall i :: from <= i < to ==> page[i - from] == log[i];
    forall i: nat, j: nat
      ensures i < to ==> (Clash(log, from, size, i, j) <==> from <= i < j < to && page[i - from].key == page[j - from].key)
      ensures i >= to ==> (Clash(log, from, size, i, j) <==> Clash(log, to, size, i, j))
    {
    }
    if BlocksGood(log, from, size) {
      forall i, j | 0 <= i < j < |page| ensures page[i].key != page[j].key {
        assert !Clash(log, from, size, from + i, from + j);
      }
      assert forall i: nat, j: nat :: Clash(log, to, size, i, j) ==> Clash(log, from, size, i, j);
    }
    if GoodPage(page, true) && BlocksGood(log, to, size) {
      assert forall i :: from <= i < to ==> log[i] == page[i - from];
      assert forall i: nat, j: nat :: Clash(log, from, size, i, j) && i >= to ==> Clash(log, to, size, i, j);
    }
  }

  /** A table of a quiet source can be migrated from where the run must start: every row from there
      maps, and no block of `size` consecutive rows repeats a conflict key. An incremental run starts
      an appended table behind the checkpoint, which must be there, under this fingerprint and not
      beyond the source. */
  ghost predicate Readable(db: Db, who: Source, mode: Mode, job: Job)
    requires JobOk(job)
  {
    if mode.Full? || !job.append then BlocksGood(job.log, 0, job.size)
    else
      var slot := SlotOf(who, job);
      && slot in db.checkpoints && db.checkpoints[slot].fingerprint == who.fingerprint
      && db.checkpoints[slot].lastId <= EndId(job)
      && BlocksGood(job.log, Start(job.log, db.checkpoints[slot].lastId), job.size)
  }

  lemma ReadableIff(db: Db, who: Source, mode: Mode, job: Job)
    requires JobOk(job) && job.views == []
    ensures Readable(db, who, mode, job)
      <==> CursorOf(db, who, mode, job).Ok? && PagesGood(job, CursorOf(db, who, mode, job).value, true)
  {
    if CursorOf(db, who, mode, job).Ok? {
      var after := CursorOf(db, who, mode, job).value;
      BoundaryIsStart(job.log, -1, 0);
      QuietPages(job.log, Start(job.log, after), job.size);
    }
  }

  /** Exactly when a run over a quiet source can be applied, in either mode. */
  lemma RunSucceedsIff(db: Db, who: Source, mode: Mode, jobs: seq<Job>, run: nat)
    requires JobsOk(jobs) && Present(db.tables, jobs)
    requires forall i :: 0 <= i < |jobs| ==> jobs[i].views == []
    ensures Migrated(db, who, mode, jobs, run).Some? <==> forall i :: 0 <= i < |jobs| ==> Readable(db, who, mode, jobs[i])
  {
    forall i | 0 <= i < |jobs|
      ensures Readable(db, who, mode, jobs[i])
        <==> CursorOf(db, who, mode, jobs[i]).Ok? && PagesGood(jobs[i], CursorOf(db, who, mode, jobs[i]).value, true)
    {
      ReadableIff(db, who, mode, jobs[i]);
    }
    CursorsIff(db, who, mode, jobs);
    if CursorsOf(db, who, mode, jobs).Ok? {
      var cursors := CursorsOf(db, who, mode, jobs).value;
      MoveAllIff(db.tables, jobs, cursors, true, run);
      AllPagesGoodIff(jobs, cursors, true);
      forall i | 0 <= i < |jobs| ensures CursorOf(db, who, mode, jobs[i]) == Ok(cursors[i]) {
        CursorAt(db, who, mode, jobs, i);
      }
    }
  }

  lemma {:induction false} CursorsIff(db: Db, who: Source, mode: Mode, jobs: seq<Job>)
    requires JobsOk(jobs)
    ensures CursorsOf(db, who, mode, jobs).Ok? <==> forall i :: 0 <= i < |jobs| ==> CursorOf(db, who, mode, jobs[i]).Ok?
  {
    if jobs != [] {
      CursorsIff(db, who, mode, jobs[..|jobs| - 1]);
    }
  }

  /** Exactly when a full run over a quiet source can be applied: every row maps, and no block of
      `size` consecutive rows repeats a conflict key. */
  lemma FullRunSucceedsIff(db: Db, who: Source, jobs: seq<Job>, run: nat)
    requires JobsOk(jobs) && Present(db.tables, jobs)
    requires forall i :: 0 <= i < |jobs| ==> jobs[i].views == []
    ensures Migrated(db, who, Full, jobs, run).Some?
      <==> forall i :: 0 <= i < |jobs| ==> BlocksGood(jobs[i].log, 0, jobs[i].size)
  {
    RunSucceedsIff(db, who, Full, jobs, run);
    assert forall i :: 0 <= i < |jobs| ==> (Readable(db, who, Full, jobs[i]) <==> BlocksGood(jobs[i].log, 0, jobs[i].size));
  }

  /** The condition is a real one: two rows with one conflict key, imported by separate runs,
      make every later full run fail although each incremental run completes. */
  lemma FullRunCanBeStuck(who: Source)
    ensures var before, after := OneRow(), TwoRows();
      var db := Db(map["hall" := map[]], map[], []);
      && JobsOk([before]) && JobsOk([after])
      && var imported := Migrated(db, who, Full, [before], 1);
         && imported.Some?
         && Migrated(imported.value, who, Incremental, [after], 2).Some?
         && Migrated(imported.value, who, Full, [after], 2).None?
  {
    var before, after := OneRow(), TwoRows();
    var db := Db(map["hall" := map[]], map[], []);
    OneRowImported(db, who);
    var imported := Migrated(db, who, Full, [before], 1).value;
    FullRunSucceedsIff(imported, who, [after], 2);
    assert Clash(after.log, 0, 250, 0, 1);
    SecondRowImported(imported, who);
  }

  function OneRow(): Job {
    Job("hall", 250, true, [Row(1, "k", "", "a", true)], 1, [])
  }

  function TwoRows(): Job {
    Job("hall", 250, true, [Row(1, "k", "", "a", true), Row(2, "k", "", "b", true)], 2, [])
  }

  lemma OneRowImported(db: Db, who: Source)
    requires db == Db(map["hall" := map[]], map[], [])
    ensures JobsOk([OneRow()])
    ensures var imported := Migrated(db, who, Full, [OneRow()], 1);
      && imported.Some? && "hall" in imported.value.tables
      && imported.value.checkpoints == map[Slot(who.profile, who.key, "hall") := Checkpoint(who.fingerprint, 1)]
  {
    var job := OneRow();
    FullRunSucceedsIff(db, who, [job], 1);
    assert BlocksGood(job.log, 0, 250);
    assert [job][..0] == [];
    MaxIsLast(job.log[..1]);
    assert SaveAll(map[], [], who) == map[];
  }

  lemma SecondRowImported(db: Db, who: Source)
    requires "hall" in db.tables
    requires db.checkpoints == map[Slot(who.profile, who.key, "hall") := Checkpoint(who.fingerprint, 1)]
    ensures JobsOk([TwoRows()]) && Migrated(db, who, Incremental, [TwoRows()], 2).Some?
  {
    var job := TwoRows();
    assert job.log[..2] == job.log;
    MaxIsLast(job.log);
    assert EndId(job) == 2;
    BoundaryIsStart(job.log, 1, 1);
    assert BlocksGood(job.log, 1, 250);
    RunSucceedsIff(db, who, Incremental, [job], 2);
  }
}
