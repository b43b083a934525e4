/** Importing battle-result seasons, one transaction and one checkpoint per season. */
module BattleResults {
  import opened Common
  import opened BattleResultSource

  const MAX_ROWS: nat := 100
  const MAX_BYTES: nat := 4 * 1024 * 1024

  datatype Mode = Full | Incremental

  datatype Check = Check(fingerprint: string, manifest: Manifest)

  datatype Source = Source(key: string, fingerprint: string)

  /** Rows by season and general number, shared by all sources of a profile; checkpoints by source
      key and season. */
  datatype Db = Db(rows: map<string, map<nat, string>>, checkpoints: map<string, map<string, Check>>)

  datatype Fault = NoFault | Breaks | CommitUnseen(applied: bool)

  /** What other sources did while a season was imported: the target as they left it when the
      transaction ends, and the general numbers of this season they stored after its delete, which
      the delete could not see. */
  datatype Others = Others(found: Db, spared: set<nat>)

  /** What happens while a pending season is imported: what re-reading it gives, a fault, and what
      others did meanwhile, if they did anything. */
  datatype Turn = Turn(read: Option<seq<File>>, fault: Fault, during: Option<Others>)

  function RowsOf(db: Db, s: string): map<nat, string> {
    if s in db.rows then db.rows[s] else map[]
  }

  function ChecksOf(db: Db, source: string): map<string, Check> {
    if source in db.checkpoints then db.checkpoints[source] else map[]
  }

  function WithCheck(db: Db, source: string, s: string, c: Check): Db {
    db.(checkpoints := db.checkpoints[source := ChecksOf(db, source)[s := c]])
  }

  function WithSeason(db: Db, s: string, rows: map<nat, string>): Db {
    db.(rows := db.rows[s := rows])
  }

  lemma WithSeasonTwice(db: Db, s: string, a: map<nat, string>, b: map<nat, string>)
    ensures WithSeason(WithSeason(db, s, a), s, b) == WithSeason(db, s, b)
    ensures RowsOf(WithSeason(db, s, a), s) == a
  {
  }

  function Stored(files: seq<File>): map<nat, string> {
    if files == [] then map[] else Stored(files[..|files| - 1])[files[|files| - 1].generalNo := files[|files| - 1].content]
  }

  lemma {:induction false} StoredKeys(files: seq<File>, n: nat)
    ensures n in Stored(files) <==> exists f :: f in files && f.generalNo == n
    ensures n in Stored(files) ==> File(n, Stored(files)[n]) in files
  {
    if files != [] {
      var last := |files| - 1;
      StoredKeys(files[..last], n);
      assert files == files[..last] + [files[last]];
    }
  }

  lemma {:induction false} StoredFile(files: seq<File>, i: nat)
    requires Ascending(files) && i < |files|
    ensures files[i].generalNo in Stored(files) && Stored(files)[files[i].generalNo] == files[i].content
  {
    var last := |files| - 1;
    if i < last {
      StoredFile(files[..last], i);
      assert files[i].generalNo < files[last].generalNo;
    }
  }

  lemma {:induction false} StoredCount(files: seq<File>)
    requires Ascending(files)
    ensures |Stored(files)| == |files|
  {
    if files != [] {
      var last := |files| - 1;
      StoredCount(files[..last]);
      StoredKeys(files[..last], files[last].generalNo);
      assert files[last].generalNo !in Stored(files[..last]);
    }
  }

  /** A season's rows are its files: one row per file, nothing else. */
  lemma {:induction false} StoredIsFiles(files: seq<File>)
    requires Ascending(files)
    ensures forall f :: f in files ==> f.generalNo in Stored(files) && Stored(files)[f.generalNo] == f.content
    ensures forall n :: n in Stored(files) ==> File(n, Stored(files)[n]) in files
    ensures |Stored(files)| == |files|
  {
    forall f | f in files ensures f.generalNo in Stored(files) && Stored(files)[f.generalNo] == f.content {
      var i :| 0 <= i < |files| && files[i] == f;
      StoredFile(files, i);
    }
    forall n | n in Stored(files) ensures File(n, Stored(files)[n]) in files {
      StoredKeys(files, n);
    }
    StoredCount(files);
  }

  // ---- deciding what is pending ----

  predicate SameManifest(c: Check, m: Manifest) {
    c.manifest.digest == m.digest && c.manifest.fileCount == m.fileCount && c.manifest.totalBytes == m.totalBytes
  }

  datatype Decision = Unchanged | Pending | Refused

  function Decide(cs: map<string, Check>, m: Manifest, mode: Mode, fingerprint: string): Decision {
    if m.serverId !in cs then Pending
    else if cs[m.serverId].fingerprint != fingerprint then Refused
    else if SameManifest(cs[m.serverId], m) then Unchanged
    else if mode.Incremental? then Refused
    else Pending
  }

  datatype Triaged = Triaged(kept: seq<Manifest>, todo: seq<Manifest>)

  function Place(t: Triaged, m: Manifest, d: Decision): Option<Triaged> {
    match d
    case Refused => None
    case Unchanged => Some(t.(kept := t.kept + [m]))
    case Pending => Some(t.(todo := t.todo + [m]))
  }

  /** The seasons split into unchanged and pending ones; None if one is refused. */
  function Triage(cs: map<string, Check>, ms: seq<Manifest>, mode: Mode, fingerprint: string): Option<Triaged> {
    if ms == [] then Some(Triaged([], [])) else
      match Triage(cs, ms[..|ms| - 1], mode, fingerprint)
      case None => None
      case Some(t) => Place(t, ms[|ms| - 1], Decide(cs, ms[|ms| - 1], mode, fingerprint))
  }

  predicate AllListed(cs: map<string, Check>, ms: seq<Manifest>) {
    forall s :: s in cs ==> Listed(ms, s)
  }

  predicate Plannable(cs: map<string, Check>, ms: seq<Manifest>, mode: Mode, fingerprint: string) {
    && AllListed(cs, ms)
    && (mode.Incremental? && ms != [] ==> cs != map[])
    && Triage(cs, ms, mode, fingerprint).Some?
  }

  /** A run is refused for its seasons exactly when one of them is refused. */
  lemma {:induction false} TriageIff(cs: map<string, Check>, ms: seq<Manifest>, mode: Mode, fingerprint: string)
    ensures Triage(cs, ms, mode, fingerprint).Some?
      <==> forall i :: 0 <= i < |ms| ==> !Decide(cs, ms[i], mode, fingerprint).Refused?
  {
    if ms != [] {
      TriageIff(cs, ms[..|ms| - 1], mode, fingerprint);
    }
  }

  lemma {:induction false} TriageStays(cs: map<string, Check>, ms: seq<Manifest>, mode: Mode, fingerprint: string, n: nat)
    requires n <= |ms| && Triage(cs, ms[..n], mode, fingerprint).None?
    ensures Triage(cs, ms, mode, fingerprint).None?
  {
    TriageIff(cs, ms[..n], mode, fingerprint);
    TriageIff(cs, ms, mode, fingerprint);
  }

  lemma TriageNext(cs: map<string, Check>, ms: seq<Manifest>, mode: Mode, fingerprint: string, n: nat)
    requires n < |ms| && Triage(cs, ms[..n], mode, fingerprint).Some?
    ensures Triage(cs, ms[..n + 1], mode, fingerprint)
      == Place(Triage(cs, ms[..n], mode, fingerprint).value, ms[n], Decide(cs, ms[n], mode, fingerprint))
  {
    assert ms[..n + 1][..n] == ms[..n];
  }

  datatype Tally = Tally(seasons: nat, files: nat, bytes: nat)

  function Add(t: Tally, m: Manifest): Tally {
    Tally(t.seasons + 1, t.files + m.fileCount, t.bytes + m.totalBytes)
  }

  function Total(ms: seq<Manifest>): Tally {
    if ms == [] then Tally(0, 0, 0) else Add(Total(ms[..|ms| - 1]), ms[|ms| - 1])
  }

  lemma TotalSnoc(ms: seq<Manifest>, m: Manifest)
    ensures Total(ms + [m]) == Add(Total(ms), m)
  {
    assert (ms + [m])[..|ms|] == ms;
  }

  /** Every discovered season is counted once: as unchanged or as pending. */
  lemma {:induction false} CountsAddUp(cs: map<string, Check>, ms: seq<Manifest>, mode: Mode, fingerprint: string)
    requires Triage(cs, ms, mode, fingerprint).Some?
    ensures var t := Triage(cs, ms, mode, fingerprint).value;
      && Total(t.kept).seasons + Total(t.todo).seasons == Total(ms).seasons == |ms|
      && Total(t.kept).files + Total(t.todo).files == Total(ms).files
      && Total(t.kept).bytes + Total(t.todo).bytes == Total(ms).bytes
      && |t.todo| <= |ms|
  {
    if ms != [] {
      var before, m := ms[..|ms| - 1], ms[|ms| - 1];
      CountsAddUp(cs, before, mode, fingerprint);
      PlaceAddsUp(Triage(cs, before, mode, fingerprint).value, Total(before), m, Decide(cs, m, mode, fingerprint));
    }
  }

  lemma PlaceAddsUp(t: Triaged, total: Tally, m: Manifest, d: Decision)
    requires !d.Refused?
    requires Total(t.kept).seasons + Total(t.todo).seasons == total.seasons
    requires Total(t.kept).files + Total(t.todo).files == total.files
    requires Total(t.kept).bytes + Total(t.todo).bytes == total.bytes
    ensures var after, sum := Place(t, m, d).value, Add(total, m);
      && Total(after.kept).seasons + Total(after.todo).seasons == sum.seasons
      && Total(after.kept).files + Total(after.todo).files == sum.files
      && Total(after.kept).bytes + Total(after.todo).bytes == sum.bytes
  {
    TotalSnoc(t.kept, m);
    TotalSnoc(t.todo, m);
  }

  /** Exactly the seasons decided to be pending are imported. */
  lemma {:induction false} TodoIsPending(cs: map<string, Check>, ms: seq<Manifest>, mode: Mode, fingerprint: string, m: Manifest)
    requires Triage(cs, ms, mode, fingerprint).Some?
    ensures m in Triage(cs, ms, mode, fingerprint).value.todo <==> m in ms && Decide(cs, m, mode, fingerprint).Pending?
  {
    if ms != [] {
      var before, last := ms[..|ms| - 1], ms[|ms| - 1];
      TodoIsPending(cs, before, mode, fingerprint, m);
      assert m in ms <==> m in before || m == last;
    }
  }

  method Plan(cs: map<string, Check>, ms: seq<Manifest>, mode: Mode, fingerprint: string)
    returns (r: Result<seq<Manifest>, string>, kept: Tally, pending: Tally)
    ensures r.Ok? <==> Plannable(cs, ms, mode, fingerprint)
    ensures r.Ok? ==> (
      var t := Triage(cs, ms, mode, fingerprint).value;
      r.value == t.todo && pending == Total(t.todo) && kept == Total(t.kept))
  {
    kept, pending := Tally(0, 0, 0), Tally(0, 0, 0);
    if !AllListed(cs, ms) { return Err("seasons disappeared from the source"), kept, pending; }
    if mode.Incremental? && |ms| > 0 && cs == map[] {
      return Err("a completed full checkpoint is required"), kept, pending;
    }
    var todo: seq<Manifest> := [];
    ghost var done: seq<Manifest> := [];
    for i := 0 to |ms|
      invariant Triage(cs, ms[..i], mode, fingerprint) == Some(Triaged(done, todo))
      invariant kept == Total(done) && pending == Total(todo)
    {
      var m := ms[i];
      TriageNext(cs, ms, mode, fingerprint, i);
      TotalSnoc(done, m);
      TotalSnoc(todo, m);
      match Decide(cs, m, mode, fingerprint)
      case Refused =>
        TriageStays(cs, ms, mode, fingerprint, i + 1);
        return Err("a season changed after its checkpoint"), kept, pending;
      case Unchanged =>
        kept, done := Add(kept, m), done + [m];
      case Pending =>
        pending, todo := Add(pending, m), todo + [m];
    }
    assert ms[..|ms|] == ms;
    r := Ok(todo);
  }

  // ---- one season ----

  predicate AllSmall(files: seq<File>) {
    forall f :: f in files ==> |f.content| <= MAX_FILE_BYTES
  }

  predicate Rereads(m: Manifest, read: Option<seq<File>>) {
    && read.Some?
    && AllSmall(read.value)
    && ManifestFor(m.serverId, read.value) == m
  }

  /** The rows written, among those the delete could not see. */
  function Merged(rows: map<nat, string>, spared: set<nat>, written: map<nat, string>): map<nat, string> {
    (map n | n in rows && n in spared :: rows[n]) + written
  }

  lemma MergedAlone(rows: map<nat, string>, written: map<nat, string>)
    ensures Merged(rows, {}, written) == written
  {
  }

  function WithImport(db: Db, m: Manifest, who: Source, spared: set<nat>): Db {
    WithCheck(WithSeason(db, m.serverId, Merged(RowsOf(db, m.serverId), spared, Stored(m.digest))),
              who.key, m.serverId, Check(who.fingerprint, m))
  }

  lemma WithImportAt(db: Db, m: Manifest, who: Source, spared: set<nat>, s: string, source: string)
    ensures RowsOf(WithImport(db, m, who, spared), s)
      == if s == m.serverId then Merged(RowsOf(db, s), spared, Stored(m.digest)) else RowsOf(db, s)
    ensures ChecksOf(WithImport(db, m, who, spared), source)
      == if source == who.key then ChecksOf(db, source)[m.serverId := Check(who.fingerprint, m)] else ChecksOf(db, source)
    ensures spared == {} ==> RowsOf(WithImport(db, m, who, spared), m.serverId) == Stored(m.digest)
  {
    var merged := Merged(RowsOf(db, m.serverId), spared, Stored(m.digest));
    assert WithSeason(db, m.serverId, merged).checkpoints == db.checkpoints;
    MergedAlone(RowsOf(db, m.serverId), Stored(m.digest));
  }

  /** The target as the turn's transaction finds it when it ends. */
  function Seen(db: Db, turn: Turn): Db {
    if turn.during.Some? then turn.during.value.found else db
  }

  function SparedBy(turn: Turn): set<nat> {
    if turn.during.Some? then turn.during.value.spared else {}
  }

  /** The transaction of one season: replace its rows, then record its checkpoint. */
  function ImportOne(db: Db, m: Manifest, turn: Turn, who: Source): (Db, bool) {
    var done := WithImport(Seen(db, turn), m, who, SparedBy(turn));
    if !Rereads(m, turn.read) || turn.fault.Breaks? then (Seen(db, turn), false)
    else if turn.fault.NoFault? then (done, true)
    else (if turn.fault.applied then done else Seen(db, turn), false)
  }

  function ImportAll(db: Db, ms: seq<Manifest>, turns: seq<Turn>, who: Source): (Db, bool)
    requires |turns| >= |ms|
  {
    if ms == [] then (db, true) else
      var last := |ms| - 1;
      var before := ImportAll(db, ms[..last], turns[..last], who);
      if before.1 then ImportOne(before.0, ms[last], turns[last], who) else before
  }

  function Flat(flushes: seq<seq<File>>): seq<File> {
    if flushes == [] then [] else Flat(flushes[..|flushes| - 1]) + flushes[|flushes| - 1]
  }

  predicate FlushOk(batch: seq<File>) {
    |batch| <= MAX_ROWS && TotalBytes(batch) <= MAX_BYTES
  }

  function AddAll(rows: map<nat, string>, files: seq<File>): map<nat, string> {
    if files == [] then rows
    else AddAll(rows, files[..|files| - 1])[files[|files| - 1].generalNo := files[|files| - 1].content]
  }

  lemma {:induction false} StoredConcat(a: seq<File>, b: seq<File>)
    ensures Stored(a + b) == AddAll(Stored(a), b)
  {
    if b == [] {
      assert a + b == a;
    } else {
      StoredConcat(a, b[..|b| - 1]);
      assert (a + b)[..|a + b| - 1] == a + b[..|b| - 1];
    }
  }

  /** One file joins the open batch, which is flushed first if the file would not fit. */
  function Take(flushes: seq<seq<File>>, batch: seq<File>, f: File): (seq<seq<File>>, seq<File>) {
    if |batch| >= MAX_ROWS || TotalBytes(batch) + |f.content| > MAX_BYTES
    then (flushes + [batch], [f])
    else (flushes, batch + [f])
  }

  /** The flushes made so far and the batch still open after reading these files. */
  function Batched(files: seq<File>): (seq<seq<File>>, seq<File>) {
    if files == [] then ([], []) else
      var before := Batched(files[..|files| - 1]);
      Take(before.0, before.1, files[|files| - 1])
  }

  function Flushes(files: seq<File>): seq<seq<File>> {
    Batched(files).0 + [Batched(files).1]
  }

  predicate FlushesOk(flushes: seq<seq<File>>) {
    forall i :: 0 <= i < |flushes| ==> FlushOk(flushes[i])
  }

  /** No file is lost, repeated or moved by batching. */
  lemma {:induction false} FlushesAreFiles(files: seq<File>)
    ensures Flat(Flushes(files)) == files
  {
    var now := Batched(files);
    FlatSnoc(now.0, now.1);
    if files != [] {
      var before, f := Batched(files[..|files| - 1]), files[|files| - 1];
      FlushesAreFiles(files[..|files| - 1]);
      FlatSnoc(before.0, before.1);
      assert files == files[..|files| - 1] + [f];
    }
  }

  /** Every flush holds at most 100 rows and 4 MiB. */
  lemma {:induction false} FlushesBounded(files: seq<File>)
    requires AllSmall(files)
    ensures FlushesOk(Flushes(files))
  {
    if files != [] {
      var before, f := Batched(files[..|files| - 1]), files[|files| - 1];
      FlushesBounded(files[..|files| - 1]);
      assert f in files;
      assert FlushOk((before.0 + [before.1])[|before.0|]);
      assert FlushesOk(before.0) by {
        assert forall i :: 0 <= i < |before.0| ==> before.0[i] == (before.0 + [before.1])[i];
      }
      assert (before.1 + [f])[..|before.1|] == before.1 && [f][..0] == [];
      assert FlushOk(Take(before.0, before.1, f).1);
    }
  }

  lemma FlatSnoc(flushes: seq<seq<File>>, batch: seq<File>)
    ensures Flat(flushes + [batch]) == Flat(flushes) + batch
  {
    assert (flushes + [batch])[..|flushes|] == flushes;
  }

  /** A flush appends its batch to the season's rows. */
  lemma FlushedRows(was: Db, s: string, flushes: seq<seq<File>>, batch: seq<File>)
    ensures var now := WithSeason(was, s, Stored(Flat(flushes)));
      WithSeason(now, s, AddAll(RowsOf(now, s), batch)) == WithSeason(was, s, Stored(Flat(flushes + [batch])))
  {
    StoredConcat(Flat(flushes), batch);
    FlatSnoc(flushes, batch);
    WithSeasonTwice(was, s, Stored(Flat(flushes)), Stored(Flat(flushes + [batch])));
  }

  lemma RereadFlushes(m: Manifest, read: Option<seq<File>>)
    requires Rereads(m, read)
    ensures Flat(Flushes(m.digest)) == m.digest && FlushesOk(Flushes(m.digest))
  {
    SortSound(read.value);
    FlushesAreFiles(m.digest);
    FlushesBounded(m.digest);
  }

  class Importer {
    var db: Db

    constructor (db0: Db)
      ensures db == db0
    {
      db := db0;
    }

    method Flush(s: string, batch: seq<File>)
      modifies this
      ensures db == WithSeason(old(db), s, AddAll(RowsOf(old(db), s), batch))
    {
      db := WithSeason(db, s, AddAll(RowsOf(db, s), batch));
    }

    /** The flush loop, on a season just cleared. */
    method WriteFlushes(s: string, files: seq<File>, ghost was: Db) returns (ghost flushes: seq<seq<File>>)
      requires db == WithSeason(was, s, map[])
      modifies this
      ensures flushes == Flushes(files)
      ensures db == WithSeason(was, s, Stored(files))
    {
      var batch: seq<File> := [];
      var batchBytes := 0;
      flushes := [];
      for i := 0 to |files|
        invariant (flushes, batch) == Batched(files[..i]) && batchBytes == TotalBytes(batch)
        invariant db == WithSeason(was, s, Stored(Flat(flushes)))
      {
        assert files[..i + 1][..i] == files[..i];
        if |batch| >= MAX_ROWS || batchBytes + |files[i].content| > MAX_BYTES {
          FlushedRows(was, s, flushes, batch);
          Flush(s, batch);
          flushes := flushes + [batch];
          batch, batchBytes := [], 0;
        }
        assert (batch + [files[i]])[..|batch|] == batch;
        batch := batch + [files[i]];
        batchBytes := batchBytes + |files[i].content|;
      }
      assert files[..|files|] == files;
      FlushedRows(was, s, flushes, batch);
      Flush(s, batch);
      flushes := flushes + [batch];
      FlushesAreFiles(files);
    }

    /** Rewrites a season in bounded flushes that together are its files in order. */
    method UpsertSeason(m: Manifest, read: Option<seq<File>>) returns (ok: bool, ghost flushes: seq<seq<File>>)
      modifies this
      ensures ok <==> Rereads(m, read)
      ensures db == if ok then WithSeason(old(db), m.serverId, Stored(m.digest)) else old(db)
      ensures ok ==> Flat(flushes) == m.digest && FlushesOk(flushes)
    {
      flushes := [];
      if read.None? || !AllSmall(read.value) { return false, flushes; }
      var loaded := ManifestFor(m.serverId, read.value);
      if loaded != m { return false, flushes; }
      db := WithSeason(db, m.serverId, map[]);
      flushes := WriteFlushes(m.serverId, loaded.digest, old(db));
      RereadFlushes(m, read);
      ok := true;
    }

    /** Others' commits become visible in the rows this transaction did not lock. */
    method JoinOthers(s: string, turn: Turn, ghost saved: Db, ghost written: map<nat, string>)
      requires db == WithSeason(saved, s, written)
      modifies this
      ensures db == WithSeason(Seen(saved, turn), s, Merged(RowsOf(Seen(saved, turn), s), SparedBy(turn), written))
    {
      WithSeasonTwice(saved, s, written, written);
      MergedAlone(RowsOf(saved, s), written);
      if turn.during.Some? {
        var found := turn.during.value.found;
        db := WithSeason(found, s, Merged(RowsOf(found, s), turn.during.value.spared, RowsOf(db, s)));
      }
    }

    method ImportSeason(m: Manifest, turn: Turn, who: Source) returns (ok: bool)
      modifies this
      ensures (db, ok) == ImportOne(old(db), m, turn, who)
    {
      var saved := if turn.during.Some? then turn.during.value.found else db;
      var upserted, _ := UpsertSeason(m, turn.read);
      if !upserted || turn.fault.Breaks? {
        db := saved;
        return false;
      }
      JoinOthers(m.serverId, turn, old(db), Stored(m.digest));
      db := WithCheck(db, who.key, m.serverId, Check(who.fingerprint, m));
      if turn.fault == CommitUnseen(false) { db := saved; }
      ok := turn.fault.NoFault?;
    }

    /** Planning happens before the lock is taken; `locked` is the target as other runs left it by
        then, if they changed it. */
    method Migrate(ms: seq<Manifest>, mode: Mode, apply: bool, who: Source, turns: seq<Turn>, locked: Option<Db>)
      returns (ok: bool)
      requires |turns| >= |ms|
      modifies this
      ensures (db, ok) == RunOnce(old(db), ms, mode, apply, who, turns, locked)
    {
      var plan, kept, pending := Plan(ChecksOf(db, who.key), ms, mode, who.fingerprint);
      if plan.Err? { return false; }
      if !apply { return true; }
      CountsAddUp(ChecksOf(db, who.key), ms, mode, who.fingerprint);
      if locked.Some? { db := locked.value; }
      ok := ImportPending(plan.value, turns, who);
    }

    method ImportPending(todo: seq<Manifest>, turns: seq<Turn>, who: Source) returns (ok: bool)
      requires |turns| >= |todo|
      modifies this
      ensures (db, ok) == ImportAll(old(db), todo, turns, who)
    {
      for i := 0 to |todo|
        invariant ImportAll(old(db), todo[..i], turns[..i], who) == (db, true)
      {
        assert todo[..i + 1][..i] == todo[..i] && turns[..i + 1][..i] == turns[..i];
        var done := ImportSeason(todo[i], turns[i], who);
        if !done {
          StopStays(old(db), todo, turns, who, i + 1);
          return false;
        }
      }
      assert todo[..|todo|] == todo;
      ImportIgnoresRest(old(db), todo, turns, who);
      ok := true;
    }
  }

  function PendingOf(db: Db, ms: seq<Manifest>, mode: Mode, who: Source): (todo: seq<Manifest>)
    requires Triage(ChecksOf(db, who.key), ms, mode, who.fingerprint).Some?
    ensures |todo| <= |ms|
  {
    CountsAddUp(ChecksOf(db, who.key), ms, mode, who.fingerprint);
    Triage(ChecksOf(db, who.key), ms, mode, who.fingerprint).value.todo
  }

  function RunOnce(db: Db, ms: seq<Manifest>, mode: Mode, apply: bool, who: Source, turns: seq<Turn>, locked: Option<Db>)
    : (Db, bool)
    requires |turns| >= |ms|
  {
    if !Plannable(ChecksOf(db, who.key), ms, mode, who.fingerprint) then (db, false)
    else if !apply then (db, true)
    else ImportAll(if locked.Some? then locked.value else db, PendingOf(db, ms, mode, who), turns, who)
  }

  lemma {:induction false} ImportIgnoresRest(db: Db, ms: seq<Manifest>, turns: seq<Turn>, who: Source)
    requires |turns| >= |ms|
    ensures ImportAll(db, ms, turns, who) == ImportAll(db, ms, turns[..|ms|], who)
  {
    if ms != [] {
      assert turns[..|ms|][..|ms| - 1] == turns[..|ms| - 1];
    }
  }

  lemma {:induction false} StopStays(db: Db, ms: seq<Manifest>, turns: seq<Turn>, who: Source, n: nat)
    requires |turns| >= |ms| >= n && !ImportAll(db, ms[..n], turns[..n], who).1
    ensures ImportAll(db, ms, turns, who) == ImportAll(db, ms[..n], turns[..n], who)
  {
    if n == |ms| {
      assert ms[..n] == ms;
      ImportIgnoresRest(db, ms, turns, who);
    } else {
      var last := |ms| - 1;
      assert ms[..last][..n] == ms[..n] && turns[..last][..n] == turns[..n];
      StopStays(db, ms[..last], turns[..last], who, n);
    }
  }
}
