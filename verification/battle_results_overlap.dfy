/** Seasons imported by several sources of one profile at once, one statement and row at a time.
    Runs of one source exclude each other; runs of different sources do not. */
module BattleResultsOverlap {
  import opened Common
  import opened BattleResultSource
  import opened BattleResults
  import opened BattleResultsHistory

  /** A row knows by which commit, counted from one, it was inserted; an update keeps that. */
  datatype Row = Row(content: string, born: nat)

  type Rows = map<nat, Row>

  /** A committed import. Its delete ran when `since - 1` imports were committed. */
  datatype Import = Import(who: Source, m: Manifest, since: nat)

  /** A row written but not committed; `over` is the birth of the row it updates, if it updates one. */
  datatype Put = Put(content: string, over: Option<nat>)

  datatype Stage = Deleting(todo: set<nat>) | Writing(next: nat)

  /** The open transaction of a source: one season, re-read as planned. */
  datatype Tx = Tx(who: Source, m: Manifest, since: nat, stage: Stage, dels: set<nat>, puts: map<nat, Put>)

  /** Committed rows by season, committed checkpoints by source, open transactions by source, and
      the imports committed so far. */
  datatype State = State(rows: map<string, Rows>, checks: map<string, map<string, Check>>, txs: map<string, Tx>, log: seq<Import>)

  datatype Action =
    | Delete(who: Source, m: Manifest)   // the delete statement starts, on the rows committed by now
    | DeleteRow(n: nat)                  // it comes to one of them
    | EndDelete
    | Write                              // the next file is inserted, or updates the row that is there
    | Commit                             // with the checkpoint, whether or not the commit is reported
    | Abort

  function RowsIn(rows: map<string, Rows>, s: string): Rows {
    if s in rows then rows[s] else map[]
  }

  function ChecksAt(checks: map<string, map<string, Check>>, source: string): map<string, Check> {
    if source in checks then checks[source] else map[]
  }

  /** The row is there and the delete of a transaction that began at `since` could not see it. */
  predicate Unseen(rows: Rows, n: nat, since: nat) {
    n in rows && rows[n].born >= since
  }

  function Touched(t: Tx): set<nat> {
    t.dels + t.puts.Keys
  }

  /** No other open transaction has locked the row. */
  predicate Free(s: State, source: string, season: string, n: nat) {
    forall other :: other in s.txs && other != source && s.txs[other].m.serverId == season ==> n !in Touched(s.txs[other])
  }

  predicate Enabled(s: State, source: string, a: Action) {
    if a.Delete? then source == a.who.key && source !in s.txs && Ascending(a.m.digest)
    else
      && source in s.txs
      && var t := s.txs[source];
      match a
      case Delete(_, _) => false
      case DeleteRow(n) => t.stage.Deleting? && n in t.stage.todo && Free(s, source, t.m.serverId, n)
      case EndDelete => t.stage == Deleting({})
      case Write => t.stage.Writing? && t.stage.next < |t.m.digest| && Free(s, source, t.m.serverId, t.m.digest[t.stage.next].generalNo)
      case Commit => t.stage == Writing(|t.m.digest|)
      case Abort => true
  }

  function PutOf(rows: Rows, n: nat, content: string, since: nat): Put {
    Put(content, if Unseen(rows, n, since) then Some(rows[n].born) else None)
  }

  /** A row that the transaction did not delete is updated by its insert. */
  function Written(rows: Rows, t: Tx, f: File): Tx
    requires t.stage.Writing?
  {
    var over := if f.generalNo in rows && f.generalNo !in t.dels then Some(rows[f.generalNo].born) else None;
    t.(stage := Writing(t.stage.next + 1), puts := t.puts[f.generalNo := Put(f.content, over)])
  }

  /** A row that came after the statement began is not the statement's business, even if it has the
      number of one that was there. */
  function RowDeleted(rows: Rows, t: Tx, n: nat): Tx
    requires t.stage.Deleting?
  {
    t.(stage := Deleting(t.stage.todo - {n}),
       dels := if n in rows && rows[n].born < t.since then t.dels + {n} else t.dels)
  }

  function CommittedRow(rows: Rows, t: Tx, now: nat, n: nat): Row
    requires n in rows || n in t.puts
  {
    if n in t.puts then Row(t.puts[n].content, if t.puts[n].over.Some? then t.puts[n].over.value else now) else rows[n]
  }

  function CommittedRows(rows: Rows, t: Tx, now: nat): Rows {
    map n | n in rows.Keys + t.puts.Keys && (n in t.puts || n !in t.dels) :: CommittedRow(rows, t, now, n)
  }

  function WithTx(s: State, source: string, t: Tx): State {
    s.(txs := s.txs[source := t])
  }

  function Committed(s: State, source: string): State
    requires source in s.txs
  {
    var t := s.txs[source];
    var season := t.m.serverId;
    State(s.rows[season := CommittedRows(RowsIn(s.rows, season), t, |s.log| + 1)],
          s.checks[source := ChecksAt(s.checks, source)[season := Check(t.who.fingerprint, t.m)]],
          s.txs - {source},
          s.log + [Import(t.who, t.m, t.since)])
  }

  function Apply(s: State, source: string, a: Action): State
    requires Enabled(s, source, a)
  {
    match a
    case Delete(who, m) =>
      WithTx(s, source, Tx(who, m, |s.log| + 1, Deleting(RowsIn(s.rows, m.serverId).Keys), {}, map[]))
    case DeleteRow(n) =>
      WithTx(s, source, RowDeleted(RowsIn(s.rows, s.txs[source].m.serverId), s.txs[source], n))
    case EndDelete => WithTx(s, source, s.txs[source].(stage := Writing(0)))
    case Write =>
      var t := s.txs[source];
      WithTx(s, source, Written(RowsIn(s.rows, t.m.serverId), t, t.m.digest[t.stage.next]))
    case Commit => Committed(s, source)
    case Abort => s.(txs := s.txs - {source})
  }

  // ---- what the committed imports mean ----

  /** The rows of a season after one more import of it: its files, and those rows it could not see. */
  function Settled(before: Rows, files: map<nat, string>, since: nat, now: nat): Rows {
    map n | n in before.Keys + files.Keys && (n in files || Unseen(before, n, since)) ::
      Row(if n in files then files[n] else before[n].content, if Unseen(before, n, since) then before[n].born else now)
  }

  function RowsAfter(base: map<string, map<nat, string>>, log: seq<Import>, s: string): Rows {
    if log == [] then
      (if s in base then map n | n in base[s] :: Row(base[s][n], 0) else map[])
    else
      var last := |log| - 1;
      var before, t := RowsAfter(base, log[..last], s), log[last];
      if t.m.serverId != s then before else Settled(before, Stored(t.m.digest), t.since, |log|)
  }

  /** The latest import of a season, by any source. */
  function Latest(log: seq<Import>, s: string): (i: Option<nat>)
    ensures i.Some? ==> i.value < |log| && log[i.value].m.serverId == s
  {
    if log == [] then None
    else if log[|log| - 1].m.serverId == s then Some(|log| - 1)
    else Latest(log[..|log| - 1], s)
  }

  function LatestBy(log: seq<Import>, source: string, s: string): Option<Import> {
    if log == [] then None
    else if log[|log| - 1].m.serverId == s && log[|log| - 1].who.key == source then Some(log[|log| - 1])
    else LatestBy(log[..|log| - 1], source, s)
  }

  // ---- the invariant ----

  /** The writes so far are those of these files. */
  predicate PutAt(rows: Rows, t: Tx, files: map<nat, string>, n: nat) {
    && (n in t.puts <==> n in files)
    && (n in files ==> t.puts[n] == PutOf(rows, n, files[n], t.since))
  }

  /** One row as an open transaction sees it. */
  predicate RowOk(rows: Rows, t: Tx, n: nat) {
    && (n in t.dels ==> n in rows && rows[n].born < t.since)
    && match t.stage
       case Deleting(todo) => n !in t.puts && (n in rows && rows[n].born < t.since ==> n in todo || n in t.dels)
       case Writing(next) =>
         && next <= |t.m.digest| && PutAt(rows, t, Stored(t.m.digest[..next]), n)
         && (n in rows && rows[n].born < t.since ==> n in t.dels)
  }

  ghost predicate TxOk(rows: Rows, count: nat, t: Tx) {
    t.since <= count + 1 && Ascending(t.m.digest) && forall n: nat :: RowOk(rows, t, n)
  }

  predicate BornOk(rows: Rows, count: nat, n: nat) {
    n in rows ==> rows[n].born <= count
  }

  ghost predicate AllBorn(rows: Rows, count: nat) {
    forall n: nat :: BornOk(rows, count, n)
  }

  ghost predicate SeasonOk(base: map<string, map<nat, string>>, s: State, q: string) {
    RowsIn(s.rows, q) == RowsAfter(base, s.log, q) && AllBorn(RowsIn(s.rows, q), |s.log|)
  }

  ghost predicate SourceOk(s: State, source: string) {
    source in s.txs ==>
      s.txs[source].who.key == source && TxOk(RowsIn(s.rows, s.txs[source].m.serverId), |s.log|, s.txs[source])
  }

  predicate Apart(s: State, a: string, b: string) {
    a in s.txs && b in s.txs && a != b && s.txs[a].m.serverId == s.txs[b].m.serverId ==>
      Touched(s.txs[a]) !! Touched(s.txs[b])
  }

  predicate CheckOk(s: State, source: string, q: string) {
    && (q in ChecksAt(s.checks, source) <==> LatestBy(s.log, source, q).Some?)
    && (q in ChecksAt(s.checks, source) ==>
          var t := LatestBy(s.log, source, q).value;
          ChecksAt(s.checks, source)[q] == Check(t.who.fingerprint, t.m))
  }

  ghost predicate Inv(base: map<string, map<nat, string>>, s: State) {
    && (forall q :: SeasonOk(base, s, q))
    && (forall source :: SourceOk(s, source))
    && (forall a, b :: Apart(s, a, b))
    && (forall source, q :: CheckOk(s, source, q))
    && (forall i :: 0 <= i < |s.log| ==> Ascending(s.log[i].m.digest))
  }

  // ---- steps ----

  lemma DeleteStarts(rows: Rows, count: nat, who: Source, m: Manifest)
    requires Ascending(m.digest) && AllBorn(rows, count)
    ensures TxOk(rows, count, Tx(who, m, count + 1, Deleting(rows.Keys), {}, map[]))
  {
    var t := Tx(who, m, count + 1, Deleting(rows.Keys), {}, map[]);
    forall n: nat ensures RowOk(rows, t, n) {
      assert BornOk(rows, count, n);
    }
  }

  lemma RowDeletedOk(rows: Rows, count: nat, t: Tx, n: nat)
    requires TxOk(rows, count, t) && t.stage.Deleting?
    ensures TxOk(rows, count, RowDeleted(rows, t, n))
  {
    forall k: nat ensures RowOk(rows, RowDeleted(rows, t, n), k) {
      assert RowOk(rows, t, k);
    }
  }

  lemma DeleteEnds(rows: Rows, count: nat, t: Tx)
    requires TxOk(rows, count, t) && t.stage == Deleting({})
    ensures TxOk(rows, count, t.(stage := Writing(0)))
  {
    assert t.m.digest[..0] == [];
    forall n: nat ensures RowOk(rows, t.(stage := Writing(0)), n) {
      assert RowOk(rows, t, n);
    }
  }

  lemma StoredNext(files: seq<File>, i: nat)
    requires i < |files|
    ensures Stored(files[..i + 1]) == Stored(files[..i])[files[i].generalNo := files[i].content]
  {
    assert files[..i + 1][..i] == files[..i];
  }

  lemma WrittenOk(rows: Rows, count: nat, t: Tx)
    requires TxOk(rows, count, t) && t.stage.Writing? && t.stage.next < |t.m.digest|
    ensures TxOk(rows, count, Written(rows, t, t.m.digest[t.stage.next]))
  {
    var f := t.m.digest[t.stage.next];
    StoredNext(t.m.digest, t.stage.next);
    forall n: nat ensures RowOk(rows, Written(rows, t, f), n) {
      assert RowOk(rows, t, n);
    }
  }

  /** At its commit a transaction turns the rows into what its import means. */
  lemma CommitSettles(rows: Rows, count: nat, t: Tx)
    requires TxOk(rows, count, t) && t.stage == Writing(|t.m.digest|)
    ensures CommittedRows(rows, t, count + 1) == Settled(rows, Stored(t.m.digest), t.since, count + 1)
  {
    var a, b := CommittedRows(rows, t, count + 1), Settled(rows, Stored(t.m.digest), t.since, count + 1);
    assert t.m.digest[..|t.m.digest|] == t.m.digest;
    forall n ensures (n in a <==> n in b) && (n in a ==> a[n] == b[n]) {
      assert RowOk(rows, t, n);
    }
  }

  /** A commit does not disturb another open transaction of the season. */
  lemma CommitSpares(rows: Rows, count: nat, t: Tx, u: Tx)
    requires TxOk(rows, count, t) && TxOk(rows, count, u) && Touched(t) !! Touched(u)
    requires t.stage == Writing(|t.m.digest|)
    ensures TxOk(CommittedRows(rows, t, count + 1), count + 1, u)
  {
    var after := CommittedRows(rows, t, count + 1);
    forall n: nat ensures RowOk(after, u, n) {
      assert RowOk(rows, t, n) && RowOk(rows, u, n);
      assert n in Touched(u) ==> n !in Touched(t);
    }
  }

  lemma CommitBorn(rows: Rows, count: nat, t: Tx, n: nat)
    requires TxOk(rows, count, t) && t.stage == Writing(|t.m.digest|) && BornOk(rows, count, n)
    ensures BornOk(CommittedRows(rows, t, count + 1), count + 1, n)
  {
    assert RowOk(rows, t, n);
  }

  /** A step of one open transaction that commits nothing. */
  lemma QuietInv(base: map<string, map<nat, string>>, s: State, source: string, t: Tx)
    requires Inv(base, s) && t.who.key == source && TxOk(RowsIn(s.rows, t.m.serverId), |s.log|, t)
    requires forall other :: other in s.txs && other != source && s.txs[other].m.serverId == t.m.serverId ==>
      Touched(s.txs[other]) !! Touched(t)
    ensures Inv(base, WithTx(s, source, t))
  {
    var s' := WithTx(s, source, t);
    forall q ensures SeasonOk(base, s', q) { assert SeasonOk(base, s, q); }
    forall other ensures SourceOk(s', other) { assert SourceOk(s, other); }
    forall a, b ensures Apart(s', a, b) { assert Apart(s, a, b); }
    forall other, q ensures CheckOk(s', other, q) { assert CheckOk(s, other, q); }
  }

  /** A step that locks at most one more row, a free one. */
  lemma LockStepInv(base: map<string, map<nat, string>>, s: State, source: string, t: Tx, n: nat)
    requires Inv(base, s) && source in s.txs && t.who == s.txs[source].who && t.m == s.txs[source].m
    requires TxOk(RowsIn(s.rows, t.m.serverId), |s.log|, t)
    requires Touched(t) <= Touched(s.txs[source]) || (Touched(t) <= Touched(s.txs[source]) + {n} && Free(s, source, t.m.serverId, n))
    ensures Inv(base, WithTx(s, source, t))
  {
    assert SourceOk(s, source);
    forall other | other in s.txs && other != source && s.txs[other].m.serverId == t.m.serverId
      ensures Touched(s.txs[other]) !! Touched(t)
    {
      assert Apart(s, source, other);
    }
    QuietInv(base, s, source, t);
  }

  lemma AbortInv(base: map<string, map<nat, string>>, s: State, source: string)
    requires Inv(base, s) && source in s.txs
    ensures Inv(base, Apply(s, source, Abort))
  {
    var s' := Apply(s, source, Abort);
    forall q ensures SeasonOk(base, s', q) { assert SeasonOk(base, s, q); }
    forall other ensures SourceOk(s', other) { assert SourceOk(s, other); }
    forall a, b ensures Apart(s', a, b) { assert Apart(s, a, b); }
    forall other, q ensures CheckOk(s', other, q) { assert CheckOk(s, other, q); }
  }

  lemma CommittedBirths(rows: Rows, count: nat, t: Tx)
    requires TxOk(rows, count, t) && t.stage == Writing(|t.m.digest|) && AllBorn(rows, count)
    ensures AllBorn(CommittedRows(rows, t, count + 1), count + 1)
  {
    var after, later := CommittedRows(rows, t, count + 1), count + 1;
    forall n: nat ensures BornOk(after, later, n) {
      assert BornOk(rows, count, n);
      CommitBorn(rows, count, t, n);
    }
  }

  lemma BirthsLater(rows: Rows, count: nat, later: nat)
    requires AllBorn(rows, count) && count <= later
    ensures AllBorn(rows, later)
  {
    forall n: nat ensures BornOk(rows, later, n) { assert BornOk(rows, count, n); }
  }

  /** Rows and log after a commit, season by season. */
  lemma CommittedSeason(base: map<string, map<nat, string>>, s: State, source: string, q: string)
    requires SourceOk(s, source) && SeasonOk(base, s, q) && Enabled(s, source, Commit)
    ensures SeasonOk(base, Committed(s, source), q)
  {
    var t, rows, log := s.txs[source], RowsIn(s.rows, q), Committed(s, source).log;
    assert log[..|log| - 1] == s.log && log[|log| - 1] == Import(t.who, t.m, t.since);
    if q == t.m.serverId {
      CommitSettles(rows, |s.log|, t);
      CommittedBirths(rows, |s.log|, t);
    } else {
      BirthsLater(rows, |s.log|, |s.log| + 1);
    }
  }

  lemma TxOkLater(rows: Rows, count: nat, t: Tx)
    requires TxOk(rows, count, t)
    ensures TxOk(rows, count + 1, t)
  {
  }

  lemma CommittedSource(base: map<string, map<nat, string>>, s: State, source: string, other: string)
    requires Inv(base, s) && Enabled(s, source, Commit)
    ensures SourceOk(Committed(s, source), other)
  {
    var t := s.txs[source];
    assert SourceOk(s, source) && SourceOk(s, other) && Apart(s, source, other);
    if other in s.txs && other != source {
      var u := s.txs[other];
      var rows := RowsIn(s.rows, u.m.serverId);
      if u.m.serverId == t.m.serverId {
        CommitSpares(rows, |s.log|, t, u);
      } else {
        TxOkLater(rows, |s.log|, u);
      }
    }
  }

  lemma CommitInv(base: map<string, map<nat, string>>, s: State, source: string)
    requires Inv(base, s) && Enabled(s, source, Commit)
    ensures Inv(base, Committed(s, source))
  {
    var t, s' := s.txs[source], Committed(s, source);
    assert SourceOk(s, source);
    forall q ensures SeasonOk(base, s', q) {
      assert SeasonOk(base, s, q);
      CommittedSeason(base, s, source, q);
    }
    forall other ensures SourceOk(s', other) { CommittedSource(base, s, source, other); }
    forall a, b ensures Apart(s', a, b) { assert Apart(s, a, b); }
    forall other, q ensures CheckOk(s', other, q) {
      assert CheckOk(s, other, q);
      assert s'.log[..|s'.log| - 1] == s.log;
    }
  }

  lemma StepInv(base: map<string, map<nat, string>>, s: State, source: string, a: Action)
    requires Inv(base, s) && Enabled(s, source, a)
    ensures Inv(base, Apply(s, source, a))
  {
    assert SourceOk(s, source);
    match a
    case Delete(who, m) =>
      var rows := RowsIn(s.rows, m.serverId);
      assert SeasonOk(base, s, m.serverId);
      DeleteStarts(rows, |s.log|, who, m);
      QuietInv(base, s, source, Tx(who, m, |s.log| + 1, Deleting(rows.Keys), {}, map[]));
    case DeleteRow(n) =>
      RowDeletedOk(RowsIn(s.rows, s.txs[source].m.serverId), |s.log|, s.txs[source], n);
      LockStepInv(base, s, source, RowDeleted(RowsIn(s.rows, s.txs[source].m.serverId), s.txs[source], n), n);
    case EndDelete =>
      DeleteEnds(RowsIn(s.rows, s.txs[source].m.serverId), |s.log|, s.txs[source]);
      LockStepInv(base, s, source, s.txs[source].(stage := Writing(0)), 0);
    case Write =>
      var t := s.txs[source];
      WrittenOk(RowsIn(s.rows, t.m.serverId), |s.log|, t);
      LockStepInv(base, s, source, Written(RowsIn(s.rows, t.m.serverId), t, t.m.digest[t.stage.next]),
                  t.m.digest[t.stage.next].generalNo);
    case Commit =>
      CommitInv(base, s, source);
    case Abort =>
      AbortInv(base, s, source);
  }

  // ---- every run ----

  function Start(base: map<string, map<nat, string>>): State {
    State(map q | q in base :: map n | n in base[q] :: Row(base[q][n], 0), map[], map[], [])
  }

  predicate Becomes(s: State, source: string, a: Action, s': State) {
    Enabled(s, source, a) && s' == Apply(s, source, a)
  }

  ghost predicate Next(s: State, s': State) {
    exists source, a :: Becomes(s, source, a, s')
  }

  ghost predicate Follows(run: seq<State>, i: nat)
    requires i + 1 < |run|
  {
    Next(run[i], run[i + 1])
  }

  ghost predicate IsRun(base: map<string, map<nat, string>>, run: seq<State>) {
    run != [] && run[0] == Start(base) && forall i :: 0 <= i < |run| - 1 ==> Follows(run, i)
  }

  lemma StartInv(base: map<string, map<nat, string>>)
    ensures Inv(base, Start(base))
  {
    forall q ensures SeasonOk(base, Start(base), q) {
    }
  }

  lemma {:induction false} ReachableInv(base: map<string, map<nat, string>>, run: seq<State>, i: nat)
    requires IsRun(base, run) && i < |run|
    ensures Inv(base, run[i])
  {
    if i == 0 {
      StartInv(base);
    } else {
      ReachableInv(base, run, i - 1);
      assert Follows(run, i - 1);
      var source, a :| Becomes(run[i - 1], source, a, run[i]);
      StepInv(base, run[i - 1], source, a);
    }
  }

  function Contents(rows: Rows): map<nat, string> {
    map n | n in rows :: rows[n].content
  }

  /** An older row that the latest import of the season neither saw nor wrote. */
  predicate Survives(before: Rows, t: Import, f: File) {
    f.generalNo !in Stored(t.m.digest) && Unseen(before, f.generalNo, t.since) && before[f.generalNo].content == f.content
  }

  lemma SettledFiles(before: Rows, t: Import, now: nat, f: File)
    requires Ascending(t.m.digest)
    ensures var rows := Contents(Settled(before, Stored(t.m.digest), t.since, now));
      f.generalNo in rows && rows[f.generalNo] == f.content <==> f in t.m.digest || Survives(before, t, f)
  {
    StoredIsFiles(t.m.digest);
    var n := f.generalNo;
    if n in Stored(t.m.digest) {
      assert File(n, Stored(t.m.digest)[n]) in t.m.digest;
    }
  }

  lemma {:induction false} SinceLatest(base: map<string, map<nat, string>>, log: seq<Import>, s: string)
    requires Latest(log, s).Some?
    ensures var j := Latest(log, s).value;
      RowsAfter(base, log, s) == Settled(RowsAfter(base, log[..j], s), Stored(log[j].m.digest), log[j].since, j + 1)
  {
    var last := |log| - 1;
    if log[last].m.serverId != s {
      SinceLatest(base, log[..last], s);
      var j := Latest(log, s).value;
      assert log[..last][..j] == log[..j];
    }
  }

  lemma {:induction false} LatestByIsListed(log: seq<Import>, source: string, s: string)
    requires LatestBy(log, source, s).Some?
    ensures Latest(log, s).Some? && LatestBy(log, source, s).value in log
  {
    if !(log[|log| - 1].m.serverId == s && log[|log| - 1].who.key == source) {
      LatestByIsListed(log[..|log| - 1], source, s);
    }
  }

  /** In every reachable state, however imports of different sources overlapped: a checkpointed
      season holds exactly the files of its manifest if and only if these are the files of the
      season's latest import, by whichever source, together with those older rows that this import
      neither saw nor wrote. */
  lemma CheckpointsAgreeIff(base: map<string, map<nat, string>>, run: seq<State>, i: nat, source: string, s: string)
    requires IsRun(base, run) && i < |run| && s in ChecksAt(run[i].checks, source)
    ensures var st := run[i];
      var m, j := ChecksAt(st.checks, source)[s].manifest, Latest(st.log, s);
      && j.Some?
      && (ExactlyFiles(Contents(RowsIn(st.rows, s)), m.digest)
          <==> forall f :: f in m.digest
                 <==> f in st.log[j.value].m.digest || Survives(RowsAfter(base, st.log[..j.value], s), st.log[j.value], f))
  {
    ReachableInv(base, run, i);
    var st := run[i];
    assert CheckOk(st, source, s) && SeasonOk(base, st, s);
    LatestByIsListed(st.log, source, s);
    SinceLatest(base, st.log, s);
    var m, j := ChecksAt(st.checks, source)[s].manifest, Latest(st.log, s).value;
    var before, rows := RowsAfter(base, st.log[..j], s), Contents(RowsIn(st.rows, s));
    forall f: File
      ensures f.generalNo in rows && rows[f.generalNo] == f.content <==> f in st.log[j].m.digest || Survives(before, st.log[j], f)
    {
      SettledFiles(before, st.log[j], j + 1, f);
    }
    ExactlyIff(rows, m.digest);
  }

  lemma ExactlyIff(rows: map<nat, string>, files: seq<File>)
    ensures ExactlyFiles(rows, files) <==> forall f: File :: f in files <==> f.generalNo in rows && rows[f.generalNo] == f.content
  {
    if forall f: File :: f in files <==> f.generalNo in rows && rows[f.generalNo] == f.content {
      forall n | n in rows ensures File(n, rows[n]) in files {
        assert File(n, rows[n]).generalNo in rows;
      }
    }
    if ExactlyFiles(rows, files) {
      forall f: File ensures f in files <==> f.generalNo in rows && rows[f.generalNo] == f.content {
        if f.generalNo in rows && rows[f.generalNo] == f.content {
          assert File(f.generalNo, rows[f.generalNo]) == f;
        }
      }
    }
  }

  // ---- where survivors come from ----

  predicate WroteAt(log: seq<Import>, s: string, f: File, from: nat, k: nat) {
    k < |log| && log[k].m.serverId == s && k + 1 >= from && f in log[k].m.digest
  }

  /** A row that an import inserted was last written by that import or a later one. */
  lemma {:induction false} RowHasFile(base: map<string, map<nat, string>>, log: seq<Import>, s: string, n: nat)
    requires n in RowsAfter(base, log, s)
    ensures var row := RowsAfter(base, log, s)[n];
      row.born <= |log| && (row.born >= 1 ==> exists k :: WroteAt(log, s, File(n, row.content), row.born, k))
  {
    if log != [] {
      var last := |log| - 1;
      var before, row := RowsAfter(base, log[..last], s), RowsAfter(base, log, s)[n];
      if n in before {
        RowHasFile(base, log[..last], s, n);
      }
      if log[last].m.serverId == s && n in Stored(log[last].m.digest) {
        StoredKeys(log[last].m.digest, n);
        assert row.born <= |log|;
        assert WroteAt(log, s, File(n, row.content), row.born, last);
      } else if row.born >= 1 {
        var k :| WroteAt(log[..last], s, File(n, row.content), row.born, k);
        assert WroteAt(log, s, File(n, row.content), row.born, k);
      }
    }
  }

  /** What survives an import is a file of an import that committed after its delete began. */
  lemma SurvivorsOverlapped(base: map<string, map<nat, string>>, log: seq<Import>, s: string, t: Import, f: File)
    requires t.since >= 1 && Survives(RowsAfter(base, log, s), t, f)
    ensures exists k :: WroteAt(log, s, f, t.since, k)
  {
    RowHasFile(base, log, s, f.generalNo);
    var row := RowsAfter(base, log, s)[f.generalNo];
    var k :| WroteAt(log, s, File(f.generalNo, row.content), row.born, k);
    assert WroteAt(log, s, f, t.since, k);
  }

  lemma NoSurvivors(base: map<string, map<nat, string>>, log: seq<Import>, s: string, t: Import, f: File)
    requires t.since >= 1 && forall k :: 0 <= k < |log| && log[k].m.serverId == s ==> k + 1 < t.since
    ensures !Survives(RowsAfter(base, log, s), t, f)
  {
    if Survives(RowsAfter(base, log, s), t, f) {
      SurvivorsOverlapped(base, log, s, t, f);
    }
  }

  /** The latest import of the season began its delete after all earlier ones had committed. */
  predicate LatestAlone(log: seq<Import>, s: string) {
    Latest(log, s).Some? ==>
      var j := Latest(log, s).value;
      log[j].since >= 1 && forall k :: 0 <= k < j && log[k].m.serverId == s ==> k + 1 < log[j].since
  }

  /** If the latest import overlapped with no other, the season holds exactly its files, so a
      checkpoint agrees exactly if it is of the same files. */
  lemma SerialCheckpointsIff(base: map<string, map<nat, string>>, run: seq<State>, i: nat, source: string, s: string)
    requires IsRun(base, run) && i < |run| && s in ChecksAt(run[i].checks, source) && LatestAlone(run[i].log, s)
    ensures var st := run[i];
      var m, j := ChecksAt(st.checks, source)[s].manifest, Latest(st.log, s);
      && j.Some?
      && (ExactlyFiles(Contents(RowsIn(st.rows, s)), m.digest) <==> st.log[j.value].m.digest == m.digest)
  {
    CheckpointsAgreeIff(base, run, i, source, s);
    ReachableInv(base, run, i);
    var st := run[i];
    assert CheckOk(st, source, s);
    LatestByIsListed(st.log, source, s);
    var m, j := ChecksAt(st.checks, source)[s].manifest, Latest(st.log, s).value;
    var t := st.log[j];
    forall f: File ensures !Survives(RowsAfter(base, st.log[..j], s), t, f) {
      NoSurvivors(base, st.log[..j], s, t, f);
    }
    if forall f :: f in m.digest <==> f in t.m.digest {
      AscendingUnique(m.digest, t.m.digest);
    }
  }

  // ---- one commit is one import ----

  function Plain(rows: map<string, Rows>): map<string, map<nat, string>> {
    map s | s in rows :: Contents(rows[s])
  }

  /** The target as a migration run sees it. */
  function DbOf(s: State): Db {
    Db(Plain(s.rows), s.checks)
  }

  function UnseenNumbers(rows: Rows, since: nat): set<nat> {
    set n | n in rows && rows[n].born >= since
  }

  lemma SettledIsMerged(rows: Rows, files: map<nat, string>, since: nat, now: nat)
    ensures Contents(Settled(rows, files, since, now)) == Merged(Contents(rows), UnseenNumbers(rows, since), files)
  {
  }

  lemma PlainUpdate(rows: map<string, Rows>, s: string, now: Rows)
    ensures Plain(rows[s := now]) == Plain(rows)[s := Contents(now)]
    ensures RowsOf(Db(Plain(rows), map[]), s) == Contents(RowsIn(rows, s))
  {
  }

  lemma CommitPlain(s: State, source: string, now: Rows)
    requires source in s.txs
    requires CommittedRows(RowsIn(s.rows, s.txs[source].m.serverId), s.txs[source], |s.log| + 1) == now
    ensures var t := s.txs[source];
      DbOf(Committed(s, source))
      == WithCheck(WithSeason(DbOf(s), t.m.serverId, Contents(now)), source, t.m.serverId, Check(t.who.fingerprint, t.m))
  {
    var q := s.txs[source].m.serverId;
    PlainUpdate(s.rows, q, now);
    assert WithSeason(DbOf(s), q, Contents(now)).checkpoints == s.checks;
    assert ChecksOf(WithSeason(DbOf(s), q, Contents(now)), source) == ChecksAt(s.checks, source);
  }

  /** At its commit, in any interleaving, a transaction changes the target as importing the season
      at that instant does, with the rows it could not see spared. */
  lemma CommitIsImport(base: map<string, map<nat, string>>, s: State, source: string)
    requires Inv(base, s) && Enabled(s, source, Commit)
    ensures var t := s.txs[source];
      DbOf(Committed(s, source))
      == WithImport(DbOf(s), t.m, t.who, UnseenNumbers(RowsIn(s.rows, t.m.serverId), t.since))
  {
    assert SourceOk(s, source);
    var t := s.txs[source];
    var rows := RowsIn(s.rows, t.m.serverId);
    var now := Settled(rows, Stored(t.m.digest), t.since, |s.log| + 1);
    CommitSettles(rows, |s.log|, t);
    SettledIsMerged(rows, Stored(t.m.digest), t.since, |s.log| + 1);
    CommitPlain(s, source, now);
    PlainUpdate(s.rows, t.m.serverId, now);
    assert RowsOf(DbOf(s), t.m.serverId) == Contents(rows);
  }

  // ---- two sources that mix ----

  lemma Extend(base: map<string, map<nat, string>>, run: seq<State>, source: string, a: Action) returns (longer: seq<State>)
    requires IsRun(base, run) && Enabled(run[|run| - 1], source, a)
    ensures IsRun(base, longer) && longer[|longer| - 1] == Apply(run[|run| - 1], source, a)
  {
    longer := run + [Apply(run[|run| - 1], source, a)];
    assert Becomes(run[|run| - 1], source, a, longer[|run|]);
    forall i | 0 <= i < |longer| - 1 ensures Follows(longer, i) {
      if i < |run| - 1 {
        assert Follows(run, i);
      }
    }
  }

  const ONE_TWO := Manifest("s", [File(1, "x"), File(2, "y")], 2, 2)
  const THREE := Manifest("s", [File(3, "z")], 1, 1)

  const A := Source("a", "")
  const B := Source("b", "")

  /** Both deletes ran before anything was committed; then `n` files of the first and `k` of the
      second source are written. */
  function BothWriting(n: nat, k: nat): State {
    var puts := map[1 := Put("x", None)];
    State(map[], map[],
          map["a" := Tx(A, ONE_TWO, 1, Writing(n), {},
                        if n == 0 then map[] else if n == 1 then puts else puts[2 := Put("y", None)]),
              "b" := Tx(B, THREE, 1, Writing(k), {}, if k == 0 then map[] else map[3 := Put("z", None)])],
          [])
  }

  lemma BothBegin() returns (run: seq<State>)
    ensures IsRun(map[], run) && run[|run| - 1] == BothWriting(0, 0)
  {
    run := [Start(map[])];
    assert RowsIn(Start(map[]).rows, "s").Keys == {};
    run := Extend(map[], run, "a", Delete(A, ONE_TWO));
    run := Extend(map[], run, "a", EndDelete);
    run := Extend(map[], run, "b", Delete(B, THREE));
    run := Extend(map[], run, "b", EndDelete);
  }

  lemma WriteOne(run: seq<State>, source: string, n: nat, k: nat) returns (longer: seq<State>)
    requires IsRun(map[], run) && run[|run| - 1] == BothWriting(n, k)
    requires (source == "a" && n < 2) || (source == "b" && k == 0)
    ensures IsRun(map[], longer)
    ensures longer[|longer| - 1] == if source == "a" then BothWriting(n + 1, k) else BothWriting(n, k + 1)
  {
    longer := Extend(map[], run, source, Write);
  }

  function FirstCommitted(): State {
    State(map["s" := map[1 := Row("x", 1), 2 := Row("y", 1)]], map["a" := map["s" := Check("", ONE_TWO)]],
          map["b" := BothWriting(2, 1).txs["b"]], [Import(A, ONE_TWO, 1)])
  }

  function BothCommitted(): State {
    State(map["s" := map[1 := Row("x", 1), 2 := Row("y", 1), 3 := Row("z", 2)]],
          map["a" := map["s" := Check("", ONE_TWO)], "b" := map["s" := Check("", THREE)]],
          map[], [Import(A, ONE_TWO, 1), Import(B, THREE, 1)])
  }

  lemma FirstCommits()
    ensures Enabled(BothWriting(2, 1), "a", Commit) && Committed(BothWriting(2, 1), "a") == FirstCommitted()
  {
    var s := BothWriting(2, 1);
    assert CommittedRows(map[], s.txs["a"], 1) == map[1 := Row("x", 1), 2 := Row("y", 1)];
    assert s.txs - {"a"} == FirstCommitted().txs;
  }

  lemma SecondCommits()
    ensures Enabled(FirstCommitted(), "b", Commit) && Committed(FirstCommitted(), "b") == BothCommitted()
  {
    var s := FirstCommitted();
    assert CommittedRows(s.rows["s"], s.txs["b"], 2) == BothCommitted().rows["s"];
    assert s.txs - {"b"} == map[];
  }

  lemma BothWritten() returns (run: seq<State>)
    ensures IsRun(map[], run) && run[|run| - 1] == BothWriting(2, 1)
  {
    run := BothBegin();
    run := WriteOne(run, "a", 0, 0);
    run := WriteOne(run, "a", 1, 0);
    run := WriteOne(run, "b", 2, 0);
  }

  lemma CommitNext(run: seq<State>, source: string, s: State) returns (longer: seq<State>)
    requires IsRun(map[], run) && Enabled(run[|run| - 1], source, Commit) && Committed(run[|run| - 1], source) == s
    ensures IsRun(map[], longer) && longer[|longer| - 1] == s
  {
    longer := Extend(map[], run, source, Commit);
  }

  lemma MixedRows()
    ensures Contents(RowsIn(BothCommitted().rows, "s")) == map[1 := "x", 2 := "y", 3 := "z"]
    ensures !ExactlyFiles(Contents(RowsIn(BothCommitted().rows, "s")), THREE.digest)
  {
    var rows := Contents(RowsIn(BothCommitted().rows, "s"));
    assert 1 in rows && File(1, rows[1]) !in THREE.digest;
  }

  /** Two sources import a season at once; the second to commit has a checkpoint for one file, and
      the season holds three. */
  lemma OverlapCanMix() returns (run: seq<State>)
    ensures IsRun(map[], run) && run[|run| - 1] == BothCommitted()
    ensures ChecksAt(BothCommitted().checks, "b")["s"].manifest == THREE && BothCommitted().log[1].m == THREE
    ensures !ExactlyFiles(Contents(RowsIn(BothCommitted().rows, "s")), THREE.digest)
  {
    run := BothWritten();
    FirstCommits();
    run := CommitNext(run, "a", FirstCommitted());
    SecondCommits();
    run := CommitNext(run, "b", BothCommitted());
    MixedRows();
  }
}
