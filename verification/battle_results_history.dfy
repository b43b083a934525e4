/** Runs of one source that stop anywhere and resume, and what other sources can do to them. */
module BattleResultsHistory {
  import opened Common
  import opened BattleResultSource
  import opened BattleResults

  /** One run's imports. The list was planned when the run began and may be stale by now. */
  datatype Imports = Imports(fingerprint: string, todo: seq<Manifest>, turns: seq<Turn>)

  predicate FromListing(ms: seq<Manifest>) {
    forall i :: 0 <= i < |ms| ==> Ascending(ms[i].digest)
  }

  /** No other source touches the target meanwhile. */
  predicate Alone(turns: seq<Turn>) {
    forall i :: 0 <= i < |turns| ==> turns[i].during == None
  }

  predicate ImportsOk(runs: seq<Imports>) {
    forall i :: 0 <= i < |runs| ==>
      |runs[i].turns| >= |runs[i].todo| && FromListing(runs[i].todo) && Alone(runs[i].turns)
  }

  function AfterAll(db: Db, source: string, runs: seq<Imports>): Db
    requires ImportsOk(runs)
  {
    if runs == [] then db else
      var last := runs[|runs| - 1];
      ImportAll(AfterAll(db, source, runs[..|runs| - 1]), last.todo, last.turns, Source(source, last.fingerprint)).0
  }

  /** A season's rows are exactly the files of a list: one row per file, nothing else. */
  predicate ExactlyFiles(rows: map<nat, string>, files: seq<File>) {
    && (forall f :: f in files ==> f.generalNo in rows && rows[f.generalNo] == f.content)
    && (forall n :: n in rows ==> File(n, rows[n]) in files)
  }

  lemma StoredExactly(files: seq<File>, others: seq<File>)
    requires Ascending(files) && Ascending(others)
    ensures ExactlyFiles(Stored(files), others) <==> files == others
  {
    StoredIsFiles(files);
    StoredIsFiles(others);
    if ExactlyFiles(Stored(files), others) {
      forall f ensures f in files <==> f in others {
        assert f in files ==> f.generalNo in Stored(files) && Stored(files)[f.generalNo] == f.content;
      }
      AscendingUnique(files, others);
    }
  }

  predicate MatchesAt(db: Db, source: string, s: string) {
    s in ChecksOf(db, source) ==>
      var m := ChecksOf(db, source)[s].manifest;
      m.serverId == s && Ascending(m.digest) && RowsOf(db, s) == Stored(m.digest)
  }

  /** Each checkpointed season of this source is stored as its manifest describes it. */
  ghost predicate Matches(db: Db, source: string) {
    forall s :: MatchesAt(db, source, s)
  }

  lemma ImportOneMatches(db: Db, m: Manifest, turn: Turn, who: Source, s: string)
    requires MatchesAt(db, who.key, s) && Ascending(m.digest) && turn.during == None
    ensures MatchesAt(ImportOne(db, m, turn, who).0, who.key, s)
  {
    WithImportAt(db, m, who, {}, s, who.key);
  }

  lemma {:induction false} ImportAllMatches(db: Db, ms: seq<Manifest>, turns: seq<Turn>, who: Source)
    requires |turns| >= |ms| && Matches(db, who.key) && FromListing(ms) && Alone(turns)
    ensures Matches(ImportAll(db, ms, turns, who).0, who.key)
  {
    if ms != [] {
      var last := |ms| - 1;
      var before := ImportAll(db, ms[..last], turns[..last], who).0;
      ImportAllMatches(db, ms[..last], turns[..last], who);
      forall s ensures MatchesAt(ImportOne(before, ms[last], turns[last], who).0, who.key, s) {
        assert MatchesAt(before, who.key, s);
        ImportOneMatches(before, ms[last], turns[last], who, s);
      }
    }
  }

  lemma {:induction false} AfterAllMatches(db: Db, source: string, runs: seq<Imports>)
    requires ImportsOk(runs) && Matches(db, source)
    ensures Matches(AfterAll(db, source, runs), source)
  {
    if runs != [] {
      var last := runs[|runs| - 1];
      AfterAllMatches(db, source, runs[..|runs| - 1]);
      ImportAllMatches(AfterAll(db, source, runs[..|runs| - 1]), last.todo, last.turns, Source(source, last.fingerprint));
    }
  }

  /** While one source alone imports, every checkpointed season's rows are exactly the files its
      manifest describes, also midway through a run and with stale plans. */
  lemma {:induction false} CheckpointsAgree(rows: map<string, map<nat, string>>, source: string, runs: seq<Imports>, s: string)
    requires ImportsOk(runs)
    requires s in ChecksOf(AfterAll(Db(rows, map[]), source, runs), source)
    ensures var db := AfterAll(Db(rows, map[]), source, runs);
      ExactlyFiles(RowsOf(db, s), ChecksOf(db, source)[s].manifest.digest)
  {
    var db := AfterAll(Db(rows, map[]), source, runs);
    AfterAllMatches(Db(rows, map[]), source, runs);
    assert MatchesAt(db, source, s);
    StoredExactly(ChecksOf(db, source)[s].manifest.digest, ChecksOf(db, source)[s].manifest.digest);
  }

  predicate DistinctSeasons(ms: seq<Manifest>) {
    forall i, j :: 0 <= i < j < |ms| ==> ms[i].serverId != ms[j].serverId
  }

  predicate Imported(db: Db, m: Manifest, who: Source) {
    && m.serverId in ChecksOf(db, who.key) && ChecksOf(db, who.key)[m.serverId] == Check(who.fingerprint, m)
    && RowsOf(db, m.serverId) == Stored(m.digest)
  }

  predicate SameSeason(a: Db, b: Db, who: Source, s: string) {
    && RowsOf(a, s) == RowsOf(b, s)
    && (s in ChecksOf(a, who.key) <==> s in ChecksOf(b, who.key))
    && (s in ChecksOf(a, who.key) ==> ChecksOf(a, who.key)[s] == ChecksOf(b, who.key)[s])
  }

  /** Others stored, behind this transaction's delete, no general number it did not write itself. */
  predicate NoStranger(turn: Turn, m: Manifest) {
    forall n :: n in SparedBy(turn) && n in RowsOf(turn.during.value.found, m.serverId) ==> n in Stored(m.digest)
  }

  lemma ImportOneAt(db: Db, m: Manifest, turn: Turn, who: Source, s: string)
    ensures var r := ImportOne(db, m, turn, who);
      && (m.serverId != s ==> SameSeason(r.0, Seen(db, turn), who, s))
      && (r.1 ==> (Imported(r.0, m, who) <==> NoStranger(turn, m)))
  {
    WithImportAt(Seen(db, turn), m, who, SparedBy(turn), s, who.key);
    WithImportAt(Seen(db, turn), m, who, SparedBy(turn), m.serverId, who.key);
    var rows := RowsOf(Seen(db, turn), m.serverId);
    var merged := Merged(rows, SparedBy(turn), Stored(m.digest));
    if !NoStranger(turn, m) {
      var n :| n in SparedBy(turn) && n in rows && n !in Stored(m.digest);
      assert n in merged;
    } else {
      assert forall n :: n in merged ==> n in Stored(m.digest);
    }
  }

  lemma {:induction false} UntouchedSeason(db: Db, ms: seq<Manifest>, turns: seq<Turn>, who: Source, s: string)
    requires |turns| >= |ms| && !Listed(ms, s) && Alone(turns)
    ensures SameSeason(ImportAll(db, ms, turns, who).0, db, who, s)
  {
    if ms != [] {
      var last := |ms| - 1;
      assert Listed(ms[..last], s) ==> Listed(ms, s) by { SublistListed(ms, last, s); }
      UntouchedSeason(db, ms[..last], turns[..last], who, s);
      assert ms[last].serverId != s;
      ImportOneAt(ImportAll(db, ms[..last], turns[..last], who).0, ms[last], turns[last], who, s);
    }
  }

  lemma SublistListed(ms: seq<Manifest>, n: nat, s: string)
    requires n <= |ms|
    ensures Listed(ms[..n], s) ==> Listed(ms, s)
  {
    if Listed(ms[..n], s) {
      var i :| 0 <= i < n && ms[..n][i].serverId == s;
      assert ms[i].serverId == s;
    }
  }

  /** Whether a season is in place at the end of a list of imports, told by the last of them that
      wrote it or found that others had been at work. */
  predicate EndsInPlace(db: Db, todo: seq<Manifest>, turns: seq<Turn>, who: Source, m: Manifest)
    requires |turns| >= |todo|
  {
    if todo == [] then Imported(db, m, who)
    else
      var last := |todo| - 1;
      if todo[last] == m then NoStranger(turns[last], m)
      else if turns[last].during.Some? then Imported(turns[last].during.value.found, m, who)
      else EndsInPlace(db, todo[..last], turns[..last], who, m)
  }

  lemma {:induction false} ImportedSeasonIff(db: Db, todo: seq<Manifest>, turns: seq<Turn>, who: Source, m: Manifest)
    requires |turns| >= |todo| && ImportAll(db, todo, turns, who).1
    requires forall other :: other in todo && other.serverId == m.serverId ==> other == m
    ensures Imported(ImportAll(db, todo, turns, who).0, m, who) <==> EndsInPlace(db, todo, turns, who, m)
  {
    if todo != [] {
      var last := |todo| - 1;
      var before := ImportAll(db, todo[..last], turns[..last], who).0;
      assert todo[last] in todo;
      ImportOneAt(before, todo[last], turns[last], who, m.serverId);
      ImportedSeasonIff(db, todo[..last], turns[..last], who, m);
    }
  }

  lemma {:induction false} AloneEndsInPlace(db: Db, todo: seq<Manifest>, turns: seq<Turn>, who: Source, m: Manifest)
    requires |turns| >= |todo| && Alone(turns)
    ensures EndsInPlace(db, todo, turns, who, m) <==> m in todo || Imported(db, m, who)
  {
    if todo != [] {
      var last := |todo| - 1;
      AloneEndsInPlace(db, todo[..last], turns[..last], who, m);
      assert todo == todo[..last] + [todo[last]];
    }
  }

  lemma {:induction false} TodoDistinct(cs: map<string, Check>, ms: seq<Manifest>, mode: Mode, fingerprint: string)
    requires Triage(cs, ms, mode, fingerprint).Some? && DistinctSeasons(ms)
    ensures DistinctSeasons(Triage(cs, ms, mode, fingerprint).value.todo)
    ensures forall m :: m in Triage(cs, ms, mode, fingerprint).value.todo ==> m in ms
  {
    if ms != [] {
      var before := ms[..|ms| - 1];
      TodoDistinct(cs, before, mode, fingerprint);
      forall m | m in Triage(cs, before, mode, fingerprint).value.todo ensures m.serverId != ms[|ms| - 1].serverId {
        assert m in before;
      }
    }
  }

  lemma ListedInside(todo: seq<Manifest>, ms: seq<Manifest>, s: string)
    requires forall m :: m in todo ==> m in ms
    ensures Listed(todo, s) ==> Listed(ms, s)
    ensures FromListing(ms) ==> FromListing(todo)
  {
    if Listed(todo, s) {
      var k :| 0 <= k < |todo| && todo[k].serverId == s;
      assert todo[k] in todo;
    }
    if FromListing(ms) {
      forall k | 0 <= k < |todo| ensures Ascending(todo[k].digest) {
        assert todo[k] in todo;
      }
    }
  }

  function Locked(db: Db, locked: Option<Db>): Db {
    if locked.Some? then locked.value else db
  }

  /** What a completed run leaves, season by season, whatever others did to the target between
      planning and locking, between its transactions and during them. */
  lemma CompletedSeasonIff(db: Db, ms: seq<Manifest>, mode: Mode, who: Source, turns: seq<Turn>, locked: Option<Db>, i: nat)
    requires |turns| >= |ms| && DistinctSeasons(ms) && i < |ms|
    requires RunOnce(db, ms, mode, true, who, turns, locked).1
    ensures Imported(RunOnce(db, ms, mode, true, who, turns, locked).0, ms[i], who)
      <==> EndsInPlace(Locked(db, locked), PendingOf(db, ms, mode, who), turns, who, ms[i])
  {
    var todo := PendingOf(db, ms, mode, who);
    TodoDistinct(ChecksOf(db, who.key), ms, mode, who.fingerprint);
    forall other | other in todo && other.serverId == ms[i].serverId ensures other == ms[i] {
      var j :| 0 <= j < |ms| && ms[j] == other;
      assert j == i;
    }
    ImportedSeasonIff(Locked(db, locked), todo, turns, who, ms[i]);
  }

  /** A run that completes undisturbed leaves the target holding exactly the source's seasons. */
  lemma CompletedRunMirrors(db: Db, ms: seq<Manifest>, mode: Mode, who: Source, turns: seq<Turn>)
    requires |turns| >= |ms| && DistinctSeasons(ms) && Matches(db, who.key) && Alone(turns)
    requires RunOnce(db, ms, mode, true, who, turns, None).1
    ensures var after := RunOnce(db, ms, mode, true, who, turns, None).0;
      && (forall i :: 0 <= i < |ms| ==> Imported(after, ms[i], who))
      && (forall s :: s in ChecksOf(after, who.key) ==> Listed(ms, s))
      && (forall s :: !Listed(ms, s) ==> SameSeason(after, db, who, s))
  {
    var after := RunOnce(db, ms, mode, true, who, turns, None).0;
    var cs, todo := ChecksOf(db, who.key), PendingOf(db, ms, mode, who);
    TodoDistinct(cs, ms, mode, who.fingerprint);
    TriageIff(cs, ms, mode, who.fingerprint);
    forall i | 0 <= i < |ms| ensures Imported(after, ms[i], who) {
      CompletedSeasonIff(db, ms, mode, who, turns, None, i);
      AloneEndsInPlace(db, todo, turns, who, ms[i]);
      TodoIsPending(cs, ms, mode, who.fingerprint, ms[i]);
      assert ms[i] !in todo ==> Decide(cs, ms[i], mode, who.fingerprint).Unchanged? && MatchesAt(db, who.key, ms[i].serverId);
    }
    forall s | !Listed(ms, s) ensures SameSeason(after, db, who, s) {
      ListedInside(todo, ms, s);
      UntouchedSeason(db, todo, turns, who, s);
    }
  }

  datatype Attempt = Attempt(mode: Mode, apply: bool, turns: seq<Turn>)

  predicate AttemptsOk(ms: seq<Manifest>, tries: seq<Attempt>) {
    forall i :: 0 <= i < |tries| ==> |tries[i].turns| >= |ms| && Alone(tries[i].turns)
  }

  function AfterAttempts(db: Db, ms: seq<Manifest>, who: Source, tries: seq<Attempt>): (Db, bool)
    requires AttemptsOk(ms, tries)
  {
    if tries == [] then (db, false) else
      var before, t := AfterAttempts(db, ms, who, tries[..|tries| - 1]).0, tries[|tries| - 1];
      RunOnce(before, ms, t.mode, t.apply, who, t.turns, None)
  }

  lemma RunStaysInside(db: Db, ms: seq<Manifest>, who: Source, t: Attempt)
    requires |t.turns| >= |ms| && Alone(t.turns) && DistinctSeasons(ms) && Matches(db, who.key) && FromListing(ms)
    ensures var after := RunOnce(db, ms, t.mode, t.apply, who, t.turns, None).0;
      Matches(after, who.key) && forall s :: !Listed(ms, s) ==> SameSeason(after, db, who, s)
  {
    if t.apply && Plannable(ChecksOf(db, who.key), ms, t.mode, who.fingerprint) {
      var todo := PendingOf(db, ms, t.mode, who);
      TodoDistinct(ChecksOf(db, who.key), ms, t.mode, who.fingerprint);
      ListedInside(todo, ms, "");
      ImportAllMatches(db, todo, t.turns, who);
      forall s | !Listed(ms, s) ensures SameSeason(ImportAll(db, todo, t.turns, who).0, db, who, s) {
        ListedInside(todo, ms, s);
        UntouchedSeason(db, todo, t.turns, who, s);
      }
    }
  }

  lemma {:induction false} AttemptsStayInside(db: Db, ms: seq<Manifest>, who: Source, tries: seq<Attempt>)
    requires AttemptsOk(ms, tries) && DistinctSeasons(ms) && Matches(db, who.key) && FromListing(ms)
    ensures var after := AfterAttempts(db, ms, who, tries).0;
      Matches(after, who.key) && forall s :: !Listed(ms, s) ==> SameSeason(after, db, who, s)
  {
    if tries != [] {
      var before := AfterAttempts(db, ms, who, tries[..|tries| - 1]).0;
      AttemptsStayInside(db, ms, who, tries[..|tries| - 1]);
      RunStaysInside(before, ms, who, tries[|tries| - 1]);
      forall s | !Listed(ms, s) ensures SameSeason(AfterAttempts(db, ms, who, tries).0, db, who, s) {
        assert SameSeason(before, db, who, s);
      }
    }
  }

  /** However often the import was interrupted, once a run completes the target is the one an
      uninterrupted run over the same source would have left. */
  lemma ResumedEqualsUninterrupted(db: Db, ms: seq<Manifest>, who: Source, tries: seq<Attempt>, mode: Mode,
                                   turns: seq<Turn>, s: string)
    requires AttemptsOk(ms, tries) && |turns| >= |ms| && Alone(turns) && DistinctSeasons(ms) && Matches(db, who.key) && FromListing(ms)
    requires tries != [] && tries[|tries| - 1].apply && AfterAttempts(db, ms, who, tries).1
    requires RunOnce(db, ms, mode, true, who, turns, None).1
    ensures SameSeason(AfterAttempts(db, ms, who, tries).0, RunOnce(db, ms, mode, true, who, turns, None).0, who, s)
  {
    var last := tries[|tries| - 1];
    var before := AfterAttempts(db, ms, who, tries[..|tries| - 1]).0;
    var resumed := AfterAttempts(db, ms, who, tries).0;
    var whole := RunOnce(db, ms, mode, true, who, turns, None).0;
    AttemptsStayInside(db, ms, who, tries[..|tries| - 1]);
    CompletedRunMirrors(before, ms, last.mode, who, last.turns);
    CompletedRunMirrors(db, ms, mode, who, turns);
    if Listed(ms, s) {
      var i :| 0 <= i < |ms| && ms[i].serverId == s;
      assert Imported(resumed, ms[i], who) && Imported(whole, ms[i], who);
    } else {
      assert SameSeason(before, db, who, s);
    }
  }

  /** After a completed run the same source has nothing pending, in either mode. */
  lemma {:induction false} NothingLeftToDo(db: Db, ms: seq<Manifest>, mode: Mode, who: Source)
    requires forall i :: 0 <= i < |ms| ==> Imported(db, ms[i], who)
    ensures Triage(ChecksOf(db, who.key), ms, mode, who.fingerprint) == Some(Triaged(ms, []))
  {
    if ms != [] {
      NothingLeftToDo(db, ms[..|ms| - 1], mode, who);
      assert Imported(db, ms[|ms| - 1], who);
      assert ms == ms[..|ms| - 1] + [ms[|ms| - 1]];
    }
  }
}
