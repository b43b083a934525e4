/** Batched upserts of migrated rows, and what folding a log of rows into a table means. */
module Upsert {
  import opened Common

  /** A row read from the source, after mapping. `valid` says whether the mapper accepts it;
      `kept` stands for the columns preserved on conflict, `content` for the others. */
  datatype Row = Row(id: nat, key: string, kept: string, content: string, valid: bool)

  datatype Cell = Cell(id: nat, kept: string, content: string)

  /** A stored row carries the id of the run that last wrote it. */
  datatype Stored = Stored(cell: Cell, importRun: nat)

  type Table = map<string, Stored>

  function Put(cells: map<string, Cell>, row: Row): map<string, Cell> {
    cells[row.key := Cell(row.id, if row.key in cells then cells[row.key].kept else row.kept, row.content)]
  }

  /** Rows applied one after the other: the meaning of a scan. */
  function Scan(cells: map<string, Cell>, rows: seq<Row>): map<string, Cell> {
    if rows == [] then cells else Put(Scan(cells, rows[..|rows| - 1]), rows[|rows| - 1])
  }

  function Contents(t: Table): map<string, Cell> {
    map k | k in t :: t[k].cell
  }

  function Last(rows: seq<Row>, key: string): Option<Row> {
    if rows == [] then None
    else if rows[|rows| - 1].key == key then Some(rows[|rows| - 1])
    else Last(rows[..|rows| - 1], key)
  }

  /** A scan keeps, per conflict key, the last row; preserved columns keep their first value. */
  lemma {:induction false} ScanKeepsLast(cells: map<string, Cell>, rows: seq<Row>, key: string)
    ensures var after := Scan(cells, rows);
      && (Last(rows, key).None? ==> (key in after <==> key in cells) && (key in cells ==> after[key] == cells[key]))
      && (Last(rows, key).Some? ==>
            key in after && after[key].id == Last(rows, key).value.id
            && after[key].content == Last(rows, key).value.content)
      && (key in cells ==> key in after && after[key].kept == cells[key].kept)
  {
    if rows != [] {
      ScanKeepsLast(cells, rows[..|rows| - 1], key);
    }
  }

  /** A scan depends on a table only through its keys and preserved columns, where it writes. */
  lemma {:induction false} ScanAgrees(a: map<string, Cell>, b: map<string, Cell>, rows: seq<Row>, key: string)
    requires (key in a <==> key in b) && (key in a ==> a[key].kept == b[key].kept)
    requires Last(rows, key).None? && key in a ==> a[key] == b[key]
    ensures key in Scan(a, rows) <==> key in Scan(b, rows)
    ensures key in Scan(a, rows) ==> Scan(a, rows)[key] == Scan(b, rows)[key]
  {
    ScanKeepsLast(a, rows, key);
    ScanKeepsLast(b, rows, key);
    if rows != [] && Last(rows, key).Some? {
      KeptAgrees(a, b, rows, key);
    }
  }

  lemma {:induction false} KeptAgrees(a: map<string, Cell>, b: map<string, Cell>, rows: seq<Row>, key: string)
    requires (key in a <==> key in b) && (key in a ==> a[key].kept == b[key].kept)
    ensures key in Scan(a, rows) <==> key in Scan(b, rows)
    ensures key in Scan(a, rows) ==> Scan(a, rows)[key].kept == Scan(b, rows)[key].kept
  {
    if rows != [] {
      KeptAgrees(a, b, rows[..|rows| - 1], key);
    }
  }

  lemma {:induction false} ScanConcat(cells: map<string, Cell>, a: seq<Row>, b: seq<Row>)
    ensures Scan(cells, a + b) == Scan(Scan(cells, a), b)
  {
    if b == [] {
      assert a + b == a;
    } else {
      ScanConcat(cells, a, b[..|b| - 1]);
      assert (a + b)[..|a + b| - 1] == a + b[..|b| - 1];
    }
  }

  /** Scanning the same rows again changes nothing. */
  lemma ScanTwice(cells: map<string, Cell>, rows: seq<Row>)
    ensures Scan(Scan(cells, rows), rows) == Scan(cells, rows)
  {
    var once := Scan(cells, rows);
    var twice := Scan(once, rows);
    forall k ensures (k in twice <==> k in once) && (k in once ==> twice[k] == once[k]) {
      ScanKeepsLast(cells, rows, k);
      ScanKeepsLast(once, rows, k);
    }
  }

  /** Scans that overlap compose into one scan. */
  lemma OverlappingScans(cells: map<string, Cell>, log: seq<Row>, from: nat, mid: nat, to: nat)
    requires from <= mid <= to <= |log|
    ensures Scan(Scan(cells, log[..mid]), log[from..to]) == Scan(cells, log[..to])
  {
    var a, b, d := log[..from], log[from..mid], log[mid..to];
    assert log[..mid] == a + b && log[from..to] == b + d && log[..to] == (a + b) + d;
    ScanConcat(cells, a, b);
    ScanConcat(cells, a + b, d);
    ScanConcat(Scan(cells, a + b), b, d);
    ScanTwice(Scan(cells, a), b);
  }

  // ---- one statement ----

  predicate DistinctKeys(rows: seq<Row>) {
    forall i, j :: 0 <= i < j < |rows| ==> rows[i].key != rows[j].key
  }

  predicate AllValid(rows: seq<Row>) {
    forall i :: 0 <= i < |rows| ==> rows[i].valid
  }

  /** One multi-row statement: it may not touch a conflict key twice. */
  function Store(t: Table, rows: seq<Row>, run: nat): Table {
    if rows == [] then t else
      var before, row := Store(t, rows[..|rows| - 1], run), rows[|rows| - 1];
      before[row.key := Stored(Cell(row.id, if row.key in before then before[row.key].cell.kept else row.kept, row.content), run)]
  }

  lemma {:induction false} StoreIsScan(t: Table, rows: seq<Row>, run: nat)
    ensures Contents(Store(t, rows, run)) == Scan(Contents(t), rows)
  {
    if rows != [] {
      StoreIsScan(t, rows[..|rows| - 1], run);
    }
  }

  lemma {:induction false} StoreConcat(t: Table, a: seq<Row>, b: seq<Row>, run: nat)
    ensures Store(t, a + b, run) == Store(Store(t, a, run), b, run)
  {
    if b == [] {
      assert a + b == a;
    } else {
      StoreConcat(t, a, b[..|b| - 1], run);
      assert (a + b)[..|a + b| - 1] == a + b[..|b| - 1];
    }
  }

  /** The statement for rows without an updatable column: the first row of each new key stays. */
  function StoreMissing(t: Table, rows: seq<Row>, run: nat): Table {
    if rows == [] then t else
      var before, row := StoreMissing(t, rows[..|rows| - 1], run), rows[|rows| - 1];
      if row.key in before then before else before[row.key := Stored(Cell(row.id, row.kept, row.content), run)]
  }

  /** It overwrites nothing, and repeated keys do no harm. */
  lemma {:induction false} StoreMissingAt(t: Table, rows: seq<Row>, run: nat, key: string)
    ensures var after := StoreMissing(t, rows, run);
      && (key in t ==> key in after && after[key] == t[key])
      && (key in after <==> key in t || Last(rows, key).Some?)
  {
    if rows != [] {
      StoreMissingAt(t, rows[..|rows| - 1], run, key);
    }
  }

  function KeysOf(rows: seq<Row>): set<string> {
    if rows == [] then {} else KeysOf(rows[..|rows| - 1]) + {rows[|rows| - 1].key}
  }

  lemma {:induction false} KeysOfSound(rows: seq<Row>, key: string)
    ensures key in KeysOf(rows) <==> exists i :: 0 <= i < |rows| && rows[i].key == key
  {
    if rows != [] {
      KeysOfSound(rows[..|rows| - 1], key);
      assert rows[|rows| - 1].key == key || forall i :: 0 <= i < |rows| && rows[i].key == key ==> i < |rows| - 1;
    }
  }

  /** What the statement checks before it takes the next row. */
  lemma DistinctSnoc(rows: seq<Row>, i: nat)
    requires i < |rows| && DistinctKeys(rows[..i])
    ensures KeysOf(rows[..i + 1]) == KeysOf(rows[..i]) + {rows[i].key}
    ensures DistinctKeys(rows[..i + 1]) <==> rows[i].key !in KeysOf(rows[..i])
    ensures !DistinctKeys(rows[..i + 1]) ==> !DistinctKeys(rows)
  {
    assert rows[..i + 1][..i] == rows[..i];
    KeysOfSound(rows[..i], rows[i].key);
    if rows[i].key in KeysOf(rows[..i]) {
      var j :| 0 <= j < i && rows[j].key == rows[i].key;
      assert rows[..i + 1][j].key == rows[..i + 1][i].key;
    }
  }

  /** One statement. Without an updatable column (`updates` false) conflicting rows are skipped. */
  method UpsertRows(t: Table, rows: seq<Row>, run: nat, updates: bool) returns (ok: bool, after: Table)
    ensures ok <==> (updates ==> DistinctKeys(rows))
    ensures after == if !ok then t else if updates then Store(t, rows, run) else StoreMissing(t, rows, run)
  {
    var seen: set<string> := {};
    ok, after := true, t;
    for i := 0 to |rows|
      invariant ok && seen == KeysOf(rows[..i])
      invariant updates ==> DistinctKeys(rows[..i])
      invariant after == if updates then Store(t, rows[..i], run) else StoreMissing(t, rows[..i], run)
    {
      var row := rows[i];
      assert rows[..i + 1][..i] == rows[..i];
      if updates {
        DistinctSnoc(rows, i);
        if row.key in seen {
          ok, after := false, t;
          return;
        }
        var kept := if row.key in after then after[row.key].cell.kept else row.kept;
        after := after[row.key := Stored(Cell(row.id, kept, row.content), run)];
      } else if row.key !in after {
        after := after[row.key := Stored(Cell(row.id, row.kept, row.content), run)];
      }
      seen := seen + {row.key};
    }
    assert rows[..|rows|] == rows;
  }
}
