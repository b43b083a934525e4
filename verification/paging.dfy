/** Reading a growing table page by page with an id cursor. */
module Paging {
  import opened Common
  import opened Upsert

  predicate Ascending(rows: seq<Row>) {
    forall i, j :: 0 <= i < j < |rows| ==> rows[i].id < rows[j].id
  }

  /** One page query: rows with a larger id than `after`, in id order, at most `limit`. */
  function Select(view: seq<Row>, after: int, limit: nat): seq<Row> {
    if view == [] || limit == 0 then []
    else if view[0].id > after then [view[0]] + Select(view[1..], after, limit - 1)
    else Select(view[1..], after, limit)
  }

  /** How many rows have an id at or below `after`. */
  function Start(log: seq<Row>, after: int): (n: nat)
    ensures n <= |log|
  {
    if log == [] then 0 else (if log[0].id <= after then 1 else 0) + Start(log[1..], after)
  }

  predicate Below(log: seq<Row>, after: int, i: int) {
    0 <= i < |log| && log[i].id <= after
  }

  /** In an ascending log the rows at or below an id are a prefix. */
  lemma {:induction false} StartIsBoundary(log: seq<Row>, after: int)
    requires Ascending(log)
    ensures forall i :: 0 <= i < |log| ==> (i < Start(log, after) <==> Below(log, after, i))
  {
    if log != [] {
      var rest := log[1..];
      StartIsBoundary(rest, after);
      assert Start(rest, after) > 0 ==> Below(rest, after, 0);
      forall i | 0 <= i < |log| ensures i < Start(log, after) <==> Below(log, after, i) {
        assert i > 0 ==> (Below(log, after, i) <==> Below(rest, after, i - 1));
      }
    }
  }

  lemma BoundaryIsStart(log: seq<Row>, after: int, n: nat)
    requires Ascending(log) && n <= |log|
    requires forall i :: 0 <= i < |log| ==> (i < n <==> Below(log, after, i))
    ensures Start(log, after) == n
  {
    StartIsBoundary(log, after);
    var m := Start(log, after);
    assert m < n ==> Below(log, after, m);
    assert n < m ==> Below(log, after, n);
  }

  lemma StartAfterRow(log: seq<Row>, i: nat)
    requires Ascending(log) && i < |log|
    ensures Start(log, log[i].id) == i + 1
  {
    BoundaryIsStart(log, log[i].id, i + 1);
  }

  lemma StartOfPrefix(log: seq<Row>, after: int, v: nat)
    requires Ascending(log) && v <= |log|
    ensures Start(log[..v], after) == Min(v, Start(log, after))
  {
    StartIsBoundary(log, after);
    assert forall i :: 0 <= i < v ==> (Below(log[..v], after, i) <==> Below(log, after, i));
    BoundaryIsStart(log[..v], after, Min(v, Start(log, after)));
  }

  /** The id cursor reads exactly the next slice of an ascending log. */
  lemma {:induction false} SelectIsSlice(view: seq<Row>, after: int, limit: nat)
    requires Ascending(view)
    ensures Select(view, after, limit) == view[Start(view, after)..Min(|view|, Start(view, after) + limit)]
  {
    if view != [] && limit != 0 {
      var rest := view[1..];
      var from := Start(rest, after);
      if view[0].id > after {
        SelectIsSlice(rest, after, limit - 1);
        StartIsBoundary(view, after);
        assert Start(view, after) > 0 ==> Below(view, after, 0);
        var n := Min(|rest|, limit - 1);
        TailSlice(view, 0, n);
        assert view[..n + 1] == [view[0]] + view[1..n + 1];
      } else {
        SelectIsSlice(rest, after, limit);
        TailSlice(view, from, Min(|rest|, from + limit));
      }
    }
  }

  lemma TailSlice(view: seq<Row>, from: nat, to: nat)
    requires from <= to < |view|
    ensures view[1..][from..to] == view[from + 1..to + 1]
  {
  }

  function NextView(log: seq<Row>, views: seq<nat>): (n: nat)
    ensures n <= |log|
  {
    if views == [] then |log| else Min(views[0], |log|)
  }

  /** The pages read from position `from` when successive queries see prefixes of the log of the
      given lengths, and afterwards the whole log. */
  function Pages(log: seq<Row>, views: seq<nat>, from: nat, size: nat): seq<seq<Row>>
    requires size >= 1 && from <= |log|
    decreases |log| - from
  {
    var seen := NextView(log, views);
    if seen <= from then []
    else
      var to := Min(seen, from + size);
      [log[from..to]] + Pages(log, if views == [] then [] else views[1..], to, size)
  }

  function Reached(log: seq<Row>, views: seq<nat>, from: nat, size: nat): (n: nat)
    requires size >= 1 && from <= |log|
    ensures from <= n <= |log|
    decreases |log| - from
  {
    var seen := NextView(log, views);
    if seen <= from then from
    else Reached(log, if views == [] then [] else views[1..], Min(seen, from + size), size)
  }

  /** Successive queries never see less than before, nor more than the whole log. */
  predicate Views(log: seq<Row>, views: seq<nat>, floor: nat) {
    if views == [] then floor <= |log| else floor <= views[0] <= |log| && Views(log, views[1..], views[0])
  }

  function Concat(pages: seq<seq<Row>>): seq<Row> {
    if pages == [] then [] else pages[0] + Concat(pages[1..])
  }

  lemma ConcatFirst(page: seq<Row>, pages: seq<seq<Row>>)
    ensures Concat([page] + pages) == page + Concat(pages)
  {
    assert ([page] + pages)[1..] == pages;
  }

  lemma SliceJoins(log: seq<Row>, from: nat, to: nat, n: nat)
    requires from <= to <= n <= |log|
    ensures log[from..n] == log[from..to] + log[to..n]
  {
  }

  /** Paging reads a contiguous stretch of the log. */
  lemma {:induction false} PagesAreSlice(log: seq<Row>, views: seq<nat>, from: nat, size: nat)
    requires size >= 1 && from <= |log|
    ensures Concat(Pages(log, views, from, size)) == log[from..Reached(log, views, from, size)]
    decreases |log| - from
  {
    var seen := NextView(log, views);
    if seen > from {
      var rest := if views == [] then [] else views[1..];
      var to := Min(seen, from + size);
      PagesAreSlice(log, rest, to, size);
      ConcatFirst(log[from..to], Pages(log, rest, to, size));
      SliceJoins(log, from, to, Reached(log, rest, to, size));
    }
  }

  /** Pages are not empty and hold at most `size` rows. */
  lemma {:induction false} PagesSized(log: seq<Row>, views: seq<nat>, from: nat, size: nat)
    requires size >= 1 && from <= |log|
    ensures forall p :: p in Pages(log, views, from, size) ==> 1 <= |p| <= size
    decreases |log| - from
  {
    var seen := NextView(log, views);
    if seen > from {
      PagesSized(log, if views == [] then [] else views[1..], Min(seen, from + size), size);
    }
  }

  /** Paging does not stop before everything visible when it started has been read. */
  lemma {:induction false} ReachedFloor(log: seq<Row>, views: seq<nat>, from: nat, size: nat, floor: nat)
    requires size >= 1 && from <= |log| && Views(log, views, floor)
    ensures Reached(log, views, from, size) >= floor
    decreases |log| - from
  {
    var seen := NextView(log, views);
    if seen > from {
      ReachedFloor(log, if views == [] then [] else views[1..], Min(seen, from + size), size, if views == [] then floor else views[0]);
    }
  }

  // ---- what a run of pages does to a table ----

  /** A dry run only maps the rows. */
  predicate GoodPage(page: seq<Row>, write: bool) {
    AllValid(page) && (write ==> DistinctKeys(page))
  }

  function MovePage(t: Table, page: seq<Row>, write: bool, run: nat): Table {
    if write then Store(t, page, run) else t
  }

  function MovePages(t: Table, pages: seq<seq<Row>>, write: bool, run: nat): Option<Table>
    decreases |pages|
  {
    if pages == [] then Some(t)
    else if GoodPage(pages[0], write) then MovePages(MovePage(t, pages[0], write, run), pages[1..], write, run)
    else None
  }

  /** Paging succeeds exactly when every row maps and no page repeats a conflict key; it then
      amounts to one scan of what was read. */
  lemma {:induction false} MovePagesIsStore(t: Table, pages: seq<seq<Row>>, write: bool, run: nat)
    ensures MovePages(t, pages, write, run).Some? <==> forall p :: p in pages ==> GoodPage(p, write)
    ensures MovePages(t, pages, write, run).Some? ==>
      MovePages(t, pages, write, run).value == if write then Store(t, Concat(pages), run) else t
    decreases |pages|
  {
    if pages != [] {
      MovePagesIsStore(MovePage(t, pages[0], write, run), pages[1..], write, run);
      StoreConcat(t, pages[0], Concat(pages[1..]), run);
      assert forall p :: p in pages <==> p == pages[0] || p in pages[1..];
    }
  }
}
