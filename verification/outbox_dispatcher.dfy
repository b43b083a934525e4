/** The outbox table and its dispatcher: lease, publish, mark, release, prune. */
module OutboxDispatcher {
  import opened Common

  datatype Row = Row(
    parses: bool,                 // whether the stored payload is a valid one
    attempts: nat,
    availableAt: int,
    lockedAt: Option<int>,
    owner: Option<string>,
    deliveredAt: Option<int>,
    lastError: Option<string>)

  datatype Claimed = Claimed(id: nat, parses: bool, attempts: nat)

  type Rows = map<nat, Row>

  // ---- pure pieces ----

  function NormalizeLimit(value: Option<real>): (r: nat)
    ensures 1 <= r <= 500
  {
    Min(500, Max(1, (if value.Some? then value.value else 50.0).Floor))
  }

  function NormalizeDuration(value: Option<real>, fallback: int): (r: int)
    ensures r >= 1
  {
    Max(1, if value.Some? then value.value.Floor else fallback)
  }

  function Pow2(n: nat): (r: nat)
    ensures r >= 1
  {
    if n == 0 then 1 else 2 * Pow2(n - 1)
  }

  function RetryDelay(attempts: int, base: int, max: int): int {
    Min(max, base * Pow2(Min(20, Max(0, attempts - 1))))
  }

  lemma {:induction false} Pow2Monotone(m: nat, n: nat)
    requires m <= n
    ensures Pow2(m) <= Pow2(n)
  {
    if m < n { Pow2Monotone(m, n - 1); }
  }

  /** The backoff never shrinks with the attempts and stays within the configured window. */
  lemma RetryDelayBounded(attempts: int, more: int, base: int, max: int)
    requires 1 <= base <= max && attempts <= more
    ensures base <= RetryDelay(attempts, base, max) <= RetryDelay(more, base, max) <= max
    ensures attempts <= 1 ==> RetryDelay(attempts, base, max) == base
  {
    var m, n := Min(20, Max(0, attempts - 1)), Min(20, Max(0, more - 1));
    Pow2Monotone(m, n);
    ScaleMonotone(base, 1, Pow2(m));
    ScaleMonotone(base, Pow2(m), Pow2(n));
    assert attempts <= 1 ==> m == 0;
  }

  lemma ScaleMonotone(base: int, x: int, y: int)
    requires base >= 0 && x <= y
    ensures base * x <= base * y
  {
  }

  predicate Eligible(row: Row, now: int, lease: int) {
    && row.deliveredAt == None
    && row.availableAt <= now
    && (row.lockedAt == None || row.lockedAt.value < now - lease)
  }

  predicate Candidate(rows: Rows, id: nat, now: int, lease: int, skipped: set<nat>) {
    id in rows && id !in skipped && Eligible(rows[id], now, lease)
  }

  /** The first `limit` candidates by id, from `lo` on; `skipped` are rows locked by others. */
  function Pick(rows: Rows, lo: nat, hi: nat, now: int, lease: int, limit: nat, skipped: set<nat>): seq<nat>
    decreases hi - lo
  {
    if lo >= hi || limit == 0 then []
    else if Candidate(rows, lo, now, lease, skipped)
      then [lo] + Pick(rows, lo + 1, hi, now, lease, limit - 1, skipped)
    else Pick(rows, lo + 1, hi, now, lease, limit, skipped)
  }

  predicate AscendingIds(ids: seq<nat>) {
    forall i, j :: 0 <= i < j < |ids| ==> ids[i] < ids[j]
  }

  /** What is picked: candidates in id order, and no candidate is passed over for a later one. */
  lemma {:induction false} PickSound(rows: Rows, lo: nat, hi: nat, now: int, lease: int, limit: nat, skipped: set<nat>)
    ensures var ids := Pick(rows, lo, hi, now, lease, limit, skipped);
      && |ids| <= limit && AscendingIds(ids)
      && (forall id :: id in ids ==> lo <= id < hi && Candidate(rows, id, now, lease, skipped))
      && (forall id :: lo <= id < hi && Candidate(rows, id, now, lease, skipped) && id !in ids
            ==> |ids| == limit && forall p :: p in ids ==> p < id)
    decreases hi - lo
  {
    if lo < hi && limit != 0 {
      if Candidate(rows, lo, now, lease, skipped) {
        PickSound(rows, lo + 1, hi, now, lease, limit - 1, skipped);
        var rest := Pick(rows, lo + 1, hi, now, lease, limit - 1, skipped);
        forall j | 0 <= j < |rest| ensures lo < rest[j] {
          assert rest[j] in rest;
        }
      } else {
        PickSound(rows, lo + 1, hi, now, lease, limit, skipped);
      }
    }
  }

  function ClaimRow(row: Row, owner: string, now: int): Row {
    row.(attempts := row.attempts + 1, lockedAt := Some(now), owner := Some(owner), lastError := None)
  }

  function ClaimAll(rows: Rows, ids: seq<nat>, owner: string, now: int): Rows {
    map id | id in rows :: if id in ids then ClaimRow(rows[id], owner, now) else rows[id]
  }

  function Returned(rows: Rows, id: nat): Claimed {
    if id in rows then Claimed(id, rows[id].parses, rows[id].attempts) else Claimed(id, false, 0)
  }

  /** What the claim statement returns: the picked rows as they are after it. */
  function ClaimedItems(rows: Rows, ids: seq<nat>, owner: string, now: int): (r: seq<Claimed>)
    ensures |r| == |ids|
  {
    var after := ClaimAll(rows, ids, owner, now);
    seq(|ids|, i requires 0 <= i < |ids| => Returned(after, ids[i]))
  }

  predicate Owns(rows: Rows, id: nat, owner: string) {
    id in rows && rows[id].owner == Some(owner) && rows[id].deliveredAt == None
  }

  function MarkRow(rows: Rows, id: nat, owner: string, now: int): Rows {
    if Owns(rows, id, owner)
    then rows[id := rows[id].(deliveredAt := Some(now), lockedAt := None, owner := None, lastError := None)]
    else rows
  }

  function ReleaseRow(rows: Rows, id: nat, owner: string, error: string, availableAt: int): Rows {
    if Owns(rows, id, owner)
    then rows[id := rows[id].(availableAt := availableAt, lockedAt := None, owner := None, lastError := Some(error))]
    else rows
  }

  predicate Stale(rows: Rows, id: nat, before: int) {
    id in rows && rows[id].deliveredAt.Some? && rows[id].deliveredAt.value < before
  }

  function PickStale(rows: Rows, lo: nat, hi: nat, before: int, limit: nat): set<nat>
    decreases hi - lo
  {
    if lo >= hi || limit == 0 then {}
    else if Stale(rows, lo, before) then {lo} + PickStale(rows, lo + 1, hi, before, limit - 1)
    else PickStale(rows, lo + 1, hi, before, limit)
  }

  /** Pruning takes the oldest delivered rows, and nothing that was not delivered. */
  lemma {:induction false} PickStaleSound(rows: Rows, lo: nat, hi: nat, before: int, limit: nat)
    ensures var ids := PickStale(rows, lo, hi, before, limit);
      && |ids| <= limit
      && (forall id :: id in ids ==> lo <= id < hi && Stale(rows, id, before))
      && (forall id :: lo <= id < hi && Stale(rows, id, before) && id !in ids
            ==> |ids| == limit && forall p :: p in ids ==> p < id)
    decreases hi - lo
  {
    if lo < hi && limit != 0 {
      PickStaleSound(rows, lo + 1, hi, before, if Stale(rows, lo, before) then limit - 1 else limit);
    }
  }

  // ---- the dispatcher of one worker ----

  /** The characters that trimming a string removes: white space and line terminators. */
  predicate Space(c: char) {
    || c in ['\t', '\U{000B}', '\U{000C}', ' ', '\U{00A0}', '\U{FEFF}', '\n', '\r', '\U{2028}', '\U{2029}']
    || c in ['\U{1680}', '\U{202F}', '\U{205F}', '\U{3000}'] || '\U{2000}' <= c <= '\U{200A}'
  }

  predicate Blank(owner: string) {
    forall i :: 0 <= i < |owner| ==> Space(owner[i])
  }

  /** How a statement ends; one that reports an error may have applied all the same. */
  datatype Statement = Runs | Errs(applied: bool)

  predicate Lands(st: Statement) {
    st.Runs? || st.applied
  }

  /** One attempt to publish: how it ended, what other workers made of the table meanwhile, and how
      the statements after it end. */
  datatype Turn = Turn(published: bool, rows: Rows, now: int, mark: Statement, release: Statement)

  /** A row counts as delivered when it was published and marked while still leased to this worker. */
  predicate Delivers(item: Claimed, owner: string, turn: Turn) {
    item.parses && turn.published && turn.mark.Runs? && Owns(turn.rows, item.id, owner)
  }

  function AfterMark(item: Claimed, owner: string, turn: Turn): Rows {
    if item.parses && turn.published && Lands(turn.mark) then MarkRow(turn.rows, item.id, owner, turn.now) else turn.rows
  }

  function AfterTurn(item: Claimed, owner: string, turn: Turn, base: int, max: int): Rows {
    if Delivers(item, owner, turn) || !Lands(turn.release) then AfterMark(item, owner, turn)
    else ReleaseRow(AfterMark(item, owner, turn), item.id, owner, "failed", turn.now + RetryDelay(item.attempts, base, max))
  }

  /** An error from the release statement ends the batch. */
  predicate Ends(item: Claimed, owner: string, turn: Turn) {
    !Delivers(item, owner, turn) && turn.release.Errs?
  }

  /** The table after each item handled, how many were delivered, and whether the batch completed. */
  datatype Progress = Progress(trail: seq<Rows>, delivered: nat, completed: bool)

  function Dispatched(items: seq<Claimed>, owner: string, turns: seq<Turn>, base: int, max: int): (r: Progress)
    requires |turns| >= |items|
    ensures r.delivered <= |r.trail| <= |items| && (r.completed ==> |r.trail| == |items|)
    ensures !r.completed ==> |r.trail| > 0
  {
    if items == [] then Progress([], 0, true) else
      var last := |items| - 1;
      var before := Dispatched(items[..last], owner, turns, base, max);
      if !before.completed then before
      else Progress(before.trail + [AfterTurn(items[last], owner, turns[last], base, max)],
                    before.delivered + (if Delivers(items[last], owner, turns[last]) then 1 else 0),
                    !Ends(items[last], owner, turns[last]))
  }

  lemma {:induction false} EndStays(items: seq<Claimed>, owner: string, turns: seq<Turn>, base: int, max: int, n: nat)
    requires n <= |items| <= |turns| && !Dispatched(items[..n], owner, turns, base, max).completed
    ensures Dispatched(items, owner, turns, base, max) == Dispatched(items[..n], owner, turns, base, max)
  {
    if n == |items| {
      assert items[..n] == items;
    } else {
      assert items[..|items| - 1][..n] == items[..n];
      EndStays(items[..|items| - 1], owner, turns, base, max, n);
    }
  }

  /** The options of one dispatch, before their defaults. */
  datatype Options = Options(owner: string, limit: Option<real>, lease: Option<real>, retryBase: Option<real>, retryMax: Option<real>)

  /** The retry window is never empty. */
  function RetryWindow(o: Options): (w: (int, int))
    ensures 1 <= w.0 <= w.1
  {
    var base := NormalizeDuration(o.retryBase, 1_000);
    (base, Max(base, NormalizeDuration(o.retryMax, 60_000)))
  }

  class Outbox {
    var rows: Rows
    var nextId: nat

    ghost predicate Valid()
      reads this
    {
      forall id :: id in rows ==> id < nextId
    }

    constructor ()
      ensures Valid() && rows == map[] && nextId == 0
    {
      rows, nextId := map[], 0;
    }

    method Claim(owner: string, limit: nat, lease: int, now: int, skipped: set<nat>) returns (r: Result<seq<Claimed>, string>)
      requires Valid()
      modifies this`rows
      ensures Valid()
      ensures r.Err? <==> Blank(owner)
      ensures r.Err? ==> rows == old(rows)
      ensures r.Ok? ==>
        var ids := Pick(old(rows), 0, nextId, now, lease, limit, skipped);
        && rows == ClaimAll(old(rows), ids, owner, now)
        && r.value == ClaimedItems(old(rows), ids, owner, now)
    {
      if Blank(owner) { return Err("Read-model outbox owner must not be empty."); }
      var ids := Pick(rows, 0, nextId, now, lease, limit, skipped);
      PickSound(rows, 0, nextId, now, lease, limit, skipped);
      r := Ok(ClaimedItems(rows, ids, owner, now));
      rows := ClaimAll(rows, ids, owner, now);
    }

    method MarkDelivered(id: nat, owner: string, now: int) returns (marked: bool)
      modifies this`rows
      ensures rows == MarkRow(old(rows), id, owner, now)
      ensures marked <==> Owns(old(rows), id, owner)
    {
      marked := id in rows && rows[id].owner == Some(owner) && rows[id].deliveredAt == None;
      if marked {
        rows := rows[id := rows[id].(deliveredAt := Some(now), lockedAt := None, owner := None, lastError := None)];
      }
    }

    method Release(id: nat, owner: string, error: string, availableAt: int) returns (released: bool)
      modifies this`rows
      ensures rows == ReleaseRow(old(rows), id, owner, error, availableAt)
      ensures released <==> Owns(old(rows), id, owner)
    {
      released := id in rows && rows[id].owner == Some(owner) && rows[id].deliveredAt == None;
      if released {
        rows := rows[id := rows[id].(availableAt := availableAt, lockedAt := None, owner := None,
                                     lastError := Some(error))];
      }
    }

    /** A mark that errs counts as a failed attempt, whether or not it applied. */
    method DispatchOne(item: Claimed, owner: string, turn: Turn, base: int, max: int) returns (done: bool, ended: bool)
      modifies this`rows
      ensures rows == AfterTurn(item, owner, turn, base, max)
      ensures (done <==> Delivers(item, owner, turn)) && (ended <==> Ends(item, owner, turn))
    {
      rows := turn.rows;
      done, ended := false, false;
      if item.parses && turn.published && Lands(turn.mark) {
        done := MarkDelivered(item.id, owner, turn.now);
      }
      done := done && turn.mark.Runs?;
      if !done {
        if Lands(turn.release) {
          var _ := Release(item.id, owner, "failed", turn.now + RetryDelay(item.attempts, base, max));
        }
        ended := turn.release.Errs?;
      }
    }

    /** The loop over a batch. While an item is being published other workers may do anything to
        the table; its state when the attempt ends is given by the item's turn. */
    method DispatchItems(claimed: seq<Claimed>, owner: string, turns: seq<Turn>, base: int, max: int)
      returns (completed: bool, delivered: nat, failed: nat, ghost trail: seq<Rows>)
      requires |turns| >= |claimed|
      modifies this`rows
      ensures Progress(trail, delivered, completed) == Dispatched(claimed, owner, turns, base, max)
      ensures delivered + failed == |trail|
      ensures rows == if trail == [] then old(rows) else trail[|trail| - 1]
    {
      completed, delivered, failed, trail := true, 0, 0, [];
      for i := 0 to |claimed|
        invariant completed && Progress(trail, delivered, completed) == Dispatched(claimed[..i], owner, turns, base, max)
        invariant delivered + failed == |trail| == i
        invariant rows == if i == 0 then old(rows) else trail[i - 1]
      {
        var done, ended := DispatchOne(claimed[i], owner, turns[i], base, max);
        assert claimed[..i + 1][..i] == claimed[..i];
        if done {
          delivered := delivered + 1;
        } else {
          failed := failed + 1;
        }
        trail := trail + [rows];
        if ended {
          completed := false;
          EndStays(claimed, owner, turns, base, max, i + 1);
          return;
        }
      }
      assert claimed[..|claimed|] == claimed;
    }

    method DispatchBatch(o: Options, now: int, skipped: set<nat>, turns: seq<Turn>)
      returns (r: Result<seq<Claimed>, string>, completed: bool, delivered: nat, failed: nat, ghost trail: seq<Rows>)
      requires Valid() && |turns| >= 500
      modifies this`rows
      ensures r.Err? <==> Blank(o.owner)
      ensures r.Err? ==> rows == old(rows) && delivered == failed == 0
      ensures r.Ok? ==>
        var ids := Pick(old(rows), 0, nextId, now, NormalizeDuration(o.lease, 30_000), NormalizeLimit(o.limit), skipped);
        && |ids| <= NormalizeLimit(o.limit) && r.value == ClaimedItems(old(rows), ids, o.owner, now)
        && Progress(trail, delivered, completed) == Dispatched(r.value, o.owner, turns, RetryWindow(o).0, RetryWindow(o).1)
        && delivered + failed == |trail|
        && rows == if trail == [] then ClaimAll(old(rows), ids, o.owner, now) else trail[|trail| - 1]
    {
      completed, delivered, failed, trail := true, 0, 0, [];
      var limit, lease := NormalizeLimit(o.limit), NormalizeDuration(o.lease, 30_000);
      r := Claim(o.owner, limit, lease, now, skipped);
      if r.Ok? {
        PickSound(old(rows), 0, nextId, now, lease, limit, skipped);
        completed, delivered, failed, trail := DispatchItems(r.value, o.owner, turns, RetryWindow(o).0, RetryWindow(o).1);
      }
    }

    method Prune(before: int, limit: nat) returns (removed: nat)
      requires Valid()
      modifies this`rows
      ensures Valid() && removed <= limit
      ensures rows == old(rows) - PickStale(old(rows), 0, nextId, before, limit)
      ensures removed == |PickStale(old(rows), 0, nextId, before, limit)|
    {
      var ids := PickStale(rows, 0, nextId, before, limit);
      PickStaleSound(rows, 0, nextId, before, limit);
      rows := rows - ids;
      removed := |ids|;
    }
  }
}
