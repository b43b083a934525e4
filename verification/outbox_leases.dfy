/** Any number of dispatching workers, interleaved statement by statement, with crashes. */
module OutboxLeases {
  import opened Common
  import opened OutboxDispatcher

  /** An item of the current batch: the row and the attempt number it was claimed with. */
  datatype Item = Item(id: nat, attempts: nat)

  datatype Stage = Ready | Published | Failing

  datatype Worker = Resting | Batch(todo: seq<Item>, stage: Stage)

  datatype State = State(
    now: int,
    rows: Rows,
    inserted: set<nat>,                // ids ever inserted; serials may commit out of order
    top: nat,                          // above every id
    workers: map<string, Worker>,      // by owner name; a restarted worker may reuse its name
    publications: set<Item>,           // which row was published under which claim
    deliveries: seq<nat>,              // rows in the order they became delivered
    touched: map<nat, int>,            // when a row was last inserted, claimed or released
    maxLease: int,                     // no worker uses a longer lease
    maxRetry: int)                     // no worker uses a longer retry delay

  datatype Action =
    | Tick(elapsed: nat)
    | Enqueue(id: nat, parses: bool)
    | Claim(limit: nat, lease: int, skipped: set<nat>)
    | Publish(succeeds: bool)
    | Mark
    | MarkUnseen(applied: bool)                             // the statement reports an error
    | Release(base: int, max: int)
    | ReleaseUnseen(base: int, max: int, applied: bool)     // the statement reports an error
    | Crash
    | Prune(before: int, limit: nat)

  function WorkerOf(s: State, w: string): Worker {
    if w in s.workers then s.workers[w] else Resting
  }

  predicate AtStage(s: State, w: string, stage: Stage) {
    w in s.workers && s.workers[w].Batch? && s.workers[w].todo != [] && s.workers[w].stage == stage
  }

  predicate Enabled(s: State, w: string, a: Action) {
    match a
    case Tick(_) => true
    case Enqueue(id, _) => id !in s.inserted
    case Claim(_, lease, _) => WorkerOf(s, w).Resting? && 1 <= lease <= s.maxLease
    case Publish(_) => AtStage(s, w, Ready)
    case Mark => AtStage(s, w, Published)
    case MarkUnseen(_) => AtStage(s, w, Published)
    case Release(base, max) => AtStage(s, w, Failing) && 1 <= base <= max <= s.maxRetry
    case ReleaseUnseen(base, max, _) => AtStage(s, w, Failing) && 1 <= base <= max <= s.maxRetry
    case Crash => true
    case Prune(_, _) => true
  }

  function NextItem(todo: seq<Item>): Worker
    requires todo != []
  {
    if |todo| == 1 then Resting else Batch(todo[1..], Ready)
  }

  function ClaimBatch(s: State, w: string, limit: nat, lease: int, skipped: set<nat>): State {
    var ids := Pick(s.rows, 0, s.top, s.now, lease, limit, skipped);
    var rows := ClaimAll(s.rows, ids, w, s.now);
    var todo := seq(|ids|, i requires 0 <= i < |ids| => Item(ids[i], Returned(rows, ids[i]).attempts));
    s.(rows := rows,
       workers := s.workers[w := if ids == [] then Resting else Batch(todo, Ready)],
       touched := map id | id in s.touched.Keys + (set x | x in ids) :: if id in ids then s.now else s.touched[id])
  }

  function PublishItem(s: State, w: string, succeeds: bool): State
    requires AtStage(s, w, Ready)
  {
    var todo := s.workers[w].todo;
    var ok := succeeds && (todo[0].id in s.rows ==> s.rows[todo[0].id].parses);
    s.(publications := if ok then s.publications + {todo[0]} else s.publications,
       workers := s.workers[w := Batch(todo, if ok then Published else Failing)])
  }

  function MarkItem(s: State, w: string, applied: bool, reported: bool): State
    requires AtStage(s, w, Published)
  {
    var todo := s.workers[w].todo;
    var owns := applied && Owns(s.rows, todo[0].id, w);
    s.(rows := if owns then MarkRow(s.rows, todo[0].id, w, s.now) else s.rows,
       deliveries := if owns then s.deliveries + [todo[0].id] else s.deliveries,
       workers := s.workers[w := if owns && reported then NextItem(todo) else Batch(todo, Failing)])
  }

  function ReleaseItem(s: State, w: string, base: int, max: int, applied: bool, reported: bool): State
    requires AtStage(s, w, Failing)
  {
    var todo := s.workers[w].todo;
    var id := todo[0].id;
    var owns := applied && Owns(s.rows, id, w);
    s.(rows := if owns then ReleaseRow(s.rows, id, w, "failed", s.now + RetryDelay(todo[0].attempts, base, max)) else s.rows,
       touched := if owns then s.touched[id := s.now] else s.touched,
       workers := s.workers[w := if reported then NextItem(todo) else Resting])
  }

  function Apply(s: State, w: string, a: Action): State
    requires Enabled(s, w, a)
  {
    match a
    case Tick(elapsed) => s.(now := s.now + elapsed)
    case Enqueue(id, parses) =>
      s.(rows := s.rows[id := Row(parses, 0, s.now, None, None, None, None)],
         touched := s.touched[id := s.now],
         inserted := s.inserted + {id},
         top := if id < s.top then s.top else id + 1)
    case Claim(limit, lease, skipped) => ClaimBatch(s, w, limit, lease, skipped)
    case Publish(succeeds) => PublishItem(s, w, succeeds)
    case Mark => MarkItem(s, w, true, true)
    case MarkUnseen(applied) => MarkItem(s, w, applied, false)
    case Release(base, max) => ReleaseItem(s, w, base, max, true, true)
    case ReleaseUnseen(base, max, applied) => ReleaseItem(s, w, base, max, applied, false)
    case Crash => s.(workers := s.workers - {w})
    case Prune(before, limit) => s.(rows := s.rows - PickStale(s.rows, 0, s.top, before, limit))
  }

  predicate Step(s: State, w: string, a: Action, s': State) {
    Enabled(s, w, a) && s' == Apply(s, w, a)
  }

  ghost predicate Next(s: State, s': State) {
    exists w: string, a: Action :: Step(s, w, a, s')
  }

  // ---- invariant ----

  /** A claimed item that still owns its row holds the row's latest claim. */
  predicate ItemOk(rows: Rows, inserted: set<nat>, w: string, it: Item) {
    && it.id in inserted
    && (it.id in rows ==>
          it.attempts <= rows[it.id].attempts
          && (rows[it.id].owner == Some(w) ==> it.attempts == rows[it.id].attempts))
  }

  predicate WorkerOk(s: State, w: string)
    requires w in s.workers && s.workers[w].Batch?
  {
    var b := s.workers[w];
    && b.todo != []
    && (forall i :: 0 <= i < |b.todo| ==> ItemOk(s.rows, s.inserted, w, b.todo[i]))
    && (forall i, j :: 0 <= i < j < |b.todo| ==> b.todo[i].id < b.todo[j].id)
    && (b.stage == Published ==> b.todo[0] in s.publications)
  }

  ghost predicate WorkersOk(s: State) {
    forall w :: w in s.workers && s.workers[w].Batch? ==> WorkerOk(s, w)
  }

  /** Where an undelivered row stands in time: its backoff and its lease both run from the
      last time it was touched. */
  predicate RowOk(s: State, id: nat)
    requires id in s.rows
  {
    var row := s.rows[id];
    && id in s.inserted
    && (row.owner.Some? <==> row.lockedAt.Some?)
    && (row.deliveredAt.Some? ==> row.owner == None && Item(id, row.attempts) in s.publications)
    && id in s.touched && s.touched[id] <= s.now
    && (row.deliveredAt == None ==> row.availableAt <= s.touched[id] + s.maxRetry)
    && (row.lockedAt.Some? ==> row.lockedAt.value <= s.touched[id])
  }

  ghost predicate RowsOk(s: State) {
    && s.maxRetry >= 1 && s.maxLease >= 1
    && (forall id :: id in s.rows ==> RowOk(s, id))
    && (forall id :: id in s.inserted ==> id < s.top)
  }

  predicate Undelivered(s: State, id: nat) {
    id in s.rows && s.rows[id].deliveredAt == None
  }

  ghost predicate EverPublished(s: State, id: nat) {
    exists it :: it in s.publications && it.id == id
  }

  /** Every inserted row is either still to be delivered, or was delivered, once, after being published. */
  ghost predicate DeliveriesOk(s: State) {
    && (forall id :: id in s.inserted ==> (Undelivered(s, id) <==> id !in s.deliveries))
    && (forall i, j :: 0 <= i < j < |s.deliveries| ==> s.deliveries[i] != s.deliveries[j])
    && (forall id :: id in s.deliveries ==> id in s.inserted && EverPublished(s, id))
  }

  ghost predicate Inv(s: State) {
    WorkersOk(s) && RowsOk(s) && DeliveriesOk(s)
  }

  predicate Initial(s: State) {
    s.rows == map[] && s.inserted == {} && s.top == 0 && s.workers == map[] && s.publications == {} && s.deliveries == []
    && s.touched == map[] && s.maxLease >= 1 && s.maxRetry >= 1
  }

  lemma EnqueueInv(s: State, w: string, a: Action)
    requires Inv(s) && Enabled(s, w, a) && (a.Enqueue? || a.Tick? || a.Crash?)
    ensures Inv(Apply(s, w, a))
  {
    var s' := Apply(s, w, a);
    forall u | u in s'.workers && s'.workers[u].Batch? ensures WorkerOk(s', u) {
      assert WorkerOk(s, u);
    }
    forall id | id in s'.rows ensures RowOk(s', id) {
      if id in s.rows { assert RowOk(s, id); }
    }
    assert forall id :: id in s.deliveries ==> EverPublished(s, id);
    assert forall id :: EverPublished(s', id) <==> EverPublished(s, id);
  }

  lemma PruneInv(s: State, w: string, before: int, limit: nat)
    requires Inv(s)
    ensures Inv(Apply(s, w, Prune(before, limit)))
    ensures forall id :: Undelivered(s, id) ==> Undelivered(Apply(s, w, Prune(before, limit)), id)
  {
    var s' := Apply(s, w, Prune(before, limit));
    PickStaleSound(s.rows, 0, s.top, before, limit);
    forall u | u in s'.workers && s'.workers[u].Batch? ensures WorkerOk(s', u) {
      assert WorkerOk(s, u);
    }
    forall id | id in s'.rows ensures RowOk(s', id) {
      assert RowOk(s, id);
    }
    assert forall id :: EverPublished(s', id) <==> EverPublished(s, id);
  }

  lemma ClaimInv(s: State, w: string, limit: nat, lease: int, skipped: set<nat>)
    requires Inv(s) && Enabled(s, w, Claim(limit, lease, skipped))
    ensures Inv(ClaimBatch(s, w, limit, lease, skipped))
  {
    var s' := ClaimBatch(s, w, limit, lease, skipped);
    PickSound(s.rows, 0, s.top, s.now, lease, limit, skipped);
    var ids := Pick(s.rows, 0, s.top, s.now, lease, limit, skipped);
    forall u | u in s'.workers && s'.workers[u].Batch? ensures WorkerOk(s', u) {
      if u != w {
        assert WorkerOk(s, u);
      } else {
        var todo := s'.workers[w].todo;
        forall i | 0 <= i < |todo| ensures ItemOk(s'.rows, s'.inserted, w, todo[i]) {
          assert ids[i] in ids;
        }
      }
    }
    forall id | id in s'.rows ensures RowOk(s', id) {
      assert RowOk(s, id);
    }
    assert forall id :: EverPublished(s', id) <==> EverPublished(s, id);
  }

  lemma PublishInv(s: State, w: string, succeeds: bool)
    requires Inv(s) && AtStage(s, w, Ready)
    ensures Inv(PublishItem(s, w, succeeds))
  {
    var s' := PublishItem(s, w, succeeds);
    forall u | u in s'.workers && s'.workers[u].Batch? ensures WorkerOk(s', u) {
      assert WorkerOk(s, u);
    }
    forall id | id in s'.rows ensures RowOk(s', id) {
      assert RowOk(s, id);
    }
    forall id | EverPublished(s, id) ensures EverPublished(s', id) {
      var it :| it in s.publications && it.id == id;
      assert it in s'.publications;
    }
  }

  lemma RestOk(s: State, w: string, s': State)
    requires w in s.workers && s.workers[w].Batch? && WorkerOk(s, w)
    requires s'.inserted == s.inserted && w in s'.workers && s'.workers[w] == NextItem(s.workers[w].todo)
    requires forall i :: 0 <= i < |s.workers[w].todo| ==> ItemOk(s'.rows, s'.inserted, w, s.workers[w].todo[i])
    ensures s'.workers[w].Batch? ==> WorkerOk(s', w)
  {
  }

  lemma MarkInv(s: State, w: string, applied: bool, reported: bool)
    requires Inv(s) && AtStage(s, w, Published)
    ensures Inv(MarkItem(s, w, applied, reported))
  {
    var s' := MarkItem(s, w, applied, reported);
    var it := s.workers[w].todo[0];
    assert WorkerOk(s, w) && ItemOk(s.rows, s.inserted, w, it);
    forall u, x | u in s.workers && s.workers[u].Batch? && x in s.workers[u].todo
      ensures ItemOk(s'.rows, s'.inserted, u, x)
    {
      assert WorkerOk(s, u);
    }
    forall u | u in s'.workers && s'.workers[u].Batch? ensures WorkerOk(s', u) {
      assert WorkerOk(s, u);
      if u == w && s'.workers[w] == NextItem(s.workers[w].todo) { RestOk(s, w, s'); }
    }
    forall id | id in s'.rows ensures RowOk(s', id) {
      assert RowOk(s, id);
    }
    assert Owns(s.rows, it.id, w) ==> it.id !in s.deliveries;
    forall id | id in s'.deliveries ensures id in s'.inserted && EverPublished(s', id) {
      if id in s.deliveries {
        assert EverPublished(s, id);
        var x :| x in s.publications && x.id == id;
        assert x in s'.publications;
      } else {
        assert it in s'.publications;
      }
    }
  }

  lemma ReleaseInv(s: State, w: string, base: int, max: int, applied: bool, reported: bool)
    requires Inv(s) && AtStage(s, w, Failing) && 1 <= base <= max <= s.maxRetry
    ensures Inv(ReleaseItem(s, w, base, max, applied, reported))
  {
    var s' := ReleaseItem(s, w, base, max, applied, reported);
    var it := s.workers[w].todo[0];
    assert WorkerOk(s, w) && ItemOk(s.rows, s.inserted, w, it);
    RetryDelayBounded(it.attempts, it.attempts, base, max);
    forall u, x | u in s.workers && s.workers[u].Batch? && x in s.workers[u].todo
      ensures ItemOk(s'.rows, s'.inserted, u, x)
    {
      assert WorkerOk(s, u);
    }
    forall u | u in s'.workers && s'.workers[u].Batch? ensures WorkerOk(s', u) {
      assert WorkerOk(s, u);
      if u == w { RestOk(s, w, s'); }
    }
    forall id | id in s'.rows ensures RowOk(s', id) {
      assert RowOk(s, id);
    }
    assert forall id :: EverPublished(s', id) <==> EverPublished(s, id);
  }

  /** Every statement of every worker keeps the invariant. */
  lemma StepInv(s: State, w: string, a: Action)
    requires Inv(s) && Enabled(s, w, a)
    ensures Inv(Apply(s, w, a))
  {
    match a
    case Claim(limit, lease, skipped) => ClaimInv(s, w, limit, lease, skipped);
    case Publish(succeeds) => PublishInv(s, w, succeeds);
    case Mark => MarkInv(s, w, true, true);
    case MarkUnseen(applied) => MarkInv(s, w, applied, false);
    case Release(base, max) => ReleaseInv(s, w, base, max, true, true);
    case ReleaseUnseen(base, max, applied) => ReleaseInv(s, w, base, max, applied, false);
    case Prune(before, limit) => PruneInv(s, w, before, limit);
    case _ => EnqueueInv(s, w, a);
  }

  // ---- whole runs ----

  ghost predicate Follows(run: seq<State>, i: nat)
    requires i + 1 < |run|
  {
    Next(run[i], run[i + 1])
  }

  ghost predicate IsRun(run: seq<State>) {
    run != [] && Initial(run[0]) && forall i :: 0 <= i < |run| - 1 ==> Follows(run, i)
  }

  lemma {:induction false} ReachableInv(run: seq<State>, i: nat)
    requires IsRun(run) && i < |run|
    ensures Inv(run[i])
  {
    if i > 0 {
      ReachableInv(run, i - 1);
      assert Follows(run, i - 1);
      var w, a :| Step(run[i - 1], w, a, run[i]);
      StepInv(run[i - 1], w, a);
    }
  }

  /** Nothing is lost: a row is deleted only after delivery, delivered at most once, and
      delivered only after somebody published it. */
  lemma NoLoss(run: seq<State>, i: nat, id: nat)
    requires IsRun(run) && i < |run| && id in run[i].inserted
    ensures Undelivered(run[i], id) <==> id !in run[i].deliveries
    ensures id in run[i].deliveries ==> EverPublished(run[i], id)
    ensures multiset(run[i].deliveries)[id] <= 1
  {
    ReachableInv(run, i);
    DistinctCounts(run[i].deliveries, id);
  }

  lemma {:induction false} DistinctCounts(xs: seq<nat>, x: nat)
    requires forall i, j :: 0 <= i < j < |xs| ==> xs[i] != xs[j]
    ensures multiset(xs)[x] <= 1
  {
    if xs != [] {
      var last := |xs| - 1;
      DistinctCounts(xs[..last], x);
      assert xs == xs[..last] + [xs[last]];
      assert xs[last] !in xs[..last];
    }
  }

  /** A delivered row was published under its latest claim. */
  lemma DeliveredWasPublished(run: seq<State>, i: nat, id: nat)
    requires IsRun(run) && i < |run| && id in run[i].rows && run[i].rows[id].deliveredAt.Some?
    ensures Item(id, run[i].rows[id].attempts) in run[i].publications
  {
    ReachableInv(run, i);
    assert RowOk(run[i], id);
  }

  /** Lease safety: a worker whose row was claimed again since changes nothing when it marks or
      releases; one that does change the row is its owner under the latest claim. */
  lemma LeaseSafety(run: seq<State>, i: nat, w: string, a: Action)
    requires IsRun(run) && i < |run| && Enabled(run[i], w, a)
    requires a.Mark? || a.MarkUnseen? || a.Release? || a.ReleaseUnseen?
    ensures var s, s', it := run[i], Apply(run[i], w, a), run[i].workers[w].todo[0];
      && (it.id in s.rows && s.rows[it.id].attempts != it.attempts ==> s'.rows == s.rows && s'.deliveries == s.deliveries)
      && (s'.rows != s.rows ==>
            it.id in s.rows && s.rows[it.id].attempts == it.attempts && s.rows[it.id].owner == Some(w)
            && s.rows[it.id].deliveredAt == None)
      && (s'.deliveries != s.deliveries ==> it in s.publications && s'.deliveries == s.deliveries + [it.id])
  {
    ReachableInv(run, i);
    assert WorkerOk(run[i], w);
  }

  predicate Recovered(s: State, id: nat)
    requires id in s.touched
  {
    s.now > s.touched[id] + Max(s.maxLease, s.maxRetry)
  }

  /** Bounded recovery: whatever happened to its workers, an undelivered row can be claimed as
      soon as the longer of lease and retry delay has passed since it was last touched. */
  lemma BoundedRecovery(run: seq<State>, i: nat, id: nat, lease: int)
    requires IsRun(run) && i < |run| && Undelivered(run[i], id) && 1 <= lease <= run[i].maxLease
    ensures id in run[i].touched
    ensures Recovered(run[i], id) ==> Eligible(run[i].rows[id], run[i].now, lease)
  {
    ReachableInv(run, i);
    assert RowOk(run[i], id);
  }

  /** The oldest eligible row that nobody else has locked is in the next batch of whoever claims. */
  lemma OldestIsClaimed(s: State, w: string, limit: nat, lease: int, skipped: set<nat>, id: nat)
    requires Inv(s) && Enabled(s, w, Claim(limit, lease, skipped)) && limit >= 1
    requires Candidate(s.rows, id, s.now, lease, skipped)
    requires forall p: nat :: p < id ==> !Candidate(s.rows, p, s.now, lease, skipped)
    ensures var s' := ClaimBatch(s, w, limit, lease, skipped);
      s'.workers[w].Batch? && s'.workers[w].todo[0] == Item(id, s.rows[id].attempts + 1) && Owns(s'.rows, id, w)
  {
    assert RowOk(s, id);
    PickSound(s.rows, 0, s.top, s.now, lease, limit, skipped);
    var ids := Pick(s.rows, 0, s.top, s.now, lease, limit, skipped);
    assert |ids| > 0 ==> ids[0] in ids;
    assert id in ids;
  }
}
