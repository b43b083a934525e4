/** Revision counters and outbox rows under any number of concurrent writing transactions. */
module RevisionJournal {
  import opened Common
  import opened RevisionKeys

  type WriterId = nat

  /** A stored outbox row: the revisions it announces and the request that wrote it, if any. */
  datatype OutboxRow = OutboxRow(revisions: map<Key, nat>, origin: Option<string>)

  /** What one open transaction has written but not committed. */
  datatype Pending = Pending(heads: map<Key, nat>, row: Option<nat>, origin: Option<string>)

  datatype Journal = Journal(
    base: map<Key, nat>,          // heads before any journal write
    heads: map<Key, nat>,         // committed revisions
    outbox: map<nat, OutboxRow>,  // every committed outbox row
    nextId: nat,                  // serial of the outbox; never given back
    pending: map<WriterId, Pending>)

  function At(m: map<Key, nat>, k: Key): nat {
    if k in m then m[k] else 0
  }

  predicate Holds(j: Journal, w: WriterId, k: Key) {
    w in j.pending && k in j.pending[w].heads
  }

  predicate Free(j: Journal, k: Key) {
    forall w :: w in j.pending ==> k !in j.pending[w].heads
  }

  function PendingOf(j: Journal, w: WriterId): Pending {
    if w in j.pending then j.pending[w] else Pending(map[], None, None)
  }

  datatype Action =
    | Bump(k: Key)
    | InsertRow(origin: Option<string>)
    | Commit
    | Rollback
    | Seed(keys: set<Key>)

  /** Every writer takes its keys in one statement, in sorted order. */
  predicate Ordered(p: Pending, k: Key) {
    forall h :: h in p.heads ==> KeyLess(h, k)
  }

  /** A bump waits while another transaction holds the key; a commit needs the outbox row. */
  predicate Enabled(j: Journal, w: WriterId, a: Action) {
    match a
    case Bump(k) => Free(j, k) && PendingOf(j, w).row == None && Ordered(PendingOf(j, w), k)
    case InsertRow(_) => w in j.pending && j.pending[w].heads != map[] && j.pending[w].row == None
    case Commit => w in j.pending ==> j.pending[w].row.Some?
    case Rollback => true
    case Seed(keys) => forall k :: k in keys ==> Free(j, k)
  }

  function Apply(j: Journal, w: WriterId, a: Action): Journal
    requires Enabled(j, w, a)
  {
    match a
    case Bump(k) =>
      var p := PendingOf(j, w);
      j.(pending := j.pending[w := p.(heads := p.heads[k := At(j.heads, k) + 1])])
    case InsertRow(origin) =>
      j.(pending := j.pending[w := j.pending[w].(row := Some(j.nextId), origin := origin)], nextId := j.nextId + 1)
    case Commit =>
      if w in j.pending then
        var p := j.pending[w];
        j.(heads := j.heads + p.heads,
           outbox := j.outbox[p.row.value := OutboxRow(p.heads, p.origin)],
           pending := j.pending - {w})
      else j
    case Rollback => j.(pending := j.pending - {w})
    case Seed(keys) =>
      var seeded := map k | k in keys && k !in j.heads :: 1;
      j.(heads := j.heads + seeded, base := j.base + seeded)
  }

  ghost predicate Next(j: Journal, j': Journal) {
    exists w: WriterId, a: Action :: Step(j, w, a, j')
  }

  predicate Step(j: Journal, w: WriterId, a: Action, j': Journal) {
    Enabled(j, w, a) && j' == Apply(j, w, a)
  }

  // ---- invariant ----

  predicate Has(j: Journal, id: nat, k: Key) {
    id in j.outbox && k in j.outbox[id].revisions
  }

  function Rev(j: Journal, id: nat, k: Key): nat
    requires Has(j, id, k)
  {
    j.outbox[id].revisions[k]
  }

  ghost predicate Announced(j: Journal, k: Key, v: int) {
    exists id :: Has(j, id, k) && Rev(j, id, k) == v
  }

  /** Serial numbers: never reused, and only rows with revisions are stored. */
  ghost predicate IdsInv(j: Journal) {
    && (forall id :: id in j.outbox ==> id < j.nextId && j.outbox[id].revisions != map[])
    && (forall w :: w in j.pending && j.pending[w].row.Some? ==> PendingIdInv(j, w))
    && (forall w, u :: w in j.pending && u in j.pending && j.pending[w].row.Some? && j.pending[w].row == j.pending[u].row
          ==> w == u)
  }

  ghost predicate PendingIdInv(j: Journal, w: WriterId)
    requires w in j.pending && j.pending[w].row.Some?
  {
    && j.pending[w].row.value < j.nextId
    && j.pending[w].row.value !in j.outbox
    && j.pending[w].heads != map[]
  }

  /** At most one writer holds a key, and it is about to raise the committed head by one. */
  ghost predicate LockInv(j: Journal, k: Key) {
    && (forall w :: Holds(j, w, k) ==> j.pending[w].heads[k] == At(j.heads, k) + 1)
    && (forall w, u :: Holds(j, w, k) && Holds(j, u, k) ==> w == u)
  }

  /** Announced revisions lie between the initial and the current head, and none is skipped. */
  ghost predicate RangeInv(j: Journal, k: Key) {
    && At(j.base, k) <= At(j.heads, k)
    && (forall id :: Has(j, id, k) ==> At(j.base, k) < Rev(j, id, k) <= At(j.heads, k))
    && (forall v: int :: At(j.base, k) < v <= At(j.heads, k) ==> Announced(j, k, v))
  }

  /** A smaller row id carries a smaller revision; a row still pending comes after all stored ones. */
  ghost predicate OrderInv(j: Journal, k: Key) {
    && (forall id, id' :: Has(j, id, k) && Has(j, id', k) && id < id' ==> Rev(j, id, k) < Rev(j, id', k))
    && (forall w, id: nat :: Holds(j, w, k) && j.pending[w].row.Some? && Has(j, id, k) ==> id < j.pending[w].row.value)
  }

  ghost predicate KeyInv(j: Journal, k: Key) {
    LockInv(j, k) && RangeInv(j, k) && OrderInv(j, k)
  }

  ghost predicate Inv(j: Journal) {
    IdsInv(j) && forall k :: KeyInv(j, k)
  }

  predicate Initial(j: Journal) {
    j.outbox == map[] && j.pending == map[] && j.base == j.heads
  }

  lemma InitialInv(j: Journal)
    requires Initial(j)
    ensures Inv(j)
  {
  }

  lemma IdsStep(j: Journal, w: WriterId, a: Action)
    requires IdsInv(j) && Enabled(j, w, a)
    ensures IdsInv(Apply(j, w, a))
  {
    var j' := Apply(j, w, a);
    forall u | u in j'.pending && j'.pending[u].row.Some? ensures PendingIdInv(j', u) {
      if u in j.pending && j.pending[u].row.Some? { assert PendingIdInv(j, u); }
    }
    if a.Commit? && w in j.pending { assert PendingIdInv(j, w); }
  }

  lemma CommitKey(j: Journal, w: WriterId, k: Key)
    requires IdsInv(j) && KeyInv(j, k) && w in j.pending && Enabled(j, w, Commit)
    ensures KeyInv(Apply(j, w, Commit), k)
  {
    var j' := Apply(j, w, Commit);
    var p := j.pending[w];
    var n := p.row.value;
    assert PendingIdInv(j, w);
    assert forall u :: Holds(j', u, k) ==> Holds(j, u, k) && u != w;
    assert forall id :: Has(j', id, k) <==> Has(j, id, k) || (id == n && k in p.heads);
    assert forall id :: Has(j, id, k) ==> Rev(j', id, k) == Rev(j, id, k);
    if k in p.heads {
      assert Holds(j, w, k);
      assert At(j'.heads, k) == At(j.heads, k) + 1 == Rev(j', n, k);
    } else {
      assert At(j'.heads, k) == At(j.heads, k);
    }
    AnnouncedGrows(j, j', k);
  }

  lemma AnnouncedGrows(j: Journal, j': Journal, k: Key)
    requires forall id :: Has(j, id, k) ==> Has(j', id, k) && Rev(j', id, k) == Rev(j, id, k)
    ensures forall v: int :: Announced(j, k, v) ==> Announced(j', k, v)
  {
    forall v: int | Announced(j, k, v) ensures Announced(j', k, v) {
      var id :| Has(j, id, k) && Rev(j, id, k) == v;
      assert Has(j', id, k) && Rev(j', id, k) == v;
    }
  }

  lemma SeedKey(j: Journal, w: WriterId, keys: set<Key>, k: Key)
    requires KeyInv(j, k) && Enabled(j, w, Seed(keys))
    ensures KeyInv(Apply(j, w, Seed(keys)), k)
  {
    var j' := Apply(j, w, Seed(keys));
    assert forall u :: Holds(j', u, k) <==> Holds(j, u, k);
    assert forall id :: Has(j', id, k) <==> Has(j, id, k);
    AnnouncedGrows(j, j', k);
    if k in keys && k !in j.heads {
      assert At(j'.heads, k) == At(j'.base, k) == 1;
    } else {
      assert At(j'.heads, k) == At(j.heads, k) && At(j'.base, k) == At(j.base, k);
    }
  }

  lemma BumpStepKey(j: Journal, w: WriterId, b: Key, k: Key)
    requires IdsInv(j) && KeyInv(j, k) && Enabled(j, w, Bump(b))
    ensures KeyInv(Apply(j, w, Bump(b)), k)
  {
    var j' := Apply(j, w, Bump(b));
    assert forall u :: Holds(j', u, k) ==> Holds(j, u, k) || (b == k && u == w);
    assert forall id :: Has(j', id, k) <==> Has(j, id, k);
    AnnouncedGrows(j, j', k);
  }

  lemma InsertStepKey(j: Journal, w: WriterId, origin: Option<string>, k: Key)
    requires IdsInv(j) && KeyInv(j, k) && Enabled(j, w, InsertRow(origin))
    ensures KeyInv(Apply(j, w, InsertRow(origin)), k)
  {
    var j' := Apply(j, w, InsertRow(origin));
    assert forall u :: Holds(j', u, k) <==> Holds(j, u, k);
    assert forall id :: Has(j', id, k) <==> Has(j, id, k);
    AnnouncedGrows(j, j', k);
  }

  lemma RollbackStepKey(j: Journal, w: WriterId, k: Key)
    requires IdsInv(j) && KeyInv(j, k)
    ensures KeyInv(Apply(j, w, Rollback), k)
  {
    var j' := Apply(j, w, Rollback);
    assert forall u :: Holds(j', u, k) ==> Holds(j, u, k);
    assert forall id :: Has(j', id, k) <==> Has(j, id, k);
    AnnouncedGrows(j, j', k);
  }

  /** Every step of every writer keeps the invariant. */
  lemma StepInv(j: Journal, w: WriterId, a: Action)
    requires Inv(j) && Enabled(j, w, a)
    ensures Inv(Apply(j, w, a))
  {
    IdsStep(j, w, a);
    forall k | true ensures KeyInv(Apply(j, w, a), k) {
      assert KeyInv(j, k);
      match a
      case Commit => if w in j.pending { CommitKey(j, w, k); }
      case Seed(keys) => SeedKey(j, w, keys, k);
      case Bump(b) => BumpStepKey(j, w, b, k);
      case InsertRow(origin) => InsertStepKey(j, w, origin, k);
      case Rollback => RollbackStepKey(j, w, k);
    }
  }

  // ---- whole runs ----

  ghost predicate Follows(run: seq<Journal>, i: nat)
    requires i + 1 < |run|
  {
    Next(run[i], run[i + 1])
  }

  ghost predicate IsRun(run: seq<Journal>) {
    run != [] && forall i :: 0 <= i < |run| - 1 ==> Follows(run, i)
  }

  lemma {:induction false} RunInv(run: seq<Journal>)
    requires IsRun(run) && Initial(run[0])
    ensures Inv(run[|run| - 1])
  {
    if |run| == 1 {
      InitialInv(run[0]);
    } else {
      var front := run[..|run| - 1];
      assert IsRun(front) by {
        forall i | 0 <= i < |front| - 1 ensures Follows(front, i) {
          assert Follows(run, i);
        }
      }
      RunInv(front);
      assert Follows(run, |run| - 2);
      var w, a :| Step(run[|run| - 2], w, a, run[|run| - 1]);
      StepInv(run[|run| - 2], w, a);
    }
  }

  /** In every reachable state each revision after the initial head is announced by exactly one
      outbox row, nothing else is announced, and row ids grow with the revisions of a key. */
  lemma RevisionHistory(run: seq<Journal>, k: Key)
    requires IsRun(run) && Initial(run[0])
    ensures var j := run[|run| - 1];
      && (forall v: int :: At(j.base, k) < v <= At(j.heads, k) <==> Announced(j, k, v))
      && (forall id, id' :: Has(j, id, k) && Has(j, id', k) ==> (id < id' <==> Rev(j, id, k) < Rev(j, id', k)))
  {
    RunInv(run);
    var j := run[|run| - 1];
    assert KeyInv(j, k);
    forall v: int | Announced(j, k, v) ensures At(j.base, k) < v <= At(j.heads, k) {
      var id :| Has(j, id, k) && Rev(j, id, k) == v;
    }
  }

  /** No step of any writer, seeding included, lowers a head or touches a stored outbox row. */
  lemma HeadsOnlyGrow(j: Journal, w: WriterId, a: Action, k: Key)
    requires Inv(j) && Enabled(j, w, a)
    ensures var j' := Apply(j, w, a);
      && At(j.heads, k) <= At(j'.heads, k) <= At(j.heads, k) + 1
      && (a.Seed? && k in j.heads ==> j'.heads[k] == j.heads[k])
      && (forall id :: id in j.outbox ==> id in j'.outbox && j'.outbox[id] == j.outbox[id])
  {
    assert KeyInv(j, k);
    if a.Commit? && w in j.pending {
      assert PendingIdInv(j, w);
      assert k in j.pending[w].heads ==> Holds(j, w, k);
    }
  }
}
