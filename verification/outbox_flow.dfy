/** From the request that marks keys to the worker that delivers its announcement. */
module OutboxFlow {
  import opened Common
  import opened RevisionKeys
  import RJ = RevisionJournal
  import IM = InputEventMachine
  import IE = InputEvents
  import IS = InputEventSafety
  import IT = InputEventTheorems
  import OL = OutboxLeases

  /** The journal's committed rows are the dispatchers' table. */
  datatype State = State(boundary: IM.State, leases: OL.State)

  datatype Action =
    | Write(caller: IM.CallerId, a: IM.Action)       // a caller of the boundary, or another writer
    | Dispatch(owner: string, b: OL.Action)

  /** The outbox row that a step of the boundary commits. */
  function Stores(s: IM.State, c: IM.CallerId, a: IM.Action): Option<nat> {
    if (a.Commit? || a.CommitUnseen? || a == IM.Other(RJ.Commit)) && c in s.journal.pending
    then s.journal.pending[c].row else None
  }

  /** A committing writer makes its outbox row visible to the dispatchers; nothing else does. */
  predicate Step(s: State, a: Action, s': State) {
    match a
    case Write(c, b) =>
      && IM.Step(s.boundary, c, b, s'.boundary)
      && (match Stores(s.boundary, c, b)
          case Some(n) => OL.Step(s.leases, "", OL.Enqueue(n, true), s'.leases)
          case None => s'.leases == s.leases)
    case Dispatch(owner, b) => !b.Enqueue? && OL.Step(s.leases, owner, b, s'.leases) && s'.boundary == s.boundary
  }

  ghost predicate Next(s: State, s': State) {
    exists a: Action :: Step(s, a, s')
  }

  predicate Linked(s: State) {
    s.leases.inserted == s.boundary.journal.outbox.Keys
  }

  ghost predicate Inv(l0: map<string, IE.Row>, s: State) {
    s.boundary in IM.Safe(l0) && OL.Inv(s.leases) && Linked(s)
  }

  /** A commit never finds its serial taken, so the two tables never keep each other waiting. */
  lemma CommitIsNeverBlocked(l0: map<string, IE.Row>, s: State, c: IM.CallerId, a: IM.Action)
    requires Inv(l0, s) && IM.Enabled(s.boundary, c, a) && Stores(s.boundary, c, a).Some?
    ensures OL.Enabled(s.leases, "", OL.Enqueue(Stores(s.boundary, c, a).value, true))
  {
    assert RJ.PendingIdInv(s.boundary.journal, c);
  }

  lemma OnlyCommitsStore(s: IM.State, c: IM.CallerId, a: IM.Action)
    requires IM.Enabled(s, c, a)
    ensures var n := Stores(s, c, a);
      IM.Apply(s, c, a).journal.outbox.Keys == if n.Some? then s.journal.outbox.Keys + {n.value} else s.journal.outbox.Keys
  {
  }

  lemma OnlyEnqueuesInsert(l: OL.State, owner: string, b: OL.Action)
    requires OL.Enabled(l, owner, b)
    ensures OL.Apply(l, owner, b).inserted == if b.Enqueue? then l.inserted + {b.id} else l.inserted
  {
  }

  lemma StepInv(l0: map<string, IE.Row>, s: State, a: Action, s': State)
    requires Inv(l0, s) && Step(s, a, s')
    ensures Inv(l0, s')
  {
    match a
    case Write(c, b) =>
      IS.StepInv(l0, s.boundary, c, b, s'.boundary);
      OnlyCommitsStore(s.boundary, c, b);
      if Stores(s.boundary, c, b).Some? {
        var enqueue := OL.Enqueue(Stores(s.boundary, c, b).value, true);
        OL.StepInv(s.leases, "", enqueue);
        OnlyEnqueuesInsert(s.leases, "", enqueue);
      }
    case Dispatch(owner, b) =>
      OL.StepInv(s.leases, owner, b);
      OnlyEnqueuesInsert(s.leases, owner, b);
  }

  ghost predicate Follows(run: seq<State>, i: nat)
    requires i + 1 < |run|
  {
    Next(run[i], run[i + 1])
  }

  ghost predicate IsRun(l0: map<string, IE.Row>, run: seq<State>) {
    && run != [] && IM.Initial(l0, run[0].boundary) && OL.Initial(run[0].leases)
    && forall i :: 0 <= i < |run| - 1 ==> Follows(run, i)
  }

  lemma {:induction false} ReachableInv(l0: map<string, IE.Row>, run: seq<State>, i: nat)
    requires IsRun(l0, run) && i < |run|
    ensures Inv(l0, run[i])
  {
    if i == 0 {
      IM.InitialInv(l0, run[0].boundary);
      assert forall id :: id !in run[0].leases.rows;
    } else {
      ReachableInv(l0, run, i - 1);
      assert Follows(run, i - 1);
      var a :| Step(run[i - 1], a, run[i]);
      StepInv(l0, run[i - 1], a, run[i]);
    }
  }

  /** Waiting to be delivered, or delivered exactly once, after being published. */
  ghost predicate Arrives(l: OL.State, n: nat) {
    && n in l.inserted
    && (OL.Undelivered(l, n) <==> n !in l.deliveries)
    && (n in l.deliveries ==> multiset(l.deliveries)[n] == 1 && OL.EverPublished(l, n))
  }

  /** Every announcement a transaction committed, and no other, arrives. */
  lemma AnnouncementsArrive(l0: map<string, IE.Row>, run: seq<State>, i: nat, n: nat)
    requires IsRun(l0, run) && i < |run|
    ensures n in run[i].boundary.journal.outbox ==> Arrives(run[i].leases, n)
    ensures n in run[i].leases.deliveries ==> n in run[i].boundary.journal.outbox
  {
    ReachableInv(l0, run, i);
    OL.DistinctCounts(run[i].leases.deliveries, n);
  }

  /** Each revision of a key after its initial head is announced by exactly one row, and that row
      arrives. */
  lemma RevisionsArrive(l0: map<string, IE.Row>, run: seq<State>, i: nat, k: Key, v: int)
    requires IsRun(l0, run) && i < |run|
    requires var j := run[i].boundary.journal; RJ.At(j.base, k) < v <= RJ.At(j.heads, k)
    ensures var j := run[i].boundary.journal;
      exists n :: RJ.Has(j, n, k) && RJ.Rev(j, n, k) == v && Arrives(run[i].leases, n)
                  && (forall m :: RJ.Has(j, m, k) && RJ.Rev(j, m, k) == v ==> m == n)
  {
    ReachableInv(l0, run, i);
    var j := run[i].boundary.journal;
    assert RJ.KeyInv(j, k);
    assert RJ.Announced(j, k, v);
    var n :| RJ.Has(j, n, k) && RJ.Rev(j, n, k) == v;
    AnnouncementsArrive(l0, run, i, n);
    forall m | RJ.Has(j, m, k) && RJ.Rev(j, m, k) == v ensures m == n {
      assert RJ.OrderInv(j, k);
    }
  }

  predicate OwnedBy(s: IM.State, n: nat, id: string) {
    n in s.journal.outbox && s.journal.outbox[n].origin == Some(id)
  }

  /** The effect's keys are announced by exactly one row of the request, or by none. */
  ghost predicate OwnRows(s: IM.State, e: IE.Effect) {
    && (e.keys == [] <==> e.outboxId == None)
    && (forall n: nat :: OwnedBy(s, n, e.requestId) <==> e.outboxId == Some(n))
    && (e.outboxId.Some? ==>
          e.outboxId.value in s.journal.outbox
          && s.journal.outbox[e.outboxId.value].revisions.Keys == IM.KeySet(e.keys))
  }

  lemma EffectOwnsRows(l0: map<string, IE.Row>, s: IM.State, m: nat)
    requires IM.EffectsOk(l0, s) && m < |s.effects|
    ensures OwnRows(s, s.effects[m])
  {
    var e := s.effects[m];
    assert IM.EffectOk(s.ledger, s.journal.outbox, e);
    forall n: nat ensures OwnedBy(s, n, e.requestId) <==> e.outboxId == Some(n) {
      if OwnedBy(s, n, e.requestId) {
        assert IM.Explained(s.effects, e.requestId, n);
        var x :| 0 <= x < |s.effects| && s.effects[x].requestId == e.requestId && s.effects[x].outboxId == Some(n);
        assert x == m;
      }
    }
  }

  /** A request that became a success did so by one effect. If it marked keys, exactly one outbox
      row is its own, which announces these keys and arrives; if not, none is. */
  lemma RequestArrives(l0: map<string, IE.Row>, run: seq<State>, i: nat, id: string) returns (m: nat)
    requires IsRun(l0, run) && i < |run|
    requires IM.SucceededIn(run[i].boundary.ledger, id) && !IM.SucceededIn(l0, id)
    ensures var s := run[i].boundary;
      && m < |s.effects| && s.effects[m].requestId == id && OwnRows(s, s.effects[m])
      && (forall k :: 0 <= k < |s.effects| && s.effects[k].requestId == id ==> k == m)
      && (s.effects[m].outboxId.Some? ==> Arrives(run[i].leases, s.effects[m].outboxId.value))
  {
    ReachableInv(l0, run, i);
    var s := run[i].boundary;
    assert IM.EffectsOk(l0, s);
    assert IM.Performed(s.effects, id);
    m :| 0 <= m < |s.effects| && s.effects[m].requestId == id;
    EffectOwnsRows(l0, s, m);
    if s.effects[m].outboxId.Some? {
      AnnouncementsArrive(l0, run, i, s.effects[m].outboxId.value);
    }
  }
}
