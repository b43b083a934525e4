/** The request ledger: what one execution of a request means, and the transaction that performs it. */
module InputEvents {
  import opened Common
  import opened CanonicalJson
  import opened KeyOrder
  import opened RevisionKeys
  import opened RevisionJournal

  datatype Target = Api | Engine
  datatype Status = Waiting | Processing | Succeeded | Failed

  datatype Row = Row(
    sequence: nat, target: Target, eventType: string, payload: Js, actor: Option<string>,
    status: Status, result: Option<Js>, error: Option<string>, attempts: nat)

  datatype Request = Request(id: string, eventType: string, payload: Js, actor: Option<string>, fenced: bool)

  /** Everything one successful run of a request left in the database. */
  datatype Effect = Effect(
    requestId: string, attempt: nat, writes: seq<string>, value: Js, keys: seq<Key>, outboxId: Option<nat>)

  /** How the business code of a request ends. */
  datatype Business = Returns(writes: seq<string>, value: Js, keys: seq<Key>) | Throws(error: string)

  datatype Outcome = Executed(value: Js) | Replayed(value: Js) | Rejected | Threw(error: string)

  datatype Store = Store(
    ledger: map<string, Row>, effects: seq<Effect>, heads: map<Key, nat>, outbox: map<nat, OutboxRow>)

  // ---- identity ----

  /** The stored identity of a payload; the digest is the canonical value itself. */
  function Identity(payload: Js): Js {
    Object([Member("version", Number(1.0)), Member("digest", Canonical(payload))])
  }

  predicate LegacyEmptyPayload(payload: Js) {
    payload.Object? && payload.members == []
  }

  predicate MatchingBase(row: Row, q: Request) {
    row.target == Api && row.eventType == q.eventType && row.actor == q.actor
  }

  predicate Adoptable(row: Row, q: Request) {
    row.status == Failed && row.result == None && LegacyEmptyPayload(row.payload) && MatchingBase(row, q)
  }

  predicate Matching(row: Row, q: Request) {
    MatchingBase(row, q) && SameJson(row.payload, Identity(q.payload))
  }

  lemma {:induction false} CanonicalIdentity(payload: Js)
    requires WellFormed(payload)
    ensures Canonical(Identity(payload))
         == Object([Member("digest", Canonical(payload)), Member("version", Number(1.0))])
  {
    CanonicalIdempotent(payload);
    CanonicalDefined(payload);
    var v, d := Member("version", Number(1.0)), Member("digest", Canonical(payload));
    var one: seq<Member> := [];
    assert [v, d][1..] == [d] && [d][1..] == one;
    assert CanonicalMembers([d]) == [d] + CanonicalMembers(one);
    assert CanonicalMembers([v, d]) == [v] + CanonicalMembers([d]) == [v, d];
    assert SortMembers([d]) == Insert(d, SortMembers(one)) == [d];
    assert !ArrayIndex("version") && !ArrayIndex("digest") && !PropertyLess("version", "digest");
    assert Insert(v, [d]) == [d] + Insert(v, [d][1..]) == [d, v];
    assert SortMembers([v, d]) == Insert(v, SortMembers([v, d][1..]));
  }

  /** Two payloads have one identity exactly when they are equal up to member order; no identity
      is the empty placeholder of an old row. */
  lemma IdentityDecides(a: Js, b: Js)
    requires WellFormed(a) && WellFormed(b)
    ensures SameJson(Identity(a), Identity(b)) <==> Equivalent(a, b)
    ensures !SameJson(Identity(a), EMPTY)
  {
    CanonicalIdentity(a);
    CanonicalIdentity(b);
    CanonicalIffEquivalent(a, b);
    assert Canonical(EMPTY) == EMPTY;
    if SameJson(Identity(a), Identity(b)) {
      assert Canonical(Identity(a)).members[0] == Canonical(Identity(b)).members[0];
    }
  }

  // ---- row transitions ----

  datatype Decision = Replay | Reject | Run

  function Admit(row: Row, q: Request): Decision {
    if row.status == Succeeded then (if Matching(row, q) then Replay else Reject)
    else if row.status == Processing then Reject
    else if !Matching(row, q) && !Adoptable(row, q) then Reject
    else Run
  }

  function WaitingRow(q: Request, sequence: nat): Row {
    Row(sequence, Api, q.eventType, Identity(q.payload), q.actor, Waiting, None, None, 0)
  }

  function Claimed(row: Row, q: Request): Row {
    row.(payload := Identity(q.payload), status := Processing, result := None, error := None,
         attempts := row.attempts + 1)
  }

  function Completed(row: Row, value: Js): Row {
    row.(status := Succeeded, result := Some(Canonical(value)), error := None)
  }

  function Aborted(row: Row, error: string): Row {
    row.(status := Failed, result := None, error := Some(error))
  }

  predicate RecorderApplies(row: Row, q: Request) {
    (Matching(row, q) || Adoptable(row, q)) && row.status != Succeeded && row.status != Processing
  }

  function LateFailure(row: Row, q: Request, error: string): Row {
    row.(payload := Identity(q.payload), status := Failed, result := None, error := Some(error),
         attempts := row.attempts + 1)
  }

  const EMPTY: Js := Object([])

  /** What may happen to a committed row over time. */
  ghost predicate Evolves(a: Row, b: Row) {
    && b.sequence == a.sequence && b.target == a.target && b.eventType == a.eventType && b.actor == a.actor
    && (a.status == Succeeded || a.status == Processing ==> b == a)
    && (a != b ==> a.attempts < b.attempts && (b.status == Succeeded || b.status == Failed)
                   && !SameJson(b.payload, EMPTY))
    && (SameJson(a.payload, b.payload) || Adopted(a, b))
  }

  /** The single payload change: an old failed row with an empty payload takes an identity. */
  ghost predicate Adopted(a: Row, b: Row) {
    a.status == Failed && a.result == None && LegacyEmptyPayload(a.payload) && !SameJson(b.payload, EMPTY)
  }

  /** Evolution composes; in particular a payload is adopted at most once. */
  lemma EvolvesTransitive(a: Row, b: Row, c: Row)
    requires Evolves(a, b) && Evolves(b, c)
    ensures Evolves(a, c)
  {
    assert LegacyEmptyPayload(b.payload) ==> b.payload == EMPTY;
    if a != b {
      assert !Adopted(b, c);
    }
  }

  // ---- atomic meaning ----

  function BaseRow(st: Store, q: Request, sequence: nat): Row {
    if q.id in st.ledger then st.ledger[q.id] else WaitingRow(q, sequence)
  }

  function BumpAll(heads: map<Key, nat>, keys: seq<Key>): map<Key, nat> {
    heads + (map k | k in keys :: At(heads, k) + 1)
  }

  function Revisions(heads: map<Key, nat>, keys: seq<Key>): map<Key, nat> {
    map k | k in keys :: At(heads, k) + 1
  }

  function ResultOf(row: Row): Js {
    if row.result.Some? then row.result.value else Null
  }

  function WithRow(st: Store, id: string, row: Row): Store {
    st.(ledger := st.ledger[id := row])
  }

  lemma WithRowTwice(st: Store, id: string, a: Row, b: Row)
    ensures WithRow(WithRow(st, id, a), id, b) == WithRow(st, id, b)
    ensures id in st.ledger && st.ledger[id] == a ==> WithRow(st, id, a) == st
  {
    assert id in st.ledger && st.ledger[id] == a ==> st.ledger[id := a] == st.ledger;
  }

  /** The database after a request that ran the business code to its end. */
  function Settle(st: Store, q: Request, base: Row, b: Business, outboxId: nat): Store {
    match b
    case Throws(error) => WithRow(st, q.id, Aborted(Claimed(base, q), error))
    case Returns(writes, value, marks) =>
      var keys := Normalize(marks);
      var row := Completed(Claimed(base, q), value);
      if keys == [] then
        st.(ledger := st.ledger[q.id := row],
            effects := st.effects + [Effect(q.id, row.attempts, writes, value, keys, None)])
      else
        Store(st.ledger[q.id := row],
              st.effects + [Effect(q.id, row.attempts, writes, value, keys, Some(outboxId))],
              BumpAll(st.heads, keys),
              st.outbox[outboxId := OutboxRow(Revisions(st.heads, keys), Some(q.id))])
  }

  function Transact(st: Store, q: Request, b: Business, sequence: nat, outboxId: nat): (Store, Outcome) {
    var base := BaseRow(st, q, sequence);
    match Admit(base, q)
    case Replay => (st, Replayed(ResultOf(base)))
    case Reject => (st, Rejected)
    case Run => (Settle(st, q, base, b, outboxId),
                 if b.Returns? then Executed(b.value) else Threw(b.error))
  }

  function RecordLate(st: Store, q: Request, error: string, sequence: nat): Store {
    var base := BaseRow(st, q, sequence);
    if RecorderApplies(base, q) then WithRow(st, q.id, LateFailure(base, q, error)) else st
  }

  /** What can go wrong around the transaction. */
  datatype Fault =
    | NoFault
    | LostBeforeBusiness(error: string)
    | LostAfterStart(error: string, recorded: bool)      // rolled back; the recorder ran or failed too
    | CommitUnseen(error: string, recorded: bool)        // committed, but the caller saw an error

  function Execute(st: Store, q: Request, b: Business, fault: Fault, sequence: nat, outboxId: nat): (Store, Outcome) {
    var plain := Transact(st, q, b, sequence, outboxId);
    var started := Admit(BaseRow(st, q, sequence), q) == Run;
    match fault
    case NoFault => plain
    case LostBeforeBusiness(error) => (st, Threw(error))
    case LostAfterStart(error, recorded) =>
      if !started then plain
      else (if recorded then RecordLate(st, q, error, sequence + 1) else st, Threw(error))
    case CommitUnseen(error, recorded) =>
      if plain.1 == Rejected then plain
      else (if started && recorded then RecordLate(plain.0, q, error, sequence + 1) else plain.0, Threw(error))
  }

  // ---- what the atomic meaning guarantees ----

  lemma TransactEvolves(st: Store, q: Request, b: Business, sequence: nat, outboxId: nat, id: string)
    requires id in st.ledger && WellFormed(q.payload)
    ensures var after := Transact(st, q, b, sequence, outboxId).0;
            id in after.ledger && Evolves(st.ledger[id], after.ledger[id])
  {
    if id == q.id {
      RunEvolves(st.ledger[id], q, if b.Returns? then b.value else Null, if b.Throws? then b.error else "");
    }
  }

  lemma RecordLateEvolves(st: Store, q: Request, error: string, sequence: nat, id: string)
    requires id in st.ledger && WellFormed(q.payload)
    ensures var after := RecordLate(st, q, error, sequence);
            id in after.ledger && Evolves(st.ledger[id], after.ledger[id])
  {
    if id == q.id {
      RecorderEvolves(st.ledger[id], q, error);
    }
  }

  /** A committed row only evolves, whatever runs, fails, or is recorded late. */
  lemma ExecuteEvolves(st: Store, q: Request, b: Business, fault: Fault, sequence: nat, outboxId: nat, id: string)
    requires id in st.ledger && WellFormed(q.payload)
    ensures var after := Execute(st, q, b, fault, sequence, outboxId).0;
            id in after.ledger && Evolves(st.ledger[id], after.ledger[id])
  {
    TransactEvolves(st, q, b, sequence, outboxId, id);
    var plain := Transact(st, q, b, sequence, outboxId).0;
    match fault
    case LostAfterStart(error, _) => RecordLateEvolves(st, q, error, sequence + 1, id);
    case CommitUnseen(error, _) =>
      var late := RecordLate(plain, q, error, sequence + 1);
      RecordLateEvolves(plain, q, error, sequence + 1, id);
      EvolvesTransitive(st.ledger[id], plain.ledger[id], late.ledger[id]);
    case _ =>
  }

  lemma RunEvolves(row: Row, q: Request, value: Js, error: string)
    requires WellFormed(q.payload)
    ensures Admit(row, q) == Run ==>
              Evolves(row, Completed(Claimed(row, q), value)) && Evolves(row, Aborted(Claimed(row, q), error))
  {
    IdentityDecides(q.payload, q.payload);
    assert LegacyEmptyPayload(row.payload) ==> row.payload == EMPTY;
  }

  lemma RecorderEvolves(row: Row, q: Request, error: string)
    requires WellFormed(q.payload)
    ensures RecorderApplies(row, q) ==> Evolves(row, LateFailure(row, q, error))
  {
    IdentityDecides(q.payload, q.payload);
    assert LegacyEmptyPayload(row.payload) ==> row.payload == EMPTY;
  }

  // ---- the transaction that performs it ----

  /** One connection to the game database. `saved` is the stack of BEGIN and SAVEPOINT states. */
  class Connection {
    var db: Store
    var nextSequence: nat
    var nextOutboxId: nat
    var saved: seq<Store>

    constructor (db: Store, nextSequence: nat, nextOutboxId: nat)
      ensures this.db == db && saved == []
      ensures this.nextSequence == nextSequence && this.nextOutboxId == nextOutboxId
    {
      this.db, this.nextSequence, this.nextOutboxId := db, nextSequence, nextOutboxId;
      saved := [];
    }

    /** ROLLBACK TO SAVEPOINT and release, or ROLLBACK; serials are not given back. */
    method Undo()
      requires saved != []
      modifies this`db, this`saved
      ensures db == old(saved)[|old(saved)| - 1] && saved == old(saved)[..|old(saved)| - 1]
    {
      db, saved := saved[|saved| - 1], saved[..|saved| - 1];
    }

    method UpdateRow(id: string, row: Row)
      modifies this`db
      ensures db == WithRow(old(db), id, row)
    {
      db := WithRow(db, id, row);
    }

    method InsertPendingIfAbsent(q: Request)
      modifies this`db, this`nextSequence
      ensures db == WithRow(old(db), q.id, BaseRow(old(db), q, old(nextSequence)))
      ensures nextSequence == old(nextSequence) + 1
    {
      if q.id !in db.ledger {
        UpdateRow(q.id, WaitingRow(q, nextSequence));
      } else {
        WithRowTwice(db, q.id, db.ledger[q.id], db.ledger[q.id]);
      }
      nextSequence := nextSequence + 1;
    }

    /** Raises every key by one and stores one row announcing the new revisions. */
    method WriteReadModelChangeJournal(marks: seq<Key>, origin: Option<string>) returns (id: Option<nat>)
      modifies this`db, this`nextOutboxId
      ensures Normalize(marks) == [] ==> id == None && db == old(db) && nextOutboxId == old(nextOutboxId)
      ensures Normalize(marks) != [] ==>
                && id == Some(old(nextOutboxId)) && nextOutboxId == old(nextOutboxId) + 1
                && db == old(db).(heads := BumpAll(old(db).heads, Normalize(marks)),
                                  outbox := old(db).outbox[id.value :=
                                    OutboxRow(Revisions(old(db).heads, Normalize(marks)), origin)])
    {
      var keys := Normalize(marks);
      if keys == [] { return None; }
      NormalizeSound(marks);
      var heads, revisions := RaiseEach(db.heads, keys);
      id := Some(nextOutboxId);
      db := db.(heads := heads, outbox := db.outbox[nextOutboxId := OutboxRow(revisions, origin)]);
      nextOutboxId := nextOutboxId + 1;
    }

    method MarkUnexpectedFailure(q: Request, error: string)
      requires saved == []
      modifies this
      ensures db == RecordLate(old(db), q, error, old(nextSequence)) && saved == []
      ensures nextOutboxId == old(nextOutboxId)
    {
      ghost var st, base := db, BaseRow(db, q, nextSequence);
      FreshRowMatches(q, nextSequence);
      InsertPendingIfAbsent(q);
      var row := db.ledger[q.id];
      var identityMatches := Matching(row, q) || Adoptable(row, q);
      if !identityMatches || row.status == Succeeded || row.status == Processing {
        WithRowTwice(st, q.id, base, base);
        return;
      }
      UpdateRow(q.id, LateFailure(row, q, error));
      WithRowTwice(st, q.id, base, LateFailure(base, q, error));
    }

    /** The savepoint around the business code, on a claimed row. */
    method RunBusiness(q: Request, ghost st: Store, ghost base: Row, b: Business) returns (outcome: Outcome, journalPersisted: bool)
      requires db == WithRow(st, q.id, Claimed(base, q))
      modifies this
      ensures db == Settle(st, q, base, b, old(nextOutboxId))
      ensures saved == old(saved) && nextSequence == old(nextSequence)
      ensures outcome == if b.Returns? then Executed(b.value) else Threw(b.error)
      ensures journalPersisted <==> b.Returns? && nextOutboxId == old(nextOutboxId) + 1
      ensures !journalPersisted ==> nextOutboxId == old(nextOutboxId)
    {
      var row := db.ledger[q.id];
      saved := saved + [db];
      if b.Returns? {
        var id := WriteReadModelChangeJournal(b.keys, Some(q.id));
        journalPersisted := id.Some?;
        db := db.(effects := db.effects + [Effect(q.id, row.attempts, b.writes, b.value, Normalize(b.keys), id)]);
        UpdateRow(q.id, Completed(row, b.value));
        saved := saved[..|saved| - 1];
        outcome := Executed(b.value);
      } else {
        // whatever the business code had written so far is undone
        db := db.(effects := db.effects + [Effect(q.id, row.attempts, [], Null, [], None)]);
        Undo();
        UpdateRow(q.id, Aborted(row, b.error));
        outcome := Threw(b.error);
        journalPersisted := false;
      }
      assert db.ledger == st.ledger[q.id := db.ledger[q.id]];
    }

    /** The transaction body up to, but not including, its commit. */
    method Attempt(q: Request, b: Business) returns (outcome: Outcome, businessStarted: bool, journalPersisted: bool)
      modifies this
      ensures (db, outcome) == Transact(old(db), q, b, old(nextSequence), old(nextOutboxId))
      ensures businessStarted <==> Admit(BaseRow(old(db), q, old(nextSequence)), q) == Run
      ensures saved == old(saved) && nextSequence == old(nextSequence) + 1
      ensures journalPersisted <==> old(nextOutboxId) < nextOutboxId
    {
      ghost var st, base := db, BaseRow(db, q, nextSequence);
      FreshRowMatches(q, nextSequence);
      InsertPendingIfAbsent(q);
      var row := db.ledger[q.id];
      var identityMatches := Matching(row, q);
      if row.status == Succeeded || row.status == Processing || (!identityMatches && !Adoptable(row, q)) {
        WithRowTwice(st, q.id, base, base);
        return if row.status == Succeeded && identityMatches then Replayed(ResultOf(row)) else Rejected, false, false;
      }
      UpdateRow(q.id, Claimed(row, q));
      WithRowTwice(st, q.id, base, Claimed(base, q));
      outcome, journalPersisted := RunBusiness(q, st, base, b);
      businessStarted := true;
    }

    /** The boundary: at every way the attempt can end, the database and the answer are the
        ones of the atomic meaning, and no transaction stays open. */
    method ExecuteInputEvent(q: Request, b: Business, fault: Fault) returns (outcome: Outcome, journalPersisted: bool)
      requires saved == []
      modifies this
      ensures (db, outcome) == Execute(old(db), q, b, fault, old(nextSequence), old(nextOutboxId))
      ensures saved == []
      ensures outcome.Executed? ==> (journalPersisted <==> old(nextOutboxId) < nextOutboxId)
    {
      if fault.LostBeforeBusiness? {
        return Threw(fault.error), false;
      }
      saved := [db];
      var businessStarted;
      outcome, businessStarted, journalPersisted := Attempt(q, b);
      if outcome == Rejected || (fault.LostAfterStart? && businessStarted) {
        Undo();
      } else {
        saved := [];
      }
      if outcome != Rejected && (fault.CommitUnseen? || (fault.LostAfterStart? && businessStarted)) {
        if businessStarted && fault.recorded {
          MarkUnexpectedFailure(q, fault.error);
        }
        outcome := Threw(fault.error);
      }
    }

    /** The middleware wakes the dispatcher exactly when this call stored an outbox row and saw
        it commit. */
    method RunMutation(q: Request, b: Business, fault: Fault) returns (outcome: Outcome, woke: bool)
      requires saved == []
      modifies this
      ensures (db, outcome) == Execute(old(db), q, b, fault, old(nextSequence), old(nextOutboxId))
      ensures woke <==> outcome.Executed? && old(nextOutboxId) < nextOutboxId
      ensures saved == []
    {
      var journalPersisted;
      outcome, journalPersisted := ExecuteInputEvent(q, b, fault);
      woke := outcome.Executed? && journalPersisted;
    }
  }

  lemma RaiseNext(before: map<Key, nat>, keys: seq<Key>, k: Key)
    requires k !in keys
    ensures var revision := At(BumpAll(before, keys), k) + 1;
      && BumpAll(before, keys + [k]) == BumpAll(before, keys)[k := revision]
      && Revisions(before, keys + [k]) == Revisions(before, keys)[k := revision]
  {
    assert At(BumpAll(before, keys), k) == At(before, k);
    assert forall x :: x in keys + [k] <==> x in keys || x == k;
    assert Revisions(before, keys + [k]) == Revisions(before, keys)[k := At(before, k) + 1];
  }

  lemma RaiseStep(before: map<Key, nat>, keys: seq<Key>, i: nat)
    requires Ascending(keys) && i < |keys|
    ensures var revision := At(BumpAll(before, keys[..i]), keys[i]) + 1;
      && BumpAll(before, keys[..i + 1]) == BumpAll(before, keys[..i])[keys[i] := revision]
      && Revisions(before, keys[..i + 1]) == Revisions(before, keys[..i])[keys[i] := revision]
  {
    assert keys[i] !in keys[..i] by { KeyLessTrichotomy(keys[i], keys[i]); }
    assert keys[..i + 1] == keys[..i] + [keys[i]];
    RaiseNext(before, keys[..i], keys[i]);
  }

  lemma RaiseNone(before: map<Key, nat>)
    ensures BumpAll(before, []) == before && Revisions(before, []) == map[]
  {
  }

  method RaiseEach(before: map<Key, nat>, keys: seq<Key>) returns (heads: map<Key, nat>, revisions: map<Key, nat>)
    requires Ascending(keys)
    ensures heads == BumpAll(before, keys) && revisions == Revisions(before, keys)
  {
    heads, revisions := before, map[];
    RaiseNone(before);
    assert keys[..0] == [];
    for i := 0 to |keys|
      invariant revisions == Revisions(before, keys[..i])
      invariant heads == BumpAll(before, keys[..i])
    {
      RaiseStep(before, keys, i);
      var revision := At(heads, keys[i]) + 1;
      heads := heads[keys[i] := revision];
      revisions := revisions[keys[i] := revision];
    }
    assert keys[..|keys|] == keys;
  }

  lemma FreshRowMatches(q: Request, sequence: nat)
    ensures Matching(WaitingRow(q, sequence), q)
  {
  }
}
