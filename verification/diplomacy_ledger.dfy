/** Insert-only persistence of diplomacy audit events, safe to replay. */
module DiplomacyLedger {
  import opened Common

  /** What an event's id is the digest of; the digest is taken to be the triple itself. */
  datatype Id = Id(serverId: string, executionId: string, ordinal: int)

  /** `payload` stands for all other fields; the hash of an event is taken to be the event. */
  datatype Event = Event(id: Id, payload: string)

  type Ledger = map<Id, Event>

  /** Inserting with duplicates skipped: the first event for an id stays. */
  function Insert(l: Ledger, es: seq<Event>): Ledger {
    if es == [] then l else
      var before, e := Insert(l, es[..|es| - 1]), es[|es| - 1];
      if e.id in before then before else before[e.id := e]
  }

  predicate Matches(l: Ledger, es: seq<Event>) {
    forall i :: 0 <= i < |es| ==> MatchesAt(l, es[i])
  }

  /** No event contradicts a stored one or an earlier one of the same list. */
  predicate Coherent(l: Ledger, es: seq<Event>) {
    && (forall i :: 0 <= i < |es| && es[i].id in l ==> l[es[i].id] == es[i])
    && (forall i, j :: 0 <= i < j < |es| && es[i].id == es[j].id ==> es[i] == es[j])
  }

  predicate Extends(l: Ledger, longer: Ledger) {
    forall id :: id in l ==> id in longer && longer[id] == l[id]
  }

  lemma {:induction false} InsertAt(l: Ledger, es: seq<Event>, id: Id)
    ensures id in l ==> id in Insert(l, es) && Insert(l, es)[id] == l[id]
    ensures id in Insert(l, es) && id !in l ==> Insert(l, es)[id] in es && Insert(l, es)[id].id == id
  {
    if es != [] {
      InsertAt(l, es[..|es| - 1], id);
      assert es == es[..|es| - 1] + [es[|es| - 1]];
    }
  }

  lemma {:induction false} InsertHolds(l: Ledger, es: seq<Event>, i: nat)
    requires i < |es|
    ensures es[i].id in Insert(l, es)
  {
    if i < |es| - 1 {
      InsertHolds(l, es[..|es| - 1], i);
    }
  }

  lemma InsertSound(l: Ledger, es: seq<Event>)
    ensures Extends(l, Insert(l, es))
    ensures forall i :: 0 <= i < |es| ==> es[i].id in Insert(l, es)
    ensures forall id :: id in Insert(l, es) && id !in l ==> Insert(l, es)[id] in es && Insert(l, es)[id].id == id
  {
    forall id ensures id in l ==> id in Insert(l, es) && Insert(l, es)[id] == l[id] {
      InsertAt(l, es, id);
    }
    forall i | 0 <= i < |es| ensures es[i].id in Insert(l, es) {
      InsertHolds(l, es, i);
    }
    forall id | id in Insert(l, es) && id !in l ensures Insert(l, es)[id] in es && Insert(l, es)[id].id == id {
      InsertAt(l, es, id);
    }
  }

  predicate Agrees(l: Ledger, e: Event) {
    e.id in l ==> l[e.id] == e
  }

  /** Each event agrees with the ledger it meets. */
  predicate Replays(l: Ledger, es: seq<Event>) {
    es == [] || (Replays(l, es[..|es| - 1]) && Agrees(Insert(l, es[..|es| - 1]), es[|es| - 1]))
  }

  predicate Fits(l: Ledger, es: seq<Event>, e: Event) {
    Agrees(l, e) && forall i :: 0 <= i < |es| && es[i].id == e.id ==> es[i] == e
  }

  predicate MatchesAt(l: Ledger, e: Event) {
    e.id in l && l[e.id] == e
  }

  /** Later inserts do not change what an event reads back. */
  lemma MatchesSnoc(l: Ledger, es: seq<Event>, e: Event)
    requires forall i :: 0 <= i < |es| ==> es[i].id in l
    ensures var after := if e.id in l then l else l[e.id := e];
      Matches(after, es + [e]) <==> Matches(l, es) && Agrees(l, e)
  {
    var after := if e.id in l then l else l[e.id := e];
    forall i | 0 <= i < |es| ensures MatchesAt(after, es[i]) <==> MatchesAt(l, es[i]) {
    }
    MatchesConcat(after, es, e);
    assert MatchesAt(after, e) <==> Agrees(l, e);
  }

  lemma MatchesConcat(l: Ledger, es: seq<Event>, e: Event)
    ensures Matches(l, es + [e]) <==> Matches(l, es) && MatchesAt(l, e)
  {
    var all := es + [e];
    assert all[|es|] == e && forall i :: 0 <= i < |es| ==> all[i] == es[i];
  }

  lemma {:induction false} MatchesIffReplays(l: Ledger, es: seq<Event>)
    ensures Matches(Insert(l, es), es) <==> Replays(l, es)
  {
    if es != [] {
      var shorter, e := es[..|es| - 1], es[|es| - 1];
      MatchesIffReplays(l, shorter);
      InsertSound(l, shorter);
      MatchesSnoc(Insert(l, shorter), shorter, e);
      assert shorter + [e] == es;
    }
  }

  lemma FitsIff(l: Ledger, es: seq<Event>, e: Event)
    requires Matches(Insert(l, es), es)
    ensures Agrees(Insert(l, es), e) <==> Fits(l, es, e)
  {
    InsertSound(l, es);
    var after := Insert(l, es);
    if e.id in after && e.id !in l {
      var i :| 0 <= i < |es| && es[i] == after[e.id];
    }
    assert forall i :: 0 <= i < |es| && es[i].id == e.id ==> after[e.id] == es[i];
  }

  lemma CoherentLast(l: Ledger, es: seq<Event>)
    requires es != []
    ensures Coherent(l, es) <==> Coherent(l, es[..|es| - 1]) && Fits(l, es[..|es| - 1], es[|es| - 1])
  {
    var shorter, e := es[..|es| - 1], es[|es| - 1];
    assert forall i :: 0 <= i < |shorter| ==> shorter[i] == es[i];
  }

  lemma {:induction false} CoherentIffReplays(l: Ledger, es: seq<Event>)
    ensures Coherent(l, es) <==> Replays(l, es)
  {
    if es != [] {
      var shorter, e := es[..|es| - 1], es[|es| - 1];
      CoherentIffReplays(l, shorter);
      CoherentLast(l, es);
      if Replays(l, shorter) {
        MatchesIffReplays(l, shorter);
        FitsIff(l, shorter, e);
      }
    }
  }

  /** Reading back what was inserted detects exactly the incoherent lists. */
  lemma ReadBackIff(l: Ledger, es: seq<Event>)
    ensures Matches(Insert(l, es), es) <==> Coherent(l, es)
  {
    MatchesIffReplays(l, es);
    CoherentIffReplays(l, es);
  }

  lemma {:induction false} InsertConcat(l: Ledger, a: seq<Event>, b: seq<Event>)
    ensures Insert(l, a + b) == Insert(Insert(l, a), b)
  {
    if b == [] {
      assert a + b == a;
    } else {
      InsertConcat(l, a, b[..|b| - 1]);
      assert (a + b)[..|a + b| - 1] == a + b[..|b| - 1];
    }
  }

  lemma {:induction false} ReplaysConcat(l: Ledger, a: seq<Event>, b: seq<Event>)
    ensures Replays(l, a + b) <==> Replays(l, a) && Replays(Insert(l, a), b)
  {
    if b == [] {
      assert a + b == a;
    } else {
      var shorter := b[..|b| - 1];
      ReplaysConcat(l, a, shorter);
      InsertConcat(l, a, shorter);
      assert (a + b)[..|a + b| - 1] == a + shorter;
    }
  }

  /** A list is coherent when its first part is, and the rest is after the first is stored. */
  lemma CoherentConcat(l: Ledger, a: seq<Event>, b: seq<Event>)
    ensures Coherent(l, a + b) <==> Coherent(l, a) && Coherent(Insert(l, a), b)
  {
    ReplaysConcat(l, a, b);
    CoherentIffReplays(l, a + b);
    CoherentIffReplays(l, a);
    CoherentIffReplays(Insert(l, a), b);
  }

  class Store {
    var ledger: Ledger

    constructor ()
      ensures ledger == map[]
    {
      ledger := map[];
    }

    method CreateMany(batch: seq<Event>)
      modifies this
      ensures ledger == Insert(old(ledger), batch)
    {
      for i := 0 to |batch|
        invariant ledger == Insert(old(ledger), batch[..i])
      {
        assert batch[..i + 1][..i] == batch[..i];
        if batch[i].id !in ledger { ledger := ledger[batch[i].id := batch[i]]; }
      }
      assert batch[..|batch|] == batch;
    }

    /** The source calls this with batches of 200. */
    method Persist(events: seq<Event>, size: nat) returns (ok: bool, stored: nat)
      requires size >= 1
      modifies this
      ensures ok <==> Coherent(old(ledger), events)
      ensures stored <= |events| && ledger == Insert(old(ledger), events[..stored])
      ensures ok ==> stored == |events| && ledger == Insert(old(ledger), events) && Matches(ledger, events)
      ensures Extends(old(ledger), ledger)
    {
      var offset := 0;
      assert events[..0] == [];
      while offset < |events|
        invariant offset <= |events| && ledger == Insert(old(ledger), events[..offset])
        invariant Coherent(old(ledger), events[..offset])
        decreases |events| - offset
      {
        var to := Min(|events|, offset + size);
        var batch := events[offset..to];
        ghost var before := ledger;
        BatchStep(old(ledger), events, offset, to);
        CreateMany(batch);
        ReadBackIff(before, batch);
        offset := to;
        if !Matches(ledger, batch) {
          InsertSound(old(ledger), events[..offset]);
          return false, offset;
        }
      }
      assert events[..offset] == events;
      InsertSound(old(ledger), events);
      ReadBackIff(old(ledger), events);
      ok, stored := true, offset;
    }
  }

  lemma BatchStep(l: Ledger, events: seq<Event>, from: nat, to: nat)
    requires from <= to <= |events| && Coherent(l, events[..from])
    ensures Insert(l, events[..to]) == Insert(Insert(l, events[..from]), events[from..to])
    ensures Coherent(l, events[..to]) <==> Coherent(Insert(l, events[..from]), events[from..to])
    ensures Coherent(l, events) ==> Coherent(l, events[..to])
  {
    assert events[..to] == events[..from] + events[from..to];
    InsertConcat(l, events[..from], events[from..to]);
    CoherentConcat(l, events[..from], events[from..to]);
    assert events == events[..to] + events[to..];
    CoherentConcat(l, events[..to], events[to..]);
  }

  /** Replaying a stored list succeeds and changes nothing. */
  lemma {:induction false} ReplayChangesNothing(l: Ledger, es: seq<Event>)
    requires Matches(l, es)
    ensures Insert(l, es) == l && Coherent(l, es)
  {
    ReadBackIff(l, es);
    if es != [] {
      var shorter := es[..|es| - 1];
      assert Matches(l, shorter) by { assert forall i :: 0 <= i < |shorter| ==> shorter[i] == es[i]; }
      ReplayChangesNothing(l, shorter);
      assert es[|es| - 1].id in l;
    }
  }

  /** An id seen with another content fails every list that brings it. */
  lemma ConflictAlwaysFails(l: Ledger, es: seq<Event>, i: nat)
    requires i < |es| && es[i].id in l && l[es[i].id] != es[i]
    ensures !Coherent(l, es) && es[i].id in Insert(l, es) && Insert(l, es)[es[i].id] == l[es[i].id]
  {
    InsertSound(l, es);
  }

  /** Persisting two lists one after the other stores what persisting them together stores. */
  lemma ListsCompose(l: Ledger, a: seq<Event>, b: seq<Event>)
    requires Coherent(l, a + b)
    ensures Coherent(l, a) && Coherent(Insert(l, a), b) && Insert(Insert(l, a), b) == Insert(l, a + b)
  {
    CoherentConcat(l, a, b);
    InsertConcat(l, a, b);
  }
}
