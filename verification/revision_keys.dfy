/** Revision keys and the order in which a journal write takes them. */
module RevisionKeys {
  import opened KeyOrder

  datatype Key = Key(domain: string, entityId: nat)

  /** Domain first, then entity. */
  predicate KeyLess(a: Key, b: Key) {
    StringLess(a.domain, b.domain) || (a.domain == b.domain && a.entityId < b.entityId)
  }

  lemma KeyLessTransitive(a: Key, b: Key, c: Key)
    requires KeyLess(a, b) && KeyLess(b, c)
    ensures KeyLess(a, c)
  {
    if StringLess(a.domain, b.domain) && StringLess(b.domain, c.domain) {
      StringLessTransitive(a.domain, b.domain, c.domain);
    }
  }

  lemma KeyLessTrichotomy(a: Key, b: Key)
    ensures KeyLess(a, b) || a == b || KeyLess(b, a)
    ensures !(KeyLess(a, b) && KeyLess(b, a))
    ensures a == b ==> !KeyLess(a, b)
  {
    StringLessTrichotomy(a.domain, b.domain);
  }

  predicate Ascending(keys: seq<Key>) {
    forall i, j :: 0 <= i < j < |keys| ==> KeyLess(keys[i], keys[j])
  }

  function InsertKey(k: Key, keys: seq<Key>): seq<Key> {
    if keys == [] then [k]
    else if k == keys[0] then keys
    else if KeyLess(k, keys[0]) then [k] + keys
    else [keys[0]] + InsertKey(k, keys[1..])
  }

  /** Deduplicated and sorted. */
  function Normalize(keys: seq<Key>): seq<Key> {
    if keys == [] then [] else InsertKey(keys[0], Normalize(keys[1..]))
  }

  lemma {:induction false} InsertKeyAscending(k: Key, keys: seq<Key>)
    requires Ascending(keys)
    ensures Ascending(InsertKey(k, keys))
    ensures forall x :: x in InsertKey(k, keys) <==> x == k || x in keys
  {
    if keys != [] && k != keys[0] {
      KeyLessTrichotomy(k, keys[0]);
      if KeyLess(k, keys[0]) {
        forall j | 0 <= j < |keys| ensures KeyLess(k, keys[j]) {
          if j > 0 { KeyLessTransitive(k, keys[0], keys[j]); }
        }
      } else {
        InsertKeyAscending(k, keys[1..]);
        var rest := InsertKey(k, keys[1..]);
        forall j | 0 <= j < |rest| ensures KeyLess(keys[0], rest[j]) {
          assert rest[j] in rest;
        }
      }
    }
  }

  /** Normalization keeps exactly the marked keys, each once, in lock order. */
  lemma {:induction false} NormalizeSound(keys: seq<Key>)
    ensures Ascending(Normalize(keys))
    ensures forall x :: x in Normalize(keys) <==> x in keys
  {
    if keys != [] {
      NormalizeSound(keys[1..]);
      InsertKeyAscending(keys[0], Normalize(keys[1..]));
    }
  }

  lemma {:induction false} AscendingUnique(a: seq<Key>, b: seq<Key>)
    requires Ascending(a) && Ascending(b)
    requires forall x :: x in a <==> x in b
    ensures a == b
  {
    assert |a| > 0 ==> a[0] in a;
    assert |b| > 0 ==> b[0] in b;
    if a != [] {
      KeyLessTrichotomy(a[0], b[0]);
      KeyLessTrichotomy(a[0], a[0]);
      assert a[0] == b[0];
      forall x | x in a[1..] ensures x in b[1..] {
        assert x in a && x != a[0];
      }
      forall x | x in b[1..] ensures x in a[1..] {
        assert x in b && x != b[0];
      }
      AscendingUnique(a[1..], b[1..]);
    }
  }

  /** Neither the order of marks nor their repetition changes what is written. */
  lemma NormalizeOrderFree(a: seq<Key>, b: seq<Key>)
    requires forall x :: x in a <==> x in b
    ensures Normalize(a) == Normalize(b)
  {
    NormalizeSound(a);
    NormalizeSound(b);
    AscendingUnique(Normalize(a), Normalize(b));
  }
}
