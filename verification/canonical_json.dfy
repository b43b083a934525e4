/** The canonical form under which request payloads are compared and results are stored. */
module CanonicalJson {
  import opened KeyOrder

  /** A value as the program holds it; object members are in insertion order. */
  datatype Js =
    | Undefined
    | Null
    | Bool(b: bool)
    | Number(n: real)
    | BigInt(i: int)
    | Text(s: string)
    | Array(items: seq<Js>)
    | Object(members: seq<Member>)

  datatype Member = Member(key: string, value: Js)

  function NatDigits(n: nat): string {
    (if n < 10 then [] else NatDigits(n / 10)) + ["0123456789"[n % 10]]
  }

  function Decimal(i: int): string {
    if i < 0 then "-" + NatDigits(-i) else NatDigits(i)
  }

  /** What a value prints as when it is not a container. */
  function Scalar(v: Js): Js {
    match v
    case Undefined => Null
    case BigInt(i) => Text(Decimal(i))
    case _ => v
  }

  function Insert(m: Member, ms: seq<Member>): seq<Member> {
    if ms == [] then [m]
    else if PropertyLess(m.key, ms[0].key) then [m] + ms
    else [ms[0]] + Insert(m, ms[1..])
  }

  function SortMembers(ms: seq<Member>): seq<Member> {
    if ms == [] then [] else Insert(ms[0], SortMembers(ms[1..]))
  }

  /** Sorts the members at every depth, drops undefined ones and prints big integers as text. */
  function Canonical(v: Js): Js
    decreases v, 1
  {
    match v
    case Array(items) => Array(CanonicalItems(items))
    case Object(members) => Object(SortMembers(CanonicalMembers(members)))
    case _ => Scalar(v)
  }

  function CanonicalItems(items: seq<Js>): (r: seq<Js>)
    ensures |r| == |items|
    ensures forall i :: 0 <= i < |r| ==> r[i] == Canonical(items[i])
    decreases items, 0
  {
    if items == [] then [] else [Canonical(items[0])] + CanonicalItems(items[1..])
  }

  function CanonicalMembers(ms: seq<Member>): seq<Member>
    decreases ms, 0
  {
    if ms == [] then []
    else if ms[0].value == Undefined then CanonicalMembers(ms[1..])
    else [Member(ms[0].key, Canonical(ms[0].value))] + CanonicalMembers(ms[1..])
  }

  predicate SameJson(a: Js, b: Js) {
    Canonical(a) == Canonical(b)
  }

  predicate DistinctKeys(ms: seq<Member>) {
    forall i, j :: 0 <= i < j < |ms| ==> ms[i].key != ms[j].key
  }

  /** An object never has two members with one key. */
  predicate WellFormed(v: Js) {
    match v
    case Array(items) => forall x :: x in items ==> WellFormed(x)
    case Object(ms) => DistinctKeys(ms) && forall m :: m in ms ==> WellFormed(m.value)
    case _ => true
  }

  predicate Sorted(ms: seq<Member>) {
    forall i, j :: 0 <= i < j < |ms| ==> PropertyLess(ms[i].key, ms[j].key)
  }

  predicate Defined(m: Member, ms: seq<Member>) {
    m in ms && m.value != Undefined
  }

  /** Reference meaning: equal up to the order of members, at every depth. */
  ghost predicate Equivalent(u: Js, v: Js)
    decreases u, 1
  {
    if u.Array? || v.Array? then
      u.Array? && v.Array? && |u.items| == |v.items|
      && forall i :: 0 <= i < |u.items| ==> Equivalent(u.items[i], v.items[i])
    else if u.Object? || v.Object? then
      u.Object? && v.Object?
      && (forall m :: Defined(m, u.members) ==> HasEquivalent(m, v.members))
      && (forall n :: Defined(n, v.members) ==> HasKey(n.key, u.members))
    else
      Scalar(u) == Scalar(v)
  }

  ghost predicate HasEquivalent(m: Member, ns: seq<Member>)
    decreases m.value, 2
  {
    exists n :: Defined(n, ns) && n.key == m.key && Equivalent(m.value, n.value)
  }

  ghost predicate HasKey(key: string, ms: seq<Member>) {
    exists m :: Defined(m, ms) && m.key == key
  }

  ghost predicate HasSame(m: Member, ns: seq<Member>) {
    exists n :: Defined(n, ns) && n.key == m.key && SameJson(m.value, n.value)
  }

  // ---- sorting ----

  lemma {:induction false} InsertSorted(m: Member, ms: seq<Member>)
    requires Sorted(ms) && forall x :: x in ms ==> x.key != m.key
    ensures Sorted(Insert(m, ms))
    ensures forall x :: x in Insert(m, ms) <==> x == m || x in ms
  {
    if ms != [] {
      PropertyLessTrichotomy(m.key, ms[0].key);
      if PropertyLess(m.key, ms[0].key) {
        forall j | 0 <= j < |ms| ensures PropertyLess(m.key, ms[j].key) {
          if j > 0 { PropertyLessTransitive(m.key, ms[0].key, ms[j].key); }
        }
      } else {
        InsertSorted(m, ms[1..]);
        var rest := Insert(m, ms[1..]);
        forall j | 0 <= j < |rest| ensures PropertyLess(ms[0].key, rest[j].key) {
          assert rest[j] in rest;
        }
      }
    }
  }

  lemma {:induction false} SortMembersSorted(ms: seq<Member>)
    requires DistinctKeys(ms)
    ensures Sorted(SortMembers(ms))
    ensures forall x :: x in SortMembers(ms) <==> x in ms
  {
    if ms != [] {
      SortMembersSorted(ms[1..]);
      InsertSorted(ms[0], SortMembers(ms[1..]));
    }
  }

  /** A sorted list of members is determined by which members it holds. */
  lemma {:induction false} SortedUnique(a: seq<Member>, b: seq<Member>)
    requires Sorted(a) && Sorted(b)
    requires forall x :: x in a <==> x in b
    ensures a == b
  {
    assert |a| > 0 ==> a[0] in a;
    assert |b| > 0 ==> b[0] in b;
    if a != [] {
      PropertyLessTrichotomy(a[0].key, b[0].key);
      assert a[0] == b[0];
      PropertyLessTrichotomy(a[0].key, a[0].key);
      forall x | x in a[1..] ensures x in b[1..] {
        assert x in a && x != a[0];
      }
      forall x | x in b[1..] ensures x in a[1..] {
        assert x in b && x != b[0];
      }
      SortedUnique(a[1..], b[1..]);
    }
  }

  lemma {:induction false} CanonicalMembersContent(ms: seq<Member>)
    ensures forall x :: x in CanonicalMembers(ms) <==>
                        exists m :: Defined(m, ms) && x == Member(m.key, Canonical(m.value))
  {
    if ms != [] {
      CanonicalMembersContent(ms[1..]);
      forall x | true
        ensures x in CanonicalMembers(ms) <==> exists m :: Defined(m, ms) && x == Member(m.key, Canonical(m.value))
      {
        if m :| Defined(m, ms) && x == Member(m.key, Canonical(m.value)) {
          assert m == ms[0] || Defined(m, ms[1..]);
        }
        if x in CanonicalMembers(ms[1..]) {
          var m :| Defined(m, ms[1..]) && x == Member(m.key, Canonical(m.value));
          assert Defined(m, ms);
        } else if x in CanonicalMembers(ms) {
          assert Defined(ms[0], ms);
        }
      }
    }
  }

  lemma {:induction false} CanonicalMembersDistinct(ms: seq<Member>)
    requires DistinctKeys(ms)
    ensures DistinctKeys(CanonicalMembers(ms))
  {
    if ms != [] {
      CanonicalMembersDistinct(ms[1..]);
      CanonicalMembersContent(ms[1..]);
      forall x | x in CanonicalMembers(ms[1..]) ensures x.key != ms[0].key {
        var m :| Defined(m, ms[1..]) && x == Member(m.key, Canonical(m.value));
      }
    }
  }

  /** The canonical members: sorted, and exactly the defined ones, each in canonical form. */
  lemma CanonicalObject(ms: seq<Member>)
    requires DistinctKeys(ms)
    ensures Sorted(Canonical(Object(ms)).members)
    ensures forall x :: x in Canonical(Object(ms)).members <==>
                        exists m :: Defined(m, ms) && x == Member(m.key, Canonical(m.value))
  {
    CanonicalMembersDistinct(ms);
    CanonicalMembersContent(ms);
    SortMembersSorted(CanonicalMembers(ms));
  }

  // ---- meaning ----

  /** Two objects print alike exactly when each defined member of one is matched in the other. */
  lemma ObjectsSame(ms: seq<Member>, ns: seq<Member>)
    requires DistinctKeys(ms) && DistinctKeys(ns)
    ensures Canonical(Object(ms)) == Canonical(Object(ns))
       <==> (forall m :: Defined(m, ms) ==> HasSame(m, ns)) && (forall n :: Defined(n, ns) ==> HasKey(n.key, ms))
  {
    CanonicalObject(ms);
    CanonicalObject(ns);
    var a, b := Canonical(Object(ms)).members, Canonical(Object(ns)).members;
    if (forall m :: Defined(m, ms) ==> HasSame(m, ns)) && (forall n :: Defined(n, ns) ==> HasKey(n.key, ms)) {
      forall x | x in a ensures x in b {
        var m :| Defined(m, ms) && x == Member(m.key, Canonical(m.value));
        assert HasSame(m, ns);
      }
      forall y | y in b ensures y in a {
        var n :| Defined(n, ns) && y == Member(n.key, Canonical(n.value));
        assert HasKey(n.key, ms);
        var m :| Defined(m, ms) && m.key == n.key;
        assert HasSame(m, ns);
        assert y == Member(m.key, Canonical(m.value));
      }
      SortedUnique(a, b);
    }
    if a == b {
      forall m | Defined(m, ms) ensures HasSame(m, ns) {
        assert Member(m.key, Canonical(m.value)) in b;
      }
      forall n | Defined(n, ns) ensures HasKey(n.key, ms) {
        assert Member(n.key, Canonical(n.value)) in a;
      }
    }
  }

  /** Canonical forms agree exactly when the values agree up to member order. */
  lemma {:induction false} CanonicalIffEquivalent(u: Js, v: Js)
    requires WellFormed(u) && WellFormed(v)
    ensures SameJson(u, v) <==> Equivalent(u, v)
    decreases u
  {
    if u.Array? && v.Array? {
      if |u.items| == |v.items| {
        forall i | 0 <= i < |u.items| ensures SameJson(u.items[i], v.items[i]) <==> Equivalent(u.items[i], v.items[i]) {
          CanonicalIffEquivalent(u.items[i], v.items[i]);
        }
        ItemsSame(u.items, v.items);
      }
    } else if u.Object? && v.Object? {
      ObjectsSame(u.members, v.members);
      forall m | Defined(m, u.members) ensures HasSame(m, v.members) <==> HasEquivalent(m, v.members) {
        forall n | Defined(n, v.members) ensures SameJson(m.value, n.value) <==> Equivalent(m.value, n.value) {
          CanonicalIffEquivalent(m.value, n.value);
        }
      }
    }
  }

  lemma ItemsSame(xs: seq<Js>, ys: seq<Js>)
    requires |xs| == |ys|
    ensures SameJson(Array(xs), Array(ys)) <==> forall i :: 0 <= i < |xs| ==> SameJson(xs[i], ys[i])
  {
    var a, b := CanonicalItems(xs), CanonicalItems(ys);
    if a == b {
      forall i | 0 <= i < |xs| ensures SameJson(xs[i], ys[i]) {
        assert a[i] == b[i];
      }
    }
  }

  lemma {:induction false} CanonicalDefined(v: Js)
    ensures Canonical(v) != Undefined
  {
  }

  /** A canonical form is its own canonical form. */
  lemma {:induction false} CanonicalIdempotent(v: Js)
    requires WellFormed(v)
    ensures WellFormed(Canonical(v))
    ensures Canonical(Canonical(v)) == Canonical(v)
    decreases v
  {
    match v
    case Array(items) =>
      forall i | 0 <= i < |items|
        ensures WellFormed(Canonical(items[i])) && Canonical(Canonical(items[i])) == Canonical(items[i])
      {
        CanonicalIdempotent(items[i]);
      }
      assert CanonicalItems(CanonicalItems(items)) == CanonicalItems(items);
    case Object(ms) =>
      CanonicalObject(ms);
      var sorted := Canonical(v).members;
      forall x | x in sorted
        ensures WellFormed(x.value) && Canonical(x.value) == x.value && x.value != Undefined
      {
        var m :| Defined(m, ms) && x == Member(m.key, Canonical(m.value));
        CanonicalIdempotent(m.value);
      }
      forall i, j | 0 <= i < j < |sorted| ensures sorted[i].key != sorted[j].key {
        PropertyLessTrichotomy(sorted[i].key, sorted[j].key);
      }
      CanonicalObject(sorted);
      var again := Canonical(Object(sorted)).members;
      forall x | true ensures x in again <==> x in sorted {
        if x in sorted { assert Defined(x, sorted) && x == Member(x.key, Canonical(x.value)); }
      }
      SortedUnique(again, sorted);
    case _ =>
  }
}
