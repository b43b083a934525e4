/** Turning on revision coverage: seed the shared heads, then raise the version. */
module CoverageActivation {
  import opened Common
  import opened RevisionKeys

  const COVERAGE_VERSION: int := 1

  const SHARED: set<Key> := {Key("dashboard.global", 0), Key("map.world", 0)}

  function Seeded(heads: map<Key, nat>): map<Key, nat> {
    heads + map k | k in SHARED && k !in heads :: 1
  }

  predicate Activates(version: Option<int>, expected: int) {
    expected >= 0 && version.Some? && (version.value == expected || version.value == COVERAGE_VERSION)
  }

  datatype Activation = Activation(previousVersion: int, seededHeads: nat)

  class Coverage {
    var version: Option<int>      // of the one meta row, if it exists
    var heads: map<Key, nat>

    constructor (version: Option<int>, heads: map<Key, nat>)
      ensures this.version == version && this.heads == heads
    {
      this.version, this.heads := version, heads;
    }

    /** The meta row stays locked from its read to the update, but writers may raise and add heads
        until the seeding statement; `meanwhile` are the heads it then finds. An error leaves the
        transaction to be rolled back by the caller. */
    method Activate(expected: int, meanwhile: map<Key, nat>) returns (r: Result<Activation, string>)
      modifies this
      ensures r.Ok? <==> Activates(old(version), expected)
      ensures r.Err? ==> version == old(version) && heads == old(heads)
      ensures r.Ok? ==>
        && version == Some(COVERAGE_VERSION) && heads == Seeded(meanwhile)
        && r.value == Activation(old(version).value, |SHARED - meanwhile.Keys|)
    {
      if expected < 0 { return Err("the expected version must be a non-negative integer"); }
      if version.None? || (version.value != expected && version.value != COVERAGE_VERSION) {
        return Err("unexpected coverage version");
      }
      var current := version.value;
      var missing := SHARED - meanwhile.Keys;
      heads := Seeded(meanwhile);
      if current != COVERAGE_VERSION {
        if version != Some(expected) {
          assert false;
          return Err("lost the version compare-and-set");
        }
        version := Some(COVERAGE_VERSION);
      }
      r := Ok(Activation(current, |missing|));
    }
  }

  /** Seeding adds the missing shared heads and never touches one that is there. */
  lemma SeedingOverwritesNothing(heads: map<Key, nat>)
    ensures forall k :: k in heads ==> k in Seeded(heads) && Seeded(heads)[k] == heads[k]
    ensures Seeded(heads).Keys == heads.Keys + SHARED
    ensures forall k :: k in Seeded(heads) && k !in heads ==> Seeded(heads)[k] == 1
    ensures Seeded(Seeded(heads)) == Seeded(heads) && SHARED - Seeded(heads).Keys == {}
  {
    assert Seeded(heads).Keys == heads.Keys + SHARED;
    assert Seeded(Seeded(heads)) == Seeded(heads);
  }

  // ---- activations among writers ----

  datatype State = State(version: Option<int>, heads: map<Key, nat>)

  datatype Event = Attempt(expected: int) | Raise(key: Key)

  function After(s: State, e: Event): State {
    match e
    case Attempt(expected) =>
      if Activates(s.version, expected) then State(Some(COVERAGE_VERSION), Seeded(s.heads)) else s
    case Raise(key) => s.(heads := s.heads[key := if key in s.heads then s.heads[key] + 1 else 1])
  }

  function AfterAll(s: State, es: seq<Event>): State {
    if es == [] then s else After(AfterAll(s, es[..|es| - 1]), es[|es| - 1])
  }

  /** The gate is open only where every shared head exists. */
  predicate GateOk(s: State) {
    s.version == Some(COVERAGE_VERSION) ==> SHARED <= s.heads.Keys
  }

  /** However attempts and writers interleave: an open gate stays open with every shared head there,
      and no head is lost or lowered. */
  lemma {:induction false} GateStaysOk(s: State, es: seq<Event>, k: Key)
    requires GateOk(s)
    ensures GateOk(AfterAll(s, es))
    ensures s.version == Some(COVERAGE_VERSION) ==> AfterAll(s, es).version == Some(COVERAGE_VERSION)
    ensures k in s.heads ==> k in AfterAll(s, es).heads && AfterAll(s, es).heads[k] >= s.heads[k]
  {
    if es != [] {
      var before := AfterAll(s, es[..|es| - 1]);
      GateStaysOk(s, es[..|es| - 1], k);
      SeedingOverwritesNothing(before.heads);
    }
  }

  /** After a success every later attempt with a legal expectation succeeds and seeds nothing. */
  lemma {:induction false} ActivationIsRepeatable(s: State, expected: int, later: seq<Event>, again: int)
    requires GateOk(s) && Activates(s.version, expected) && again >= 0
    ensures var now := AfterAll(After(s, Attempt(expected)), later);
      Activates(now.version, again) && After(now, Attempt(again)) == now
  {
    var first := After(s, Attempt(expected));
    SeedingOverwritesNothing(s.heads);
    assert GateOk(first);
    GateStaysOk(first, later, Key("map.world", 0));
    var now := AfterAll(first, later);
    assert Seeded(now.heads) == now.heads;
  }
}
