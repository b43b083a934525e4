/** The table of shared, reference-counted connection pools. */
module SharedPools {
  import opened Common

  /** What a pool is shared by: address, schema, size, session time zone and connection timeout. */
  datatype Key = Key(url: string, schema: string, maxConnections: nat, timezone: string, timeout: nat)

  datatype Handle = Handle(key: Key, entry: nat, released: bool)

  /** Entries are known by number, whether or not the table still holds them. */
  datatype State = State(
    table: map<Key, nat>,
    references: map<nat, int>,
    ended: map<nat, nat>,          // how often each entry's pool was ended
    handles: map<nat, Handle>,
    nextEntry: nat,
    nextHandle: nat)

  const EMPTY := State(map[], map[], map[], map[], 0, 0)

  /** The handles of an entry that were not released yet. */
  function Live(s: State, e: nat): set<nat> {
    set h | h in s.handles && s.handles[h].entry == e && !s.handles[h].released
  }

  function Acquired(s: State, key: Key): State {
    var e := if key in s.table then s.table[key] else s.nextEntry;
    var references := if e in s.references then s.references[e] else 0;
    s.(table := s.table[key := e],
       references := s.references[e := references + 1],
       ended := if key in s.table then s.ended else s.ended[e := 0],
       handles := s.handles[s.nextHandle := Handle(key, e, false)],
       nextEntry := if key in s.table then s.nextEntry else s.nextEntry + 1,
       nextHandle := s.nextHandle + 1)
  }

  function Released(s: State, h: nat): State {
    if h !in s.handles || s.handles[h].released || s.handles[h].entry !in s.references then s
    else
      var e, key, left := s.handles[h].entry, s.handles[h].key, s.references[s.handles[h].entry] - 1;
      var last := left == 0 && key in s.table && s.table[key] == e;
      s.(references := s.references[e := left],
         handles := s.handles[h := s.handles[h].(released := true)],
         table := if last then s.table - {key} else s.table,
         ended := if last then s.ended[e := (if e in s.ended then s.ended[e] else 0) + 1] else s.ended)
  }

  // ---- the invariant ----

  predicate EntryOk(s: State, e: nat) {
    e < s.nextEntry ==>
      && e in s.references && e in s.ended
      && s.references[e] == |Live(s, e)|
      && s.ended[e] == (if Live(s, e) == {} then 1 else 0)
  }

  predicate HandleOk(s: State, h: nat) {
    h in s.handles ==>
      && h < s.nextHandle && s.handles[h].entry < s.nextEntry
      && (!s.handles[h].released ==> s.handles[h].key in s.table && s.table[s.handles[h].key] == s.handles[h].entry)
  }

  predicate TableOk(s: State, key: Key) {
    key in s.table ==> s.table[key] < s.nextEntry && Live(s, s.table[key]) != {}
  }

  /** Two keys never share an entry. */
  predicate Separate(s: State, k: Key, l: Key) {
    k in s.table && l in s.table && s.table[k] == s.table[l] ==> k == l
  }

  ghost predicate Inv(s: State) {
    && (forall e: nat :: EntryOk(s, e))
    && (forall h: nat :: HandleOk(s, h))
    && (forall k :: TableOk(s, k))
    && (forall k, l :: Separate(s, k, l))
    && (forall e :: e in s.references ==> e < s.nextEntry)
    && (forall e :: e in s.ended ==> e < s.nextEntry)
  }

  lemma LiveAcquired(s: State, key: Key, e: nat)
    requires Inv(s)
    ensures var s' := Acquired(s, key);
      Live(s', e) == if s'.table[key] == e then Live(s, e) + {s.nextHandle} else Live(s, e)
    ensures s.nextHandle !in Live(s, e)
    ensures e >= s.nextEntry ==> Live(s, e) == {}
  {
    assert HandleOk(s, s.nextHandle);
    assert s.nextHandle !in s.handles;
    if Live(s, e) != {} {
      var h :| h in Live(s, e);
      assert HandleOk(s, h);
    }
    assert Live(Acquired(s, key), e) == if Acquired(s, key).table[key] == e then Live(s, e) + {s.nextHandle} else Live(s, e);
  }

  lemma AcquireInv(s: State, key: Key)
    requires Inv(s)
    ensures Inv(Acquired(s, key))
  {
    var s' := Acquired(s, key);
    var mine := s'.table[key];
    assert TableOk(s, key);
    forall e: nat ensures EntryOk(s', e) {
      assert EntryOk(s, e);
      LiveAcquired(s, key, e);
    }
    forall h: nat ensures HandleOk(s', h) {
      assert HandleOk(s, h);
    }
    forall k ensures TableOk(s', k) {
      assert TableOk(s, k);
      LiveAcquired(s, key, if k in s.table then s.table[k] else mine);
      LiveAcquired(s, key, mine);
    }
    forall k, l ensures Separate(s', k, l) {
      assert Separate(s, k, l) && TableOk(s, k) && TableOk(s, l);
    }
  }

  lemma LiveReleased(s: State, h: nat, e: nat)
    requires Inv(s) && h in s.handles && !s.handles[h].released
    ensures Live(Released(s, h), e) == Live(s, e) - {h}
    ensures h in Live(s, e) <==> s.handles[h].entry == e
    ensures s.handles[h].entry in s.references && s.handles[h].key in s.table
    ensures s.table[s.handles[h].key] == s.handles[h].entry
  {
    assert HandleOk(s, h) && EntryOk(s, s.handles[h].entry);
  }

  lemma ReleaseInv(s: State, h: nat)
    requires Inv(s)
    ensures Inv(Released(s, h))
  {
    if h in s.handles && !s.handles[h].released {
      var s' := Released(s, h);
      var mine, key := s.handles[h].entry, s.handles[h].key;
      LiveReleased(s, h, mine);
      assert EntryOk(s, mine);
      forall e: nat ensures EntryOk(s', e) {
        assert EntryOk(s, e);
        LiveReleased(s, h, e);
      }
      forall g: nat ensures HandleOk(s', g) {
        assert HandleOk(s, g) && HandleOk(s, h);
        if g in s.handles && g != h && !s.handles[g].released && s.handles[g].key == key {
          assert g in Live(s, mine) - {h};
          assert |Live(s, mine) - {h}| == |Live(s, mine)| - 1;
          assert s.references[mine] - 1 != 0;
          assert s'.table == s.table;
        }
      }
      forall k ensures TableOk(s', k) {
        assert TableOk(s, k) && Separate(s, k, key);
        if k in s.table { LiveReleased(s, h, s.table[k]); }
      }
      forall k, l ensures Separate(s', k, l) {
        assert Separate(s, k, l);
      }
    }
  }

  // ---- runs ----

  datatype Action = Acquire(key: Key) | Release(handle: nat)

  function Apply(s: State, a: Action): State {
    match a
    case Acquire(key) => Acquired(s, key)
    case Release(h) => Released(s, h)
  }

  function Run(actions: seq<Action>): State {
    if actions == [] then EMPTY else Apply(Run(actions[..|actions| - 1]), actions[|actions| - 1])
  }

  lemma {:induction false} RunInv(actions: seq<Action>)
    ensures Inv(Run(actions))
  {
    if actions == [] {
      assert forall e: nat :: Live(EMPTY, e) == {};
    } else {
      var before := Run(actions[..|actions| - 1]);
      RunInv(actions[..|actions| - 1]);
      match actions[|actions| - 1]
      case Acquire(key) => AcquireInv(before, key);
      case Release(h) => ReleaseInv(before, h);
    }
  }

  /** In every run: an entry's count is the number of its unreleased handles; its pool is not
      ended while one of them is live, and exactly once when none is. */
  lemma CountsAreHandles(actions: seq<Action>, e: nat)
    requires e < Run(actions).nextEntry
    ensures var s := Run(actions);
      && e in s.references && s.references[e] == |Live(s, e)|
      && e in s.ended && s.ended[e] == (if Live(s, e) == {} then 1 else 0)
  {
    RunInv(actions);
    assert EntryOk(Run(actions), e);
  }

  /** What is handed out is never ended: the entry acquired is live and its pool still open. */
  lemma HandedOutIsOpen(actions: seq<Action>, key: Key)
    ensures var s, s' := Run(actions), Acquired(Run(actions), key);
      var e := s'.handles[s.nextHandle].entry;
      && e in s'.ended && s'.ended[e] == 0 && s'.table[key] == e && s.nextHandle in Live(s', e)
      && (e in s.ended ==> s.ended[e] == 0)
  {
    var s := Run(actions);
    RunInv(actions);
    AcquireInv(s, key);
    var s' := Acquired(s, key);
    assert EntryOk(s', s'.table[key]) && TableOk(s, key) && EntryOk(s, s'.table[key]);
    LiveAcquired(s, key, s'.table[key]);
    assert s.nextHandle in Live(s', s'.table[key]);
  }

  predicate Gone(s: State, e: nat) {
    e < s.nextEntry && Live(s, e) == {}
  }

  lemma GoneStays(s: State, a: Action, e: nat)
    requires Inv(s) && Gone(s, e)
    ensures Gone(Apply(s, a), e)
  {
    match a
    case Acquire(key) =>
      assert TableOk(s, key);
      LiveAcquired(s, key, e);
    case Release(h) =>
      if h in s.handles && !s.handles[h].released { LiveReleased(s, h, e); }
  }

  /** Once a pool was ended, no later run hands its entry out again. */
  lemma {:induction false} EndedStaysEnded(actions: seq<Action>, more: seq<Action>, e: nat)
    requires Gone(Run(actions), e)
    ensures Gone(Run(actions + more), e)
  {
    if more == [] {
      assert actions + more == actions;
    } else {
      var shorter := more[..|more| - 1];
      EndedStaysEnded(actions, shorter, e);
      assert (actions + more)[..|actions + more| - 1] == actions + shorter;
      RunInv(actions + shorter);
      GoneStays(Run(actions + shorter), more[|more| - 1], e);
    }
  }

  /** The second half of the guard that ends a pool never matters: when the count of a live
      handle's entry drops to zero, the table still holds that entry. */
  lemma GuardIsRedundant(actions: seq<Action>, h: nat)
    requires h in Run(actions).handles && !Run(actions).handles[h].released
    ensures var s := Run(actions);
      var handle := s.handles[h];
      handle.key in s.table && s.table[handle.key] == handle.entry
  {
    RunInv(actions);
    assert HandleOk(Run(actions), h);
  }

  class Pools {
    var st: State

    constructor ()
      ensures st == EMPTY
    {
      st := EMPTY;
    }

    method AcquireSharedPool(key: Key) returns (h: nat)
      requires Inv(st)
      modifies this
      ensures Inv(st) && st == Acquired(old(st), key) && h == old(st).nextHandle
    {
      AcquireInv(st, key);
      TableInReferences(st, key);
      if key !in st.table {
        st := st.(table := st.table[key := st.nextEntry],
                  references := st.references[st.nextEntry := 0],
                  ended := st.ended[st.nextEntry := 0],
                  nextEntry := st.nextEntry + 1);
      }
      var e := st.table[key];
      st := st.(references := st.references[e := st.references[e] + 1]);
      h := st.nextHandle;
      st := st.(handles := st.handles[h := Handle(key, e, false)], nextHandle := h + 1);
      assert st == Acquired(old(st), key);
    }

    method ReleaseHandle(h: nat)
      requires Inv(st) && h in st.handles
      modifies this
      ensures Inv(st) && st == Released(old(st), h)
    {
      ReleaseInv(st, h);
      var handle := st.handles[h];
      if handle.released { return; }
      LiveReleased(st, h, handle.entry);
      assert EntryOk(st, handle.entry);
      st := st.(handles := st.handles[h := handle.(released := true)],
                references := st.references[handle.entry := st.references[handle.entry] - 1]);
      if st.references[handle.entry] == 0 && handle.key in st.table && st.table[handle.key] == handle.entry {
        st := st.(table := st.table - {handle.key}, ended := st.ended[handle.entry := st.ended[handle.entry] + 1]);
      }
    }
  }

  /** A client with a handle on a shared pool. */
  class Connector {
    const pools: Pools
    const handle: nat
    var disconnected: bool

    constructor (pools: Pools, handle: nat)
      ensures this.pools == pools && this.handle == handle && !disconnected
    {
      this.pools, this.handle, disconnected := pools, handle, false;
    }

    /** A connector that was disconnected refuses; `connects` says whether the client itself does. */
    method Connect(connects: bool) returns (ok: bool)
      ensures ok <==> !disconnected && connects
    {
      ok := !disconnected && connects;
    }

    /** Gives the handle back once, also when the client or the ending of the pool fails. */
    method Disconnect(clientFails: bool, endFails: bool) returns (ok: bool)
      requires Inv(pools.st) && handle in pools.st.handles
      modifies this, pools
      ensures Inv(pools.st) && disconnected
      ensures pools.st == if old(disconnected) then old(pools.st) else Released(old(pools.st), handle)
      ensures ok <==> old(disconnected) || !(clientFails || (endFails && pools.st.ended != old(pools.st).ended))
    {
      if disconnected { return true; }
      disconnected := true;
      ghost var was := pools.st;
      var ends := handle in pools.st.handles && EndsPool(pools.st, handle);
      EndsIff(pools.st, handle);
      pools.ReleaseHandle(handle);
      ok := !(clientFails || (endFails && ends));
    }
  }

  /** Releasing the handle ends its pool. */
  predicate EndsPool(s: State, h: nat)
    requires h in s.handles
  {
    var handle := s.handles[h];
    && !handle.released && handle.entry in s.references && s.references[handle.entry] == 1
    && handle.key in s.table && s.table[handle.key] == handle.entry
  }

  lemma EndsIff(s: State, h: nat)
    requires Inv(s) && h in s.handles
    ensures Released(s, h).ended != s.ended <==> EndsPool(s, h)
  {
    var e := s.handles[h].entry;
    assert HandleOk(s, h) && EntryOk(s, e);
    if EndsPool(s, h) {
      assert Released(s, h).ended[e] == s.ended[e] + 1;
    }
  }

  lemma TableInReferences(s: State, key: Key)
    requires Inv(s)
    ensures key in s.table ==> s.table[key] in s.references && s.table[key] < s.nextEntry
    ensures s.nextEntry !in s.references
  {
    assert TableOk(s, key);
    if key in s.table { assert EntryOk(s, s.table[key]); }
  }
}
