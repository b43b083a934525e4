/** Linking prepared icons to target accounts and to the icon library. */
module IconSync {
  import opened Common
  import opened UserIcons

  datatype Account = Account(picture: string, imageServer: int, revision: int)

  datatype LibraryIcon = LibraryIcon(owner: int, retiredAt: Option<int>)

  /** Accounts by member, library by picture. */
  datatype Target = Target(accounts: map<int, Account>, library: map<string, LibraryIcon>)

  datatype Counts = Counts(linked: nat, inserted: nat, retired: nat, preserved: nat)

  const DEFAULT := "default.jpg"

  predicate ShowsSource(a: Account, sourcePicture: string) {
    a.picture == sourcePicture || a.picture == Normalize(sourcePicture)
  }

  predicate Links(a: Account, icon: Icon) {
    ShowsSource(a, icon.sourcePicture) && (a.picture != icon.picture || a.imageServer != 0)
  }

  /** An account still showing its source picture is linked; the library gains the picture. */
  function SyncOne(t: Target, icon: Icon, at: int): Target {
    if icon.memberNo !in t.accounts then t else
      var a := t.accounts[icon.memberNo];
      var linked := if Links(a, icon) then Account(icon.picture, 0, Max(a.revision, at)) else a;
      var entry := LibraryIcon(icon.memberNo, if linked.picture == DEFAULT then Some(at) else None);
      Target(if Links(a, icon) then t.accounts[icon.memberNo := linked] else t.accounts,
             if icon.picture in t.library then t.library else t.library[icon.picture := entry])
  }

  function CountOne(t: Target, icon: Icon, c: Counts): Counts {
    if icon.memberNo !in t.accounts then c else
      var a, added := t.accounts[icon.memberNo], icon.picture !in t.library;
      var shown := if Links(a, icon) then icon.picture else a.picture;
      Counts(c.linked + (if Links(a, icon) then 1 else 0),
             c.inserted + (if added then 1 else 0),
             c.retired + (if added && shown == DEFAULT then 1 else 0),
             c.preserved + (if !ShowsSource(a, icon.sourcePicture) && a.picture != icon.picture then 1 else 0))
  }

  predicate Known(t: Target, icons: seq<Icon>) {
    icons == [] || (Known(t, icons[..|icons| - 1]) && icons[|icons| - 1].memberNo in t.accounts)
  }

  lemma {:induction false} UnknownStays(t: Target, icons: seq<Icon>, n: nat)
    requires n <= |icons| && !Known(t, icons[..n])
    ensures !Known(t, icons)
  {
    if n == |icons| {
      assert icons[..n] == icons;
    } else {
      assert icons[..|icons| - 1][..n] == icons[..n];
      UnknownStays(t, icons[..|icons| - 1], n);
    }
  }

  /** Every icon's member has an account. */
  lemma {:induction false} KnownIff(t: Target, icons: seq<Icon>)
    ensures Known(t, icons) <==> forall i :: 0 <= i < |icons| ==> icons[i].memberNo in t.accounts
  {
    if icons != [] {
      KnownIff(t, icons[..|icons| - 1]);
    }
  }

  /** A picture that the library already gives to somebody else. */
  predicate Collides(t: Target, icons: seq<Icon>) {
    exists i :: 0 <= i < |icons| && icons[i].picture in t.library && t.library[icons[i].picture].owner != icons[i].memberNo
  }

  function SyncAll(t: Target, icons: seq<Icon>, at: int): (r: Target)
    ensures r.accounts.Keys == t.accounts.Keys
  {
    if icons == [] then t
    else SyncOne(SyncAll(t, icons[..|icons| - 1], at), icons[|icons| - 1], at)
  }

  function CountAll(t: Target, icons: seq<Icon>, at: int): Counts {
    if icons == [] then Counts(0, 0, 0, 0)
    else CountOne(SyncAll(t, icons[..|icons| - 1], at), icons[|icons| - 1], CountAll(t, icons[..|icons| - 1], at))
  }

  lemma SyncNext(t: Target, icons: seq<Icon>, at: int, i: nat)
    requires i < |icons|
    ensures var before := SyncAll(t, icons[..i], at);
      && (icons[i].memberNo in before.accounts <==> icons[i].memberNo in t.accounts)
      && (Known(t, icons[..i + 1]) <==> Known(t, icons[..i]) && icons[i].memberNo in t.accounts)
      && SyncAll(t, icons[..i + 1], at) == SyncOne(before, icons[i], at)
      && CountAll(t, icons[..i + 1], at) == CountOne(before, icons[i], CountAll(t, icons[..i], at))
  {
    assert icons[..i + 1][..i] == icons[..i];
    assert SyncAll(t, icons[..i], at).accounts.Keys == t.accounts.Keys;
  }

  lemma ResetNext(t: Target, rows: seq<Row>, at: int, i: nat)
    requires i < |rows|
    ensures var before := ResetAll(t, rows[..i], at);
      && (rows[i].memberNo in before.accounts <==> rows[i].memberNo in t.accounts)
      && (RejectedKnown(t, rows[..i + 1]) <==> RejectedKnown(t, rows[..i]) && rows[i].memberNo in t.accounts)
      && ResetAll(t, rows[..i + 1], at) == ResetOne(before, rows[i], at)
      && CountResets(t, rows[..i + 1], at) == CountResets(t, rows[..i], at) + (if Resets(before, rows[i]) then 1 else 0)
  {
    assert rows[..i + 1][..i] == rows[..i];
    assert ResetAll(t, rows[..i], at).accounts.Keys == t.accounts.Keys;
  }

  class Store {
    var target: Target

    constructor (t: Target)
      ensures target == t
    {
      target := t;
    }

    /** On an error the caller rolls the transaction back. */
    method SyncImported(icons: seq<Icon>, at: int) returns (r: Option<Counts>)
      modifies this
      ensures r.Some? <==> !Collides(old(target), icons) && Known(old(target), icons)
      ensures r.Some? ==> target == SyncAll(old(target), icons, at) && r.value == CountAll(old(target), icons, at)
    {
      if Collides(target, icons) { return None; }
      r := LinkAll(icons, at);
    }

    method LinkOne(icon: Icon, at: int, counts: Counts) returns (known: bool, c: Counts)
      modifies this
      ensures known <==> icon.memberNo in old(target).accounts
      ensures target == SyncOne(old(target), icon, at) && c == CountOne(old(target), icon, counts)
    {
      known, c := icon.memberNo in target.accounts, counts;
      if !known { return; }
      var account := target.accounts[icon.memberNo];
      var matches := ShowsSource(account, icon.sourcePicture);
      if matches && (account.picture != icon.picture || account.imageServer != 0) {
        account := Account(icon.picture, 0, Max(account.revision, at));
        target := target.(accounts := target.accounts[icon.memberNo := account]);
        c := c.(linked := c.linked + 1);
      } else if !matches && account.picture != icon.picture {
        c := c.(preserved := c.preserved + 1);
      }
      var retiredAt := if account.picture == DEFAULT then Some(at) else None;
      if icon.picture !in target.library {
        target := target.(library := target.library[icon.picture := LibraryIcon(icon.memberNo, retiredAt)]);
        c := c.(inserted := c.inserted + 1, retired := c.retired + (if retiredAt.Some? then 1 else 0));
      }
    }

    method LinkAll(icons: seq<Icon>, at: int) returns (r: Option<Counts>)
      modifies this
      ensures r.Some? <==> Known(old(target), icons)
      ensures r.Some? ==> target == SyncAll(old(target), icons, at) && r.value == CountAll(old(target), icons, at)
    {
      var counts := Counts(0, 0, 0, 0);
      ghost var was := target;
      for i := 0 to |icons|
        invariant Known(was, icons[..i])
        invariant target == SyncAll(was, icons[..i], at) && counts == CountAll(was, icons[..i], at)
      {
        SyncNext(was, icons, at, i);
        var known;
        known, counts := LinkOne(icons[i], at, counts);
        if !known {
          UnknownStays(was, icons, i + 1);
          return None;
        }
      }
      assert icons[..|icons|] == icons;
      r := Some(counts);
    }

    method SyncRejected(rows: seq<Row>, at: int) returns (r: Option<nat>)
      modifies this
      ensures r.Some? <==> RejectedKnown(old(target), rows)
      ensures r.Some? ==> target == ResetAll(old(target), rows, at) && r.value == CountResets(old(target), rows, at)
    {
      var resets := 0;
      ghost var was := target;
      for i := 0 to |rows|
        invariant RejectedKnown(was, rows[..i])
        invariant target == ResetAll(was, rows[..i], at) && resets == CountResets(was, rows[..i], at)
      {
        ResetNext(was, rows, at, i);
        if rows[i].memberNo !in target.accounts {
          UnknownRowStays(was, rows, i + 1);
          return None;
        }
        if Resets(target, rows[i]) { resets := resets + 1; }
        target := ResetOne(target, rows[i], at);
      }
      assert rows[..|rows|] == rows;
      r := Some(resets);
    }
  }

  // ---- a second sync ----

  /** Nothing is left to do for this icon. */
  predicate Settled(t: Target, icon: Icon) {
    icon.memberNo in t.accounts && !Links(t.accounts[icon.memberNo], icon) && icon.picture in t.library
  }

  predicate DistinctMembers(icons: seq<Icon>) {
    forall i, j :: 0 <= i < j < |icons| ==> icons[i].memberNo != icons[j].memberNo
  }

  /** The library gives each icon's picture to its member, or to nobody. */
  predicate Owns(t: Target, icon: Icon) {
    icon.picture in t.library ==> t.library[icon.picture].owner == icon.memberNo
  }

  /** No icon of the list gives this picture to another member. */
  predicate Unclaimed(icons: seq<Icon>, c: Icon) {
    forall i :: 0 <= i < |icons| && icons[i].picture == c.picture ==> icons[i].memberNo == c.memberNo
  }

  lemma {:induction false} SyncSettles(t: Target, icons: seq<Icon>, at: int)
    requires Known(t, icons) && DistinctMembers(icons) && Owned(icons) && !Collides(t, icons)
    ensures forall i :: 0 <= i < |icons| ==> Settled(SyncAll(t, icons, at), icons[i])
    ensures forall c: Icon :: Owns(t, c) && Unclaimed(icons, c) ==> Owns(SyncAll(t, icons, at), c)
  {
    if icons != [] {
      var shorter, last := icons[..|icons| - 1], icons[|icons| - 1];
      assert forall i :: 0 <= i < |shorter| ==> shorter[i] == icons[i];
      SyncSettles(t, shorter, at);
      assert forall c :: Unclaimed(icons, c) ==> Unclaimed(shorter, c);
      var before, after := SyncAll(t, shorter, at), SyncAll(t, icons, at);
      forall i | 0 <= i < |icons| ensures Settled(after, icons[i]) {
        if i < |shorter| {
          assert Settled(before, shorter[i]) && icons[i].memberNo != last.memberNo;
        }
      }
    }
  }

  /** A second sync of the same icons links nothing, inserts nothing and changes nothing. */
  lemma {:induction false} SettledSyncIsIdle(t: Target, icons: seq<Icon>, at: int)
    requires Known(t, icons) && forall i :: 0 <= i < |icons| ==> Settled(t, icons[i])
    ensures SyncAll(t, icons, at) == t
    ensures CountAll(t, icons, at).linked == CountAll(t, icons, at).inserted == CountAll(t, icons, at).retired == 0
  {
    if icons != [] {
      var shorter := icons[..|icons| - 1];
      assert forall i :: 0 <= i < |shorter| ==> shorter[i] == icons[i];
      SettledSyncIsIdle(t, shorter, at);
      assert Settled(t, icons[|icons| - 1]);
    }
  }

  lemma SecondSyncIsIdle(t: Target, icons: seq<Icon>, at: int, later: int)
    requires Known(t, icons) && DistinctMembers(icons) && Owned(icons) && !Collides(t, icons)
    ensures var once := SyncAll(t, icons, at);
      && Known(once, icons) && !Collides(once, icons)
      && SyncAll(once, icons, later) == once
      && CountAll(once, icons, later).linked == CountAll(once, icons, later).inserted == CountAll(once, icons, later).retired == 0
  {
    SyncSettles(t, icons, at);
    var once := SyncAll(t, icons, at);
    forall i | 0 <= i < |icons| ensures Owns(once, icons[i]) {
      assert Unclaimed(icons, icons[i]) && Owns(t, icons[i]);
    }
    KnownIff(once, icons);
    SettledSyncIsIdle(once, icons, later);
  }

  // ---- rejected icons ----

  predicate RejectedKnown(t: Target, rows: seq<Row>) {
    rows == [] || (RejectedKnown(t, rows[..|rows| - 1]) && rows[|rows| - 1].memberNo in t.accounts)
  }

  lemma {:induction false} UnknownRowStays(t: Target, rows: seq<Row>, n: nat)
    requires n <= |rows| && !RejectedKnown(t, rows[..n])
    ensures !RejectedKnown(t, rows)
  {
    if n == |rows| {
      assert rows[..n] == rows;
    } else {
      assert rows[..|rows| - 1][..n] == rows[..n];
      UnknownRowStays(t, rows[..|rows| - 1], n);
    }
  }

  lemma {:induction false} RejectedKnownIff(t: Target, rows: seq<Row>)
    ensures RejectedKnown(t, rows) <==> forall i :: 0 <= i < |rows| ==> rows[i].memberNo in t.accounts
  {
    if rows != [] {
      RejectedKnownIff(t, rows[..|rows| - 1]);
    }
  }

  predicate Resets(t: Target, row: Row) {
    row.memberNo in t.accounts && ShowsSource(t.accounts[row.memberNo], row.sourcePicture)
  }

  function ResetOne(t: Target, row: Row, at: int): Target {
    if Resets(t, row)
    then t.(accounts := t.accounts[row.memberNo := Account(DEFAULT, 0, Max(t.accounts[row.memberNo].revision, at))])
    else t
  }

  function ResetAll(t: Target, rows: seq<Row>, at: int): (r: Target)
    ensures r.accounts.Keys == t.accounts.Keys
  {
    if rows == [] then t else ResetOne(ResetAll(t, rows[..|rows| - 1], at), rows[|rows| - 1], at)
  }

  function CountResets(t: Target, rows: seq<Row>, at: int): nat {
    if rows == [] then 0
    else CountResets(t, rows[..|rows| - 1], at) + (if Resets(ResetAll(t, rows[..|rows| - 1], at), rows[|rows| - 1]) then 1 else 0)
  }

  predicate DistinctRows(rows: seq<Row>) {
    forall i, j :: 0 <= i < j < |rows| ==> rows[i].memberNo != rows[j].memberNo
  }

  lemma {:induction false} ResetAt(t: Target, rows: seq<Row>, at: int, m: int)
    requires RejectedKnown(t, rows) && DistinctRows(rows) && m in t.accounts
    ensures (forall i :: 0 <= i < |rows| ==> rows[i].memberNo != m) ==> ResetAll(t, rows, at).accounts[m] == t.accounts[m]
    ensures forall i :: 0 <= i < |rows| && rows[i].memberNo == m ==>
      ResetAll(t, rows, at).accounts[m] == ResetOne(t, rows[i], at).accounts[m]
  {
    if rows != [] {
      var shorter, last := rows[..|rows| - 1], rows[|rows| - 1];
      assert forall i :: 0 <= i < |shorter| ==> shorter[i] == rows[i];
      ResetAt(t, shorter, at, m);
    }
  }

  /** Whether a later sync resets an account again: only one whose source picture is, apart from
      its cache suffix, the default picture. */
  predicate ResetsForever(row: Row) {
    row.sourcePicture == DEFAULT || Normalize(row.sourcePicture) == DEFAULT
  }

  lemma ResetAgainIff(t: Target, rows: seq<Row>, at: int, i: nat)
    requires RejectedKnown(t, rows) && DistinctRows(rows) && i < |rows|
    ensures var once := ResetAll(t, rows, at);
      Resets(once, rows[i]) <==> Resets(t, rows[i]) && ResetsForever(rows[i])
  {
    RejectedKnownIff(t, rows);
    ResetAt(t, rows, at, rows[i].memberNo);
  }

  /** A rejected account that shows the default picture with a cache suffix is reset, and counted as
      reset, by one sync after the other. */
  lemma DefaultIsResetForever(row: Row, at: int, later: int)
    requires row.sourcePicture == "default.jpg?=20240101"
    ensures var t := Target(map[row.memberNo := Account(row.sourcePicture, 1, 0)], map[]);
      && CountResets(t, [row], at) == 1
      && CountResets(ResetAll(t, [row], at), [row], later) == 1
  {
    var t := Target(map[row.memberNo := Account(row.sourcePicture, 1, 0)], map[]);
    assert Normalize(row.sourcePicture) == DEFAULT;
    ResetOnce(t, row, at);
    ResetOnce(ResetAll(t, [row], at), row, later);
  }

  lemma ResetOnce(t: Target, row: Row, at: int)
    ensures ResetAll(t, [row], at) == ResetOne(t, row, at)
    ensures CountResets(t, [row], at) == if Resets(t, row) then 1 else 0
  {
    assert [row][..0] == [];
  }
}
