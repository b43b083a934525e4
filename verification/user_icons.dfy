/** Preparing the legacy user icons and linking them to the imported accounts. */
module UserIcons {
  import opened Common

  // ---- preparation ----

  /** What reading or fetching an icon gives: a valid image under its upload name, an image that
      fails validation, or some other error. */
  datatype Checked = Valid(picture: string, legacyFile: bool) | Invalid | Broken

  /** A member row with a custom picture. */
  datatype Row = Row(memberNo: int, sourcePicture: string, checked: Checked)

  datatype Icon = Icon(memberNo: int, sourcePicture: string, picture: string, legacyFile: bool)

  datatype Validated = AsIcon(icon: Icon) | AsRejected(row: Row)

  function Digit(c: char): bool {
    '0' <= c <= '9'
  }

  /** A picture name without its cache suffix: "?=" and eight digits at the end. */
  function Normalize(picture: string): string {
    var n := |picture|;
    if n >= 10 && picture[n - 10] == '?' && picture[n - 9] == '=' && (forall i :: n - 8 <= i < n ==> Digit(picture[i]))
    then picture[..n - 10] else picture
  }

  /** An excluded member must fail validation, and only excluded members may. */
  function Validate(row: Row, exclusions: set<int>): Option<Validated> {
    match row.checked
    case Broken => None
    case Invalid => if row.memberNo in exclusions then Some(AsRejected(row)) else None
    case Valid(picture, legacyFile) =>
      if row.memberNo in exclusions then None else Some(AsIcon(Icon(row.memberNo, row.sourcePicture, picture, legacyFile)))
  }

  predicate RowsOk(rows: seq<Row>, exclusions: set<int>) {
    forall i :: 0 <= i < |rows| ==> Validate(rows[i], exclusions).Some?
  }

  function IconsOf(rows: seq<Row>, exclusions: set<int>): seq<Icon> {
    if rows == [] then [] else
      var v := Validate(rows[|rows| - 1], exclusions);
      IconsOf(rows[..|rows| - 1], exclusions) + (if v.Some? && v.value.AsIcon? then [v.value.icon] else [])
  }

  function RejectedOf(rows: seq<Row>, exclusions: set<int>): seq<Row> {
    if rows == [] then [] else
      var v := Validate(rows[|rows| - 1], exclusions);
      RejectedOf(rows[..|rows| - 1], exclusions) + (if v.Some? && v.value.AsRejected? then [v.value.row] else [])
  }

  predicate IsRejected(rejected: seq<Row>, memberNo: int) {
    exists i :: 0 <= i < |rejected| && rejected[i].memberNo == memberNo
  }

  predicate Owned(icons: seq<Icon>) {
    forall i, j :: 0 <= i < j < |icons| && icons[i].picture == icons[j].picture ==> icons[i].memberNo == icons[j].memberNo
  }

  predicate NoDuplicates(xs: seq<int>) {
    forall i, j :: 0 <= i < j < |xs| ==> xs[i] != xs[j]
  }

  function Elements(xs: seq<int>): set<int> {
    set x | x in xs
  }

  function RowOf(icon: Icon): Row {
    Row(icon.memberNo, icon.sourcePicture, Valid(icon.picture, icon.legacyFile))
  }

  /** The rows' split keeps order and forgets nothing. */
  lemma {:induction false} SplitSound(rows: seq<Row>, exclusions: set<int>)
    requires RowsOk(rows, exclusions)
    ensures |IconsOf(rows, exclusions)| + |RejectedOf(rows, exclusions)| == |rows|
    ensures forall r :: r in RejectedOf(rows, exclusions) <==> r in rows && r.checked.Invalid?
    ensures forall r :: r in RejectedOf(rows, exclusions) ==> r.memberNo in exclusions
    ensures forall c :: c in IconsOf(rows, exclusions) ==> c.memberNo !in exclusions
    ensures forall c :: c in IconsOf(rows, exclusions) <==> RowOf(c) in rows
  {
    if rows != [] {
      var shorter, last := rows[..|rows| - 1], rows[|rows| - 1];
      assert RowsOk(shorter, exclusions) by { assert forall i :: 0 <= i < |shorter| ==> shorter[i] == rows[i]; }
      SplitSound(shorter, exclusions);
      assert rows == shorter + [last];
      assert Validate(last, exclusions).Some?;
    }
  }

  datatype Preparation = Preparation(icons: seq<Icon>, rejected: seq<Row>, uploaded: nat)

  function LegacyFiles(icons: seq<Icon>): nat {
    if icons == [] then 0
    else LegacyFiles(icons[..|icons| - 1]) + (if icons[|icons| - 1].legacyFile then 1 else 0)
  }

  /** Whether the upload of each legacy file would succeed. */
  predicate UploadsOk(icons: seq<Icon>, apply: bool, uploads: seq<bool>)
    requires |uploads| >= |icons|
  {
    apply ==> forall i :: 0 <= i < |icons| && icons[i].legacyFile ==> uploads[i]
  }

  /** On success exactly the excluded members were rejected, and no picture has two owners. */
  ghost predicate Prepared(rows: seq<Row>, exclusions: seq<int>, p: Preparation) {
    && p.icons == IconsOf(rows, Elements(exclusions)) && p.rejected == RejectedOf(rows, Elements(exclusions))
    && Owned(p.icons)
    && (forall m :: m in exclusions <==> IsRejected(p.rejected, m))
  }

  method CheckPictures(icons: seq<Icon>) returns (ok: bool)
    ensures ok <==> Owned(icons)
  {
    var pictures: map<string, int> := map[];
    for i := 0 to |icons|
      invariant forall k :: 0 <= k < i ==> icons[k].picture in pictures && pictures[icons[k].picture] == icons[k].memberNo
      invariant forall p :: p in pictures ==> exists k :: 0 <= k < i && icons[k].picture == p
      invariant Owned(icons[..i])
    {
      if icons[i].picture in pictures && pictures[icons[i].picture] != icons[i].memberNo {
        var k :| 0 <= k < i && icons[k].picture == icons[i].picture;
        return false;
      }
      pictures := pictures[icons[i].picture := icons[i].memberNo];
    }
    assert icons[..|icons|] == icons;
    ok := true;
  }

  method ValidateRows(rows: seq<Row>, exclusions: set<int>) returns (ok: bool, icons: seq<Icon>, rejected: seq<Row>)
    ensures ok <==> RowsOk(rows, exclusions)
    ensures ok ==> icons == IconsOf(rows, exclusions) && rejected == RejectedOf(rows, exclusions)
  {
    icons, rejected := [], [];
    for i := 0 to |rows|
      invariant RowsOk(rows[..i], exclusions)
      invariant icons == IconsOf(rows[..i], exclusions) && rejected == RejectedOf(rows[..i], exclusions)
    {
      assert rows[..i + 1][..i] == rows[..i];
      var v := Validate(rows[i], exclusions);
      if v.None? { return false, icons, rejected; }
      match v.value
      case AsIcon(icon) => icons := icons + [icon];
      case AsRejected(row) => rejected := rejected + [row];
    }
    assert rows[..|rows|] == rows;
    ok := true;
  }

  method Upload(icons: seq<Icon>, apply: bool, uploads: seq<bool>) returns (ok: bool, uploaded: nat)
    requires |uploads| >= |icons|
    ensures ok <==> UploadsOk(icons, apply, uploads)
    ensures ok ==> uploaded == if apply then LegacyFiles(icons) else 0
  {
    uploaded := 0;
    for i := 0 to |icons|
      invariant UploadsOk(icons[..i], apply, uploads)
      invariant uploaded == if apply then LegacyFiles(icons[..i]) else 0
    {
      assert icons[..i + 1][..i] == icons[..i];
      if apply && icons[i].legacyFile {
        if !uploads[i] { return false, uploaded; }
        uploaded := uploaded + 1;
      }
    }
    assert icons[..|icons|] == icons;
    ok := true;
  }

  /** `exclusions` is None when no icon transfer is configured. */
  method Prepare(rows: seq<Row>, exclusions: Option<seq<int>>, apply: bool, uploads: seq<bool>)
    returns (r: Option<Preparation>)
    requires |uploads| >= |rows|
    ensures exclusions.None? ==> r == if rows == [] then Some(Preparation([], [], 0)) else None
    ensures exclusions.Some? ==> (
      var ex := exclusions.value;
      r.Some? <==> NoDuplicates(ex) && RowsOk(rows, Elements(ex))
                   && (forall m :: m in ex ==> IsRejected(RejectedOf(rows, Elements(ex)), m))
                   && Owned(IconsOf(rows, Elements(ex)))
                   && (|IconsOf(rows, Elements(ex))| <= |uploads| && UploadsOk(IconsOf(rows, Elements(ex)), apply, uploads)))
    ensures exclusions.Some? && r.Some? ==>
      Prepared(rows, exclusions.value, r.value) && r.value.uploaded == if apply then LegacyFiles(r.value.icons) else 0
  {
    if exclusions.None? {
      return if |rows| > 0 then None else Some(Preparation([], [], 0));
    }
    var ex := exclusions.value;
    if !NoDuplicates(ex) { return None; }
    var ok, icons, rejected := ValidateRows(rows, Elements(ex));
    if !ok { return None; }
    SplitSound(rows, Elements(ex));
    if exists m :: m in ex && !IsRejected(rejected, m) { return None; }
    forall m | IsRejected(rejected, m) ensures m in ex {
      var i :| 0 <= i < |rejected| && rejected[i].memberNo == m;
      assert rejected[i] in rejected;
    }
    ok := CheckPictures(icons);
    if !ok { return None; }
    var uploaded;
    ok, uploaded := Upload(icons, apply, uploads);
    if !ok { return None; }
    r := Some(Preparation(icons, rejected, uploaded));
  }
}
