/** Preserved battle-result files, grouped into seasons and described by manifests. */
module BattleResultSource {
  import opened Common

  const MAX_FILE_BYTES: nat := 4 * 1024 * 1024

  /** A file; its content hash is taken to be the content itself. */
  datatype File = File(generalNo: nat, content: string)

  datatype Descriptor = Descriptor(serverId: string, file: File)

  /** `digest` stands for the hash over the sorted descriptors. */
  datatype Manifest = Manifest(serverId: string, digest: seq<File>, fileCount: nat, totalBytes: nat)

  predicate Ascending(files: seq<File>) {
    forall i, j :: 0 <= i < j < |files| ==> files[i].generalNo < files[j].generalNo
  }

  predicate Distinct(files: seq<File>) {
    forall i, j :: 0 <= i < j < |files| ==> files[i].generalNo != files[j].generalNo
  }

  function Insert(f: File, files: seq<File>): seq<File> {
    if files == [] || f.generalNo <= files[0].generalNo then [f] + files
    else [files[0]] + Insert(f, files[1..])
  }

  function Sort(files: seq<File>): seq<File> {
    if files == [] then [] else Insert(files[0], Sort(files[1..]))
  }

  function TotalBytes(files: seq<File>): nat {
    if files == [] then 0 else TotalBytes(files[..|files| - 1]) + |files[|files| - 1].content|
  }

  /** The files are sorted in place before they are counted and hashed. */
  function ManifestFor(serverId: string, files: seq<File>): Manifest {
    var sorted := Sort(files);
    Manifest(serverId, sorted, |sorted|, TotalBytes(sorted))
  }

  lemma {:induction false} InsertSound(f: File, files: seq<File>)
    ensures forall g :: g in Insert(f, files) <==> g == f || g in files
    ensures Ascending(files) && (forall g :: g in files ==> g.generalNo != f.generalNo) ==> Ascending(Insert(f, files))
  {
    if files != [] && f.generalNo > files[0].generalNo {
      InsertSound(f, files[1..]);
      var rest := Insert(f, files[1..]);
      if Ascending(files) {
        forall j | 0 <= j < |rest| ensures files[0].generalNo < rest[j].generalNo {
          assert rest[j] in rest;
        }
      }
    }
  }

  lemma {:induction false} SortSound(files: seq<File>)
    ensures forall f :: f in Sort(files) <==> f in files
    ensures Distinct(files) ==> Ascending(Sort(files))
  {
    if files != [] {
      SortSound(files[1..]);
      InsertSound(files[0], Sort(files[1..]));
    }
  }

  lemma {:induction false} AscendingUnique(a: seq<File>, b: seq<File>)
    requires Ascending(a) && Ascending(b) && forall f :: f in a <==> f in b
    ensures a == b
  {
    assert a != [] ==> a[0] in b;
    assert b != [] ==> b[0] in a;
    if a != [] {
      assert a[0] == b[0];
      forall f ensures f in a[1..] <==> f in b[1..] {
        assert f in a[1..] <==> f in a && f != a[0];
        assert f in b[1..] <==> f in b && f != b[0];
      }
      AscendingUnique(a[1..], b[1..]);
    }
  }

  /** Two listings of one season give the same manifest exactly when they hold the same files,
      in whatever order. */
  lemma ManifestIdentifiesFiles(serverId: string, a: seq<File>, b: seq<File>)
    requires Distinct(a) && Distinct(b)
    ensures ManifestFor(serverId, a) == ManifestFor(serverId, b) <==> forall f :: f in a <==> f in b
  {
    SortSound(a);
    SortSound(b);
    if forall f :: f in a <==> f in b {
      AscendingUnique(Sort(a), Sort(b));
    }
  }

  // ---- listing ----

  predicate DescriptorOk(d: Descriptor) {
    |d.file.content| <= MAX_FILE_BYTES
  }

  function FilesOf(ds: seq<Descriptor>, serverId: string): seq<File> {
    if ds == [] then [] else
      var last := ds[|ds| - 1];
      FilesOf(ds[..|ds| - 1], serverId) + (if last.serverId == serverId then [last.file] else [])
  }

  lemma {:induction false} FilesOfMember(ds: seq<Descriptor>, serverId: string, f: File)
    ensures f in FilesOf(ds, serverId) <==> Descriptor(serverId, f) in ds
  {
    if ds != [] {
      FilesOfMember(ds[..|ds| - 1], serverId, f);
      assert ds == ds[..|ds| - 1] + [ds[|ds| - 1]];
    }
  }

  predicate NoRepeats(ds: seq<Descriptor>) {
    forall i, j :: 0 <= i < j < |ds| ==> !(ds[i].serverId == ds[j].serverId && ds[i].file.generalNo == ds[j].file.generalNo)
  }

  function GroupOf(grouped: map<string, seq<File>>, s: string): seq<File> {
    if s in grouped then grouped[s] else []
  }

  /** `grouped` holds the seasons of a listing, `order` their ids. */
  ghost predicate Groups(ds: seq<Descriptor>, grouped: map<string, seq<File>>, order: seq<string>) {
    && (forall s :: GroupOf(grouped, s) == FilesOf(ds, s))
    && (forall s :: s in order <==> s in grouped)
    && (forall k, l :: 0 <= k < l < |order| ==> order[k] != order[l])
  }

  /** A file number is new to its season exactly when the listing has not repeated it. */
  lemma NoRepeatIff(ds: seq<Descriptor>, i: nat)
    requires i < |ds| && NoRepeats(ds[..i])
    ensures NoRepeats(ds[..i + 1]) <==> !Holds(FilesOf(ds[..i], ds[i].serverId), ds[i].file.generalNo)
  {
    var before, files := ds[..i], FilesOf(ds[..i], ds[i].serverId);
    if Holds(files, ds[i].file.generalNo) {
      var f :| f in files && f.generalNo == ds[i].file.generalNo;
      FilesOfMember(before, ds[i].serverId, f);
      var k :| 0 <= k < i && before[k] == Descriptor(ds[i].serverId, f);
      assert ds[..i + 1][k] == before[k] && ds[..i + 1][i] == ds[i];
    } else {
      forall k | 0 <= k < i && ds[k].serverId == ds[i].serverId ensures ds[k].file.generalNo != ds[i].file.generalNo {
        assert before[k] == ds[k];
        FilesOfMember(before, ds[i].serverId, ds[k].file);
      }
    }
  }

  predicate Holds(files: seq<File>, generalNo: nat) {
    exists f :: f in files && f.generalNo == generalNo
  }

  lemma {:induction false} SeasonDistinct(ds: seq<Descriptor>, serverId: string)
    requires NoRepeats(ds)
    ensures Distinct(FilesOf(ds, serverId))
  {
    if ds != [] {
      var i := |ds| - 1;
      SeasonDistinct(ds[..i], serverId);
      assert ds[..i + 1] == ds;
      NoRepeatIff(ds, i);
    }
  }

  function Grouped(ds: seq<Descriptor>): map<string, seq<File>> {
    if ds == [] then map[] else
      var before, d := Grouped(ds[..|ds| - 1]), ds[|ds| - 1];
      before[d.serverId := GroupOf(before, d.serverId) + [d.file]]
  }

  function Seasons(ds: seq<Descriptor>): seq<string> {
    if ds == [] then [] else
      var before, d := Seasons(ds[..|ds| - 1]), ds[|ds| - 1];
      if d.serverId in before then before else before + [d.serverId]
  }

  lemma {:induction false} GroupedAt(ds: seq<Descriptor>, s: string)
    ensures GroupOf(Grouped(ds), s) == FilesOf(ds, s)
    ensures s in Seasons(ds) <==> s in Grouped(ds)
  {
    if ds != [] {
      GroupedAt(ds[..|ds| - 1], s);
    }
  }

  lemma {:induction false} SeasonsDistinct(ds: seq<Descriptor>)
    ensures forall k, l :: 0 <= k < l < |Seasons(ds)| ==> Seasons(ds)[k] != Seasons(ds)[l]
  {
    if ds != [] {
      SeasonsDistinct(ds[..|ds| - 1]);
    }
  }

  /** Grouping loses no file and invents no season. */
  lemma GroupedSound(ds: seq<Descriptor>)
    ensures Groups(ds, Grouped(ds), Seasons(ds))
  {
    SeasonsDistinct(ds);
    forall s ensures GroupOf(Grouped(ds), s) == FilesOf(ds, s) && (s in Seasons(ds) <==> s in Grouped(ds)) {
      GroupedAt(ds, s);
    }
  }

  predicate AllOk(ds: seq<Descriptor>) {
    forall k :: 0 <= k < |ds| ==> DescriptorOk(ds[k])
  }

  predicate Acceptable(ds: seq<Descriptor>) {
    AllOk(ds) && NoRepeats(ds)
  }

  lemma AllOkSnoc(ds: seq<Descriptor>, d: Descriptor)
    ensures AllOk(ds + [d]) <==> AllOk(ds) && DescriptorOk(d)
  {
    assert (ds + [d])[|ds|] == d && forall k :: 0 <= k < |ds| ==> (ds + [d])[k] == ds[k];
  }

  /** What the loop checks before it takes the next descriptor. */
  lemma AcceptableIff(ds: seq<Descriptor>, i: nat)
    requires i < |ds| && Acceptable(ds[..i])
    ensures Acceptable(ds[..i + 1])
      <==> DescriptorOk(ds[i]) && !Holds(GroupOf(Grouped(ds[..i]), ds[i].serverId), ds[i].file.generalNo)
  {
    GroupedAt(ds[..i], ds[i].serverId);
    NoRepeatIff(ds, i);
    AllOkSnoc(ds[..i], ds[i]);
    assert ds[..i + 1] == ds[..i] + [ds[i]];
  }

  lemma UnacceptableStays(ds: seq<Descriptor>, n: nat)
    requires n <= |ds| && !Acceptable(ds[..n])
    ensures !Acceptable(ds)
  {
    if NoRepeats(ds) {
      var k :| 0 <= k < n && !DescriptorOk(ds[..n][k]);
      assert !DescriptorOk(ds[k]);
    }
  }

  /** The grouping loop; a file listed twice or a file too large is refused. */
  method GroupFiles(ds: seq<Descriptor>) returns (ok: bool, grouped: map<string, seq<File>>, order: seq<string>)
    ensures ok <==> Acceptable(ds)
    ensures ok ==> grouped == Grouped(ds) && order == Seasons(ds)
  {
    grouped, order, ok := map[], [], true;
    var i := 0;
    while i < |ds| && ok
      invariant i <= |ds|
      invariant ok <==> Acceptable(ds[..i])
      invariant ok ==> grouped == Grouped(ds[..i]) && order == Seasons(ds[..i])
      decreases |ds| - i
    {
      var d := ds[i];
      AcceptableIff(ds, i);
      assert ds[..i + 1][..i] == ds[..i];
      var files := GroupOf(grouped, d.serverId);
      ok := DescriptorOk(d) && !Holds(files, d.file.generalNo);
      if d.serverId !in order { order := order + [d.serverId]; }
      grouped := grouped[d.serverId := files + [d.file]];
      i := i + 1;
    }
    if !ok { UnacceptableStays(ds, i); }
    assert ds[..|ds|] == ds;
  }

  function SeasonAt(ds: seq<Descriptor>, i: nat): Manifest
    requires i < |Seasons(ds)|
  {
    ManifestFor(Seasons(ds)[i], GroupOf(Grouped(ds), Seasons(ds)[i]))
  }

  lemma SeasonDescribed(ds: seq<Descriptor>, i: nat)
    requires NoRepeats(ds) && i < |Seasons(ds)|
    ensures Describes(ds, SeasonAt(ds, i)) && SeasonAt(ds, i).serverId == Seasons(ds)[i]
  {
    GroupedSound(ds);
    SeasonDistinct(ds, Seasons(ds)[i]);
    DescribesItsFiles(ds, Seasons(ds)[i]);
    assert GroupOf(Grouped(ds), Seasons(ds)[i]) == FilesOf(ds, Seasons(ds)[i]);
  }

  /** A listing's manifests: one per season, each describing all and only its files. */
  ghost predicate Covers(ds: seq<Descriptor>, ms: seq<Manifest>) {
    && (forall i :: 0 <= i < |ms| ==> Describes(ds, ms[i]))
    && (forall i, j :: 0 <= i < j < |ms| ==> ms[i].serverId != ms[j].serverId)
    && (forall k :: 0 <= k < |ds| ==> Listed(ms, ds[k].serverId))
  }

  predicate Listed(ms: seq<Manifest>, serverId: string) {
    exists i :: 0 <= i < |ms| && ms[i].serverId == serverId
  }

  lemma SeasonsCover(ds: seq<Descriptor>, ms: seq<Manifest>)
    requires NoRepeats(ds) && |ms| == |Seasons(ds)|
    requires forall i :: 0 <= i < |ms| ==> ms[i] == SeasonAt(ds, i)
    ensures Covers(ds, ms)
  {
    GroupedSound(ds);
    forall i | 0 <= i < |ms| ensures Describes(ds, ms[i]) && ms[i].serverId == Seasons(ds)[i] {
      SeasonDescribed(ds, i);
    }
    forall k | 0 <= k < |ds| ensures Listed(ms, ds[k].serverId) {
      FilesOfMember(ds, ds[k].serverId, ds[k].file);
      assert GroupOf(Grouped(ds), ds[k].serverId) == FilesOf(ds, ds[k].serverId);
      var i :| 0 <= i < |Seasons(ds)| && Seasons(ds)[i] == ds[k].serverId;
      assert ms[i].serverId == ds[k].serverId;
    }
  }

  /** Seasons in order of first appearance. */
  method ListSeasons(ds: seq<Descriptor>) returns (r: Result<seq<Manifest>, string>)
    ensures r.Ok? <==> Acceptable(ds)
    ensures r.Ok? ==> Covers(ds, r.value)
  {
    var ok, grouped, order := GroupFiles(ds);
    if !ok { return Err("invalid or duplicate battle-result file"); }
    var out := seq(|order|, i requires 0 <= i < |order| => ManifestFor(order[i], GroupOf(grouped, order[i])));
    SeasonsCover(ds, out);
    r := Ok(out);
  }

  /** A manifest lists exactly the files of its season, by ascending general number. */
  ghost predicate Describes(ds: seq<Descriptor>, m: Manifest) {
    && m.digest == Sort(FilesOf(ds, m.serverId)) && Ascending(m.digest)
    && m.fileCount == |m.digest| && m.totalBytes == TotalBytes(m.digest)
    && (forall f :: f in m.digest <==> Descriptor(m.serverId, f) in ds)
  }

  lemma DescribesItsFiles(ds: seq<Descriptor>, serverId: string)
    requires Distinct(FilesOf(ds, serverId))
    ensures Describes(ds, ManifestFor(serverId, FilesOf(ds, serverId)))
  {
    SortSound(FilesOf(ds, serverId));
    forall f ensures f in FilesOf(ds, serverId) <==> Descriptor(serverId, f) in ds {
      FilesOfMember(ds, serverId, f);
    }
  }
}
