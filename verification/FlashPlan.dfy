/** web-flasher/src/guards.js (validateManifest, validateArtifact) and web-flasher/src/factory.js
    (createFactoryPlan): what a first install writes to the 16 MiB flash. */
module FlashPlan {
  import opened Wrappers
  import opened PartitionTable

  const TABLE_OFFSET := 0x8000
  const APP_OFFSET := 0x10000
  const CHUNK := 0x40000

  // ---------------------------------------------------------------- the manifest

  datatype Artifact = Artifact(offset: int, size: int, digest: string, path: string)

  /** `compatible` stands for the constant fields of the header, `mapped` for the partition map. */
  datatype Manifest = Manifest(compatible: bool, mapped: bool, artifacts: seq<Artifact>)

  predicate HexChar(c: char) { '0' <= c <= '9' || 'a' <= c <= 'f' }

  predicate NameChar(c: char) { '0' <= c <= '9' || 'a' <= c <= 'z' || c == '-' }

  predicate Named(a: Artifact) {
    && |a.digest| == 64 && (forall c | c in a.digest :: HexChar(c))
    && |a.path| > 4 && a.path[|a.path| - 4..] == ".bin" && forall c | c in a.path[..|a.path| - 4] :: NameChar(c)
  }

  function Allowed(): map<int, int> { map[0 := 0x8000, TABLE_OFFSET := 0x1000, APP_OFFSET := 0x300000] }

  predicate FitsOne(a: Artifact, allowed: map<int, int>) {
    a.offset in allowed && 0 < a.size <= allowed[a.offset] && Named(a)
  }

  /** The loop over the artifacts with the offsets still allowed. */
  predicate Fits(artifacts: seq<Artifact>, allowed: map<int, int>) {
    |artifacts| > 0 ==> FitsOne(artifacts[0], allowed) && Fits(artifacts[1..], allowed - {artifacts[0].offset})
  }

  predicate ValidManifest(m: Manifest) {
    m.compatible && |m.artifacts| == 3 && Fits(m.artifacts, Allowed())
  }

  /** The space of one component: bootloader, partition table or application. */
  function Zone(offset: int): int {
    if offset == 0 then 0x8000 else if offset == TABLE_OFFSET then 0x9000 else if offset == APP_OFFSET then 0x310000 else offset
  }

  predicate Component(a: Artifact) {
    && (a.offset == 0 || a.offset == TABLE_OFFSET || a.offset == APP_OFFSET)
    && 0 < a.size && a.offset + a.size <= Zone(a.offset) && Named(a)
  }

  /** Exactly the three components, each once, in any order and within its space. */
  lemma ManifestAcceptsIff(m: Manifest)
    ensures ValidManifest(m) <==>
              && m.compatible && |m.artifacts| == 3
              && (forall i | 0 <= i < 3 :: Component(m.artifacts[i]))
              && (forall i, j | 0 <= i < j < 3 :: m.artifacts[i].offset != m.artifacts[j].offset)
  {
    if |m.artifacts| == 3 {
      var a, b, c := m.artifacts[0], m.artifacts[1], m.artifacts[2];
      var second := Allowed() - {a.offset};
      var third := second - {b.offset};
      assert m.artifacts[1..][1..][1..] == [];
      assert Fits(m.artifacts, Allowed()) == (FitsOne(a, Allowed()) && Fits(m.artifacts[1..], second));
      assert Fits(m.artifacts[1..], second) == (FitsOne(b, second) && Fits(m.artifacts[1..][1..], third));
      assert Fits(m.artifacts[1..][1..], third) == FitsOne(c, third);
    }
  }

  method ValidateManifest(m: Manifest) returns (ok: bool)
    ensures ok == ValidManifest(m)
  {
    if !m.compatible || |m.artifacts| != 3 { return false; }
    var allowed := Allowed();
    for i := 0 to 3
      invariant Fits(m.artifacts, Allowed()) == Fits(m.artifacts[i..], allowed)
    {
      var a := m.artifacts[i];
      assert m.artifacts[i..][0] == a && m.artifacts[i..][1..] == m.artifacts[i + 1..];
      if !FitsOne(a, allowed) { return false; }
      allowed := allowed - {a.offset};
    }
    ok := true;
  }

  // ---------------------------------------------------------------- the plan

  datatype File = File(address: int, data: Bytes)

  /** The partition map that is approved, with the digest of its sector. */
  datatype Target = Target(entries: seq<Entry>, digest: string)

  /** The hash functions, given. */
  datatype Hashes = Hashes(sha256: Bytes -> string, md5: Digest)

  datatype Reason = NoSource | BadRelease | BadMap | Incomplete | Mismatch | BadArtifact | BadTable | Overlap
  datatype Plan = Planned(files: seq<File>) | Stopped(reason: Reason)
  datatype Image = Ready(file: File) | Refused(reason: Reason)

  function Matching(files: seq<File>, offset: int): seq<File> {
    if |files| == 0 then []
    else
      var rest := Matching(files[..|files| - 1], offset);
      if files[|files| - 1].address == offset then rest + [files[|files| - 1]] else rest
  }

  function Padded(data: Bytes): Bytes
    requires |data| <= SECTOR_BYTES
  {
    data + Fill(SECTOR_BYTES - |data|, 255)
  }

  /** The image written for an artifact: the verified download, the table padded to its sector. */
  function ImageFor(a: Artifact, files: seq<File>, target: Target, hashes: Hashes): Image {
    var matches := Matching(files, a.offset);
    if |matches| != 1 then Refused(Mismatch)
    else
      var data := matches[0].data;
      if |data| != a.size || hashes.sha256(data) != a.digest then Refused(BadArtifact)
      else if a.offset != TABLE_OFFSET then Ready(File(a.offset, data))
      else if |data| > SECTOR_BYTES || Parsed(Padded(data), hashes.md5) != Some(target.entries)
              || hashes.sha256(Padded(data)) != target.digest then Refused(BadTable)
      else Ready(File(a.offset, Padded(data)))
  }

  datatype Images = AllReady(files: seq<File>) | OneRefused(reason: Reason)

  function ImagesFor(artifacts: seq<Artifact>, files: seq<File>, target: Target, hashes: Hashes): Images {
    if |artifacts| == 0 then AllReady([])
    else
      match ImagesFor(artifacts[..|artifacts| - 1], files, target, hashes)
      case OneRefused(reason) => OneRefused(reason)
      case AllReady(done) =>
        match ImageFor(artifacts[|artifacts| - 1], files, target, hashes)
        case Refused(reason) => OneRefused(reason)
        case Ready(file) => AllReady(done + [file])
  }

  /** The chunks of one erased range from an offset on. */
  function Chunks(address: int, size: nat, offset: nat): seq<File>
    decreases size - offset
  {
    if offset >= size then []
    else [File(address + offset, Fill(if CHUNK < size - offset then CHUNK else size - offset, 255))] + Chunks(address, size, offset + CHUNK)
  }

  const SETTINGS_START := 0x9000
  const SETTINGS_SIZE := 0x7000
  const STORAGE_START := 0x310000
  const STORAGE_SIZE := 0xcf0000

  function Erasures(): seq<File> { Chunks(SETTINGS_START, SETTINGS_SIZE, 0) + Chunks(STORAGE_START, STORAGE_SIZE, 0) }

  function Inserted(f: File, files: seq<File>): seq<File> {
    if |files| == 0 || f.address < files[0].address then [f] + files else [files[0]] + Inserted(f, files[1..])
  }

  function Sorted(files: seq<File>): seq<File> {
    if |files| == 0 then [] else Inserted(files[|files| - 1], Sorted(files[..|files| - 1]))
  }

  /** The end of the sectors a file erases. */
  function EraseEnd(f: File): int { f.address + (|f.data| + SECTOR_BYTES - 1) / SECTOR_BYTES * SECTOR_BYTES }

  /** The check over the sorted files. */
  predicate Separate(files: seq<File>, previousEnd: int) {
    |files| > 0 ==>
      && files[0].address % SECTOR_BYTES == 0 && previousEnd <= files[0].address && EraseEnd(files[0]) <= FLASH_BYTES
      && Separate(files[1..], EraseEnd(files[0]))
  }

  function Created(approved: bool, m: Manifest, files: seq<File>, target: Target, hashes: Hashes): Plan {
    if !approved then Stopped(NoSource)
    else if !ValidManifest(m) then Stopped(BadRelease)
    else if !m.mapped then Stopped(BadMap)
    else if |files| != |m.artifacts| then Stopped(Incomplete)
    else
      match ImagesFor(m.artifacts, files, target, hashes)
      case OneRefused(reason) => Stopped(reason)
      case AllReady(images) =>
        var sorted := Sorted(images + Erasures());
        if Separate(sorted, 0) then Planned(sorted) else Stopped(Overlap)
  }

  // ---------------------------------------------------------------- which file covers which address

  predicate Covers(f: File, x: int) { f.address <= x < EraseEnd(f) }

  function Cover(files: seq<File>, x: int): nat {
    if |files| == 0 then 0 else Cover(files[..|files| - 1], x) + if Covers(files[|files| - 1], x) then 1 else 0
  }

  lemma {:induction false} CoverOfConcat(a: seq<File>, b: seq<File>, x: int)
    ensures Cover(a + b, x) == Cover(a, x) + Cover(b, x)
  {
    if |b| == 0 {
      assert a + b == a;
    } else {
      assert (a + b)[..|a + b| - 1] == a + b[..|b| - 1];
      CoverOfConcat(a, b[..|b| - 1], x);
    }
  }

  lemma CoverOfOne(f: File, x: int)
    ensures Cover([f], x) == if Covers(f, x) then 1 else 0
  {
    assert [f][..0] == [];
  }

  lemma CoverWithout(files: seq<File>, k: nat, x: int)
    requires k < |files|
    ensures Cover(files, x) == Cover(files[..k] + files[k + 1..], x) + if Covers(files[k], x) then 1 else 0
  {
    assert files == files[..k] + [files[k]] + files[k + 1..];
    CoverOfConcat(files[..k] + [files[k]], files[k + 1..], x);
    CoverOfConcat(files[..k], [files[k]], x);
    CoverOfConcat(files[..k], files[k + 1..], x);
    CoverOfOne(files[k], x);
  }

  lemma Find(a: seq<File>, b: seq<File>, f: File) returns (k: nat)
    requires multiset(a) == multiset(b) && f in a
    ensures k < |b| && b[k] == f
  {
    assert f in multiset(b);
    k :| 0 <= k < |b| && b[k] == f;
  }

  lemma WithoutOne(a: seq<File>, b: seq<File>, k: nat)
    requires multiset(a) == multiset(b) && |a| > 0 && k < |b| && b[k] == a[|a| - 1]
    ensures multiset(a[..|a| - 1]) == multiset(b[..k] + b[k + 1..])
  {
    assert a == a[..|a| - 1] + [a[|a| - 1]];
    assert b == b[..k] + [b[k]] + b[k + 1..];
    assert multiset(a) == multiset(a[..|a| - 1]) + multiset{b[k]};
    assert multiset(b) == multiset(b[..k]) + multiset{b[k]} + multiset(b[k + 1..]);
    assert multiset(b[..k] + b[k + 1..]) == multiset(b) - multiset{b[k]};
  }

  lemma {:induction false} CoverOfReordered(a: seq<File>, b: seq<File>, x: int)
    requires multiset(a) == multiset(b)
    ensures Cover(a, x) == Cover(b, x)
    decreases |a|
  {
    assert |a| == |multiset(a)| == |multiset(b)| == |b|;
    if |a| > 0 {
      var k := Find(a, b, a[|a| - 1]);
      WithoutOne(a, b, k);
      CoverOfReordered(a[..|a| - 1], b[..k] + b[k + 1..], x);
      CoverWithout(b, k, x);
    }
  }

  lemma CoverByTwo(files: seq<File>, i: nat, j: nat, x: int)
    requires i < j < |files| && Covers(files[i], x) && Covers(files[j], x)
    ensures Cover(files, x) >= 2
  {
    CoverWithout(files, j, x);
    var rest := files[..j] + files[j + 1..];
    assert rest[i] == files[i];
    CoverWithout(rest, i, x);
  }

  // ---------------------------------------------------------------- sorting

  predicate Ascending(files: seq<File>) {
    |files| > 1 ==> files[0].address <= files[1].address && Ascending(files[1..])
  }

  lemma {:induction false} InsertedSorts(f: File, files: seq<File>)
    requires Ascending(files)
    ensures Ascending(Inserted(f, files))
    ensures Inserted(f, files)[0] == f || (|files| > 0 && Inserted(f, files)[0] == files[0])
  {
    if |files| == 0 || f.address < files[0].address {
      assert ([f] + files)[1..] == files;
    } else {
      var rest := Inserted(f, files[1..]);
      InsertedSorts(f, files[1..]);
      assert ([files[0]] + rest)[1..] == rest;
    }
  }

  lemma {:induction false} InsertedAdds(f: File, files: seq<File>)
    ensures multiset(Inserted(f, files)) == multiset(files) + multiset{f}
  {
    if |files| > 0 && files[0].address <= f.address {
      InsertedAdds(f, files[1..]);
      assert files == [files[0]] + files[1..];
    }
  }

  lemma {:induction false} SortedAscends(files: seq<File>)
    ensures Ascending(Sorted(files))
  {
    if |files| > 0 {
      var init := files[..|files| - 1];
      SortedAscends(init);
      InsertedSorts(files[|files| - 1], Sorted(init));
    }
  }

  lemma {:induction false} SortedKeepsAll(files: seq<File>)
    ensures multiset(Sorted(files)) == multiset(files)
  {
    if |files| > 0 {
      var init, last := files[..|files| - 1], files[|files| - 1];
      SortedKeepsAll(init);
      InsertedAdds(last, Sorted(init));
      assert files == init + [last];
    }
  }

  /** The sort keeps every file and orders them by address. */
  lemma SortedSorts(files: seq<File>)
    ensures Ascending(Sorted(files)) && multiset(Sorted(files)) == multiset(files)
  {
    SortedAscends(files);
    SortedKeepsAll(files);
  }

  // ---------------------------------------------------------------- the parts of the plan

  predicate Sound(f: File) {
    f.address % SECTOR_BYTES == 0 && 0 <= f.address && EraseEnd(f) <= FLASH_BYTES && |f.data| > 0
  }

  predicate AllSound(files: seq<File>) { forall f | f in files :: Sound(f) }

  predicate InZone(f: File, a: Artifact) {
    f.address == a.offset && |f.data| > 0 && EraseEnd(f) <= Zone(a.offset)
  }

  lemma ImageInZone(a: Artifact, files: seq<File>, target: Target, hashes: Hashes)
    requires Component(a) && ImageFor(a, files, target, hashes).Ready?
    ensures InZone(ImageFor(a, files, target, hashes).file, a) && Sound(ImageFor(a, files, target, hashes).file)
  {
  }

  /** Each image is the one for the artifact in the same place. */
  lemma {:induction false} ImagesAreTheirs(artifacts: seq<Artifact>, files: seq<File>, target: Target, hashes: Hashes)
    requires ImagesFor(artifacts, files, target, hashes).AllReady?
    ensures var images := ImagesFor(artifacts, files, target, hashes).files;
            && |images| == |artifacts|
            && forall i | 0 <= i < |images| :: ImageFor(artifacts[i], files, target, hashes) == Ready(images[i])
  {
    if |artifacts| > 0 { ImagesAreTheirs(artifacts[..|artifacts| - 1], files, target, hashes); }
  }

  /** The components cover every address at most once, and none of the erased ranges. */
  lemma ImagesCover(artifacts: seq<Artifact>, images: seq<File>, x: int)
    requires |artifacts| == 3 && |images| == 3
    requires forall i | 0 <= i < 3 :: Component(artifacts[i]) && InZone(images[i], artifacts[i])
    requires forall i, j | 0 <= i < j < 3 :: artifacts[i].offset != artifacts[j].offset
    ensures Cover(images, x) <= 1
    ensures SETTINGS_START <= x < SETTINGS_START + SETTINGS_SIZE || STORAGE_START <= x ==> Cover(images, x) == 0
  {
    var a, b, c := images[0], images[1], images[2];
    assert images == [a] + [b] + [c];
    CoverOfConcat([a] + [b], [c], x);
    CoverOfConcat([a], [b], x);
    CoverOfOne(a, x);
    CoverOfOne(b, x);
    CoverOfOne(c, x);
  }

  predicate InRange(x: int, address: int, size: int) { address <= x < address + size }

  predicate Blank(f: File, address: int, size: nat) {
    && address <= f.address && EraseEnd(f) == f.address + |f.data| && EraseEnd(f) <= address + size
    && f.address % SECTOR_BYTES == 0 && |f.data| > 0 && Filled(f.data, 255)
  }

  /** The chunks of a range are blank sectors that cover it exactly once and nothing else. */
  lemma {:induction false} ChunksCover(address: int, size: nat, offset: nat, x: int)
    requires address % SECTOR_BYTES == 0 && size % SECTOR_BYTES == 0 && offset % SECTOR_BYTES == 0
    ensures Cover(Chunks(address, size, offset), x) == if address + offset <= x < address + size then 1 else 0
    ensures forall f | f in Chunks(address, size, offset) :: Blank(f, address, size)
    decreases size - offset
  {
    if offset < size {
      var f := Chunks(address, size, offset)[0];
      var rest := Chunks(address, size, offset + CHUNK);
      ChunksCover(address, size, offset + CHUNK, x);
      CoverOfConcat([f], rest, x);
      CoverOfOne(f, x);
      ChunkIsBlank(address, size, offset);
    }
  }

  lemma ChunkIsBlank(address: int, size: nat, offset: nat)
    requires address % SECTOR_BYTES == 0 && size % SECTOR_BYTES == 0 && offset % SECTOR_BYTES == 0 && offset < size
    ensures var f := Chunks(address, size, offset)[0];
            Blank(f, address, size) && f.address == address + offset
            && EraseEnd(f) == if CHUNK < size - offset then address + offset + CHUNK else address + size
  {
    var n := if CHUNK < size - offset then CHUNK else size - offset;
    assert n % SECTOR_BYTES == 0;
    assert (n + SECTOR_BYTES - 1) / SECTOR_BYTES * SECTOR_BYTES == n;
  }

  lemma ErasuresCover(x: int)
    ensures Cover(Erasures(), x) ==
              if InRange(x, SETTINGS_START, SETTINGS_SIZE) || InRange(x, STORAGE_START, STORAGE_SIZE) then 1 else 0
    ensures forall f | f in Erasures() :: Sound(f) && Filled(f.data, 255) && EraseEnd(f) == f.address + |f.data|
  {
    ChunksCover(SETTINGS_START, SETTINGS_SIZE, 0, x);
    ChunksCover(STORAGE_START, STORAGE_SIZE, 0, x);
    CoverOfConcat(Chunks(SETTINGS_START, SETTINGS_SIZE, 0), Chunks(STORAGE_START, STORAGE_SIZE, 0), x);
  }

  /** A release and downloads that pass every check before the range check. */
  ghost predicate Verified(m: Manifest, files: seq<File>, target: Target, hashes: Hashes, images: seq<File>) {
    ValidManifest(m) && ImagesFor(m.artifacts, files, target, hashes) == AllReady(images)
  }

  lemma VerifiedImages(m: Manifest, files: seq<File>, target: Target, hashes: Hashes, images: seq<File>)
    requires Verified(m, files, target, hashes, images)
    ensures |images| == 3 && |m.artifacts| == 3
    ensures forall i | 0 <= i < 3 :: Component(m.artifacts[i]) && InZone(images[i], m.artifacts[i]) && Sound(images[i])
    ensures forall i, j | 0 <= i < j < 3 :: m.artifacts[i].offset != m.artifacts[j].offset
  {
    ManifestAcceptsIff(m);
    ImagesAreTheirs(m.artifacts, files, target, hashes);
    forall i | 0 <= i < 3
      ensures InZone(images[i], m.artifacts[i]) && Sound(images[i])
    {
      ImageInZone(m.artifacts[i], files, target, hashes);
    }
  }

  /** Every address is written at most once, whatever the release. */
  lemma WholeCover(m: Manifest, files: seq<File>, target: Target, hashes: Hashes, images: seq<File>, x: int)
    requires Verified(m, files, target, hashes, images)
    ensures Cover(images + Erasures(), x) <= 1
    ensures AllSound(images + Erasures())
  {
    VerifiedImages(m, files, target, hashes, images);
    ImagesCover(m.artifacts, images, x);
    ErasuresCover(x);
    CoverOfConcat(images, Erasures(), x);
  }

  lemma {:induction false} SoundIsSeparate(files: seq<File>, previousEnd: int)
    requires Ascending(files) && AllSound(files)
    requires forall x :: Cover(files, x) <= 1
    requires |files| > 0 ==> previousEnd <= files[0].address
    ensures Separate(files, previousEnd)
  {
    if |files| > 0 {
      var f, rest := files[0], files[1..];
      assert files == [f] + rest;
      forall x
        ensures Cover(rest, x) <= 1
      {
        CoverOfConcat([f], rest, x);
        assert Cover(files, x) <= 1;
      }
      assert Sound(f);
      if |rest| > 0 && rest[0].address < EraseEnd(f) {
        assert Sound(files[1]);
        CoverByTwo(files, 0, 1, files[1].address);
        assert false;
      }
      SoundIsSeparate(rest, EraseEnd(f));
    }
  }

  /** The range check of the plan can never fail: a release that passes validateManifest and whose
      downloads verify always gets a plan. */
  lemma PlanNeverOverlaps(approved: bool, m: Manifest, files: seq<File>, target: Target, hashes: Hashes)
    ensures Created(approved, m, files, target, hashes) != Stopped(Overlap)
    ensures (approved && ValidManifest(m) && m.mapped && |files| == 3 && ImagesFor(m.artifacts, files, target, hashes).AllReady?)
              <==> Created(approved, m, files, target, hashes).Planned?
  {
    if approved && ValidManifest(m) && m.mapped && |files| == |m.artifacts| {
      ImageReasons(m.artifacts, files, target, hashes);
      if ImagesFor(m.artifacts, files, target, hashes).AllReady? {
        var images := ImagesFor(m.artifacts, files, target, hashes).files;
        PlanIsSeparate(m, files, target, hashes, images);
      }
    }
  }

  lemma {:induction false} ImageReasons(artifacts: seq<Artifact>, files: seq<File>, target: Target, hashes: Hashes)
    ensures ImagesFor(artifacts, files, target, hashes) != OneRefused(Overlap)
  {
    if |artifacts| > 0 { ImageReasons(artifacts[..|artifacts| - 1], files, target, hashes); }
  }

  lemma PlanIsSeparate(m: Manifest, files: seq<File>, target: Target, hashes: Hashes, images: seq<File>)
    requires Verified(m, files, target, hashes, images)
    ensures Separate(Sorted(images + Erasures()), 0)
  {
    var all := images + Erasures();
    var sorted := Sorted(all);
    SortedSorts(all);
    forall x
      ensures Cover(sorted, x) <= 1
    {
      WholeCover(m, files, target, hashes, images, x);
      CoverOfReordered(all, sorted, x);
    }
    WholeCover(m, files, target, hashes, images, 0);
    forall f | f in sorted ensures f in all { assert f in multiset(sorted); }
    if |sorted| > 0 { assert sorted[0] in sorted; }
    SoundIsSeparate(sorted, 0);
  }

  // ---------------------------------------------------------------- the flash after the plan

  type Flash = int -> Byte

  /** One write erases whole sectors to 0xFF and programs the data. */
  function ByteOf(f: File, x: int): Byte
    requires Covers(f, x)
  {
    if x < f.address + |f.data| then f.data[x - f.address] else 255
  }

  /** The byte at x after writing the files one after the other. */
  function After(initial: Flash, files: seq<File>, x: int): Byte {
    if |files| == 0 then initial(x)
    else
      var last := files[|files| - 1];
      if Covers(last, x) then ByteOf(last, x) else After(initial, files[..|files| - 1], x)
  }

  lemma {:induction false} CoveredIsCounted(files: seq<File>, f: File, x: int)
    requires f in files && Covers(f, x)
    ensures Cover(files, x) > 0
  {
    var k :| 0 <= k < |files| && files[k] == f;
    CoverWithout(files, k, x);
  }

  lemma {:induction false} AfterCovered(initial: Flash, files: seq<File>, f: File, x: int)
    requires Cover(files, x) <= 1 && f in files && Covers(f, x)
    ensures After(initial, files, x) == ByteOf(f, x)
  {
    var init, last := files[..|files| - 1], files[|files| - 1];
    assert files == init + [last];
    if f in init {
      CoveredIsCounted(init, f, x);
      AfterCovered(initial, init, f, x);
    }
  }

  lemma {:induction false} AfterUncovered(initial: Flash, files: seq<File>, x: int)
    requires Cover(files, x) == 0
    ensures After(initial, files, x) == initial(x)
  {
    if |files| > 0 { AfterUncovered(initial, files[..|files| - 1], x); }
  }

  /** The writes of a plan, done in any order. */
  ghost predicate OrderOf(plan: Plan, order: seq<File>) {
    plan.Planned? && multiset(order) == multiset(plan.files)
  }

  lemma PlanParts(m: Manifest, files: seq<File>, target: Target, hashes: Hashes, order: seq<File>, x: int) returns (images: seq<File>)
    requires OrderOf(Created(true, m, files, target, hashes), order)
    ensures Verified(m, files, target, hashes, images)
    ensures Cover(order, x) == Cover(images + Erasures(), x) <= 1
    ensures forall f :: f in order <==> f in images + Erasures()
  {
    images := ImagesFor(m.artifacts, files, target, hashes).files;
    var all := images + Erasures();
    SortedSorts(all);
    CoverOfReordered(all, order, x);
    WholeCover(m, files, target, hashes, images, x);
    assert forall f :: f in order <==> f in multiset(order);
    assert forall f :: f in all <==> f in multiset(all);
  }

  /** In whatever order the plan is written, every component ends up at its offset byte for byte, the
      table padded to its sector. */
  lemma ComponentsAreWritten(m: Manifest, files: seq<File>, target: Target, hashes: Hashes, order: seq<File>,
                             initial: Flash, i: nat, k: nat)
    requires OrderOf(Created(true, m, files, target, hashes), order)
    requires i < |m.artifacts| && ImageFor(m.artifacts[i], files, target, hashes).Ready?
    requires k < |ImageFor(m.artifacts[i], files, target, hashes).file.data|
    ensures After(initial, order, m.artifacts[i].offset + k) == ImageFor(m.artifacts[i], files, target, hashes).file.data[k]
  {
    var f := ImageFor(m.artifacts[i], files, target, hashes).file;
    var images := PlanParts(m, files, target, hashes, order, f.address + k);
    ImagesAreTheirs(m.artifacts, files, target, hashes);
    assert images[i] in images + Erasures();
    AfterCovered(initial, order, f, f.address + k);
  }

  predicate Erased(x: int) { InRange(x, SETTINGS_START, SETTINGS_SIZE) || InRange(x, STORAGE_START, STORAGE_SIZE) }

  /** The whole sectors that an artifact of this size takes. */
  predicate InSectors(x: int, a: Artifact) {
    InRange(x, a.offset, (a.size + SECTOR_BYTES - 1) / SECTOR_BYTES * SECTOR_BYTES)
  }

  lemma ImageCovers(a: Artifact, files: seq<File>, target: Target, hashes: Hashes, x: int)
    requires Component(a) && ImageFor(a, files, target, hashes).Ready?
    ensures Covers(ImageFor(a, files, target, hashes).file, x) <==> InSectors(x, a)
  {
    var f := ImageFor(a, files, target, hashes).file;
    if a.offset == TABLE_OFFSET {
      assert |f.data| == SECTOR_BYTES && 0 < a.size <= SECTOR_BYTES;
      assert (a.size + SECTOR_BYTES - 1) / SECTOR_BYTES == 1;
    }
  }

  lemma Untouched(m: Manifest, files: seq<File>, target: Target, hashes: Hashes, images: seq<File>, x: int)
    requires Verified(m, files, target, hashes, images)
    requires !Erased(x) && forall a | a in m.artifacts :: !InSectors(x, a)
    ensures Cover(images + Erasures(), x) == 0
  {
    VerifiedImages(m, files, target, hashes, images);
    ImagesAreTheirs(m.artifacts, files, target, hashes);
    forall f | f in images
      ensures !Covers(f, x)
    {
      var i :| 0 <= i < |images| && images[i] == f;
      ImageCovers(m.artifacts[i], files, target, hashes, x);
    }
    NoCover(images, x);
    ErasuresCover(x);
    CoverOfConcat(images, Erasures(), x);
  }

  /** In whatever order, every byte of both erased ranges reads 0xFF, and every address outside these
      ranges and outside the sectors of the artifacts keeps its byte. */
  lemma ErasedRangesAreBlank(m: Manifest, files: seq<File>, target: Target, hashes: Hashes, order: seq<File>,
                             initial: Flash, x: int)
    requires OrderOf(Created(true, m, files, target, hashes), order)
    ensures Erased(x) ==> After(initial, order, x) == 255
    ensures !Erased(x) && (forall a | a in m.artifacts :: !InSectors(x, a)) ==> After(initial, order, x) == initial(x)
  {
    var images := PlanParts(m, files, target, hashes, order, x);
    ErasuresCover(x);
    if Erased(x) {
      var f := Coverer(Erasures(), x);
      assert f in images + Erasures();
      AfterCovered(initial, order, f, x);
    }
    if !Erased(x) && forall a | a in m.artifacts :: !InSectors(x, a) {
      Untouched(m, files, target, hashes, images, x);
      AfterUncovered(initial, order, x);
    }
  }

  lemma {:induction false} Coverer(files: seq<File>, x: int) returns (f: File)
    requires Cover(files, x) > 0
    ensures f in files && Covers(f, x)
  {
    if Covers(files[|files| - 1], x) { f := files[|files| - 1]; } else { f := Coverer(files[..|files| - 1], x); }
  }

  lemma {:induction false} NoCover(files: seq<File>, x: int)
    requires forall f | f in files :: !Covers(f, x)
    ensures Cover(files, x) == 0
  {
    if |files| > 0 { NoCover(files[..|files| - 1], x); }
  }

  /** The writes of a plan are sector-aligned, inside the flash and pairwise disjoint once rounded to
      the sectors they erase. */
  lemma PlanIsDisjoint(m: Manifest, files: seq<File>, target: Target, hashes: Hashes, i: nat, j: nat)
    requires Created(true, m, files, target, hashes).Planned?
    requires i < j < |Created(true, m, files, target, hashes).files|
    ensures var plan := Created(true, m, files, target, hashes).files;
            Sound(plan[i]) && Sound(plan[j]) && (EraseEnd(plan[i]) <= plan[j].address || EraseEnd(plan[j]) <= plan[i].address)
  {
    var plan := Created(true, m, files, target, hashes).files;
    var f, g := plan[i], plan[j];
    var images := PlanParts(m, files, target, hashes, plan, f.address);
    var same := PlanParts(m, files, target, hashes, plan, g.address);
    WholeCover(m, files, target, hashes, images, 0);
    assert f in plan && g in plan;
    if f.address <= g.address < EraseEnd(f) { CoverByTwo(plan, i, j, g.address); }
    if g.address <= f.address < EraseEnd(g) { CoverByTwo(plan, i, j, f.address); }
  }

  // ---------------------------------------------------------------- the loops

  lemma {:induction false} RefusalStays(artifacts: seq<Artifact>, k: nat, files: seq<File>, target: Target, hashes: Hashes)
    requires k <= |artifacts| && ImagesFor(artifacts[..k], files, target, hashes).OneRefused?
    ensures ImagesFor(artifacts, files, target, hashes) == ImagesFor(artifacts[..k], files, target, hashes)
  {
    if k == |artifacts| {
      assert artifacts[..k] == artifacts;
    } else {
      assert artifacts[..|artifacts| - 1][..k] == artifacts[..k];
      RefusalStays(artifacts[..|artifacts| - 1], k, files, target, hashes);
    }
  }

  method AddErasures(address: int, size: nat, files: seq<File>) returns (all: seq<File>)
    ensures all == files + Chunks(address, size, 0)
  {
    all := files;
    var offset: nat := 0;
    while offset < size
      invariant all + Chunks(address, size, offset) == files + Chunks(address, size, 0)
    {
      var chunk := File(address + offset, Fill(if CHUNK < size - offset then CHUNK else size - offset, 255));
      assert all + Chunks(address, size, offset) == all + [chunk] + Chunks(address, size, offset + CHUNK);
      all := all + [chunk];
      offset := offset + CHUNK;
    }
  }

  method CreateFactoryPlan(approved: bool, m: Manifest, files: seq<File>, target: Target, hashes: Hashes) returns (plan: Plan)
    ensures plan == Created(approved, m, files, target, hashes)
  {
    if !approved { return Stopped(NoSource); }
    var valid := ValidateManifest(m);
    if !valid { return Stopped(BadRelease); }
    if !m.mapped { return Stopped(BadMap); }
    if |files| != |m.artifacts| { return Stopped(Incomplete); }
    var fileArray: seq<File> := [];
    for i := 0 to |m.artifacts|
      invariant ImagesFor(m.artifacts[..i], files, target, hashes) == AllReady(fileArray)
    {
      assert m.artifacts[..i + 1][..i] == m.artifacts[..i];
      var image := ImageFor(m.artifacts[i], files, target, hashes);
      if image.Refused? {
        RefusalStays(m.artifacts, i + 1, files, target, hashes);
        return Stopped(image.reason);
      }
      fileArray := fileArray + [image.file];
    }
    assert m.artifacts[..|m.artifacts|] == m.artifacts;
    ghost var images := fileArray;
    fileArray := AddErasures(SETTINGS_START, SETTINGS_SIZE, fileArray);
    fileArray := AddErasures(STORAGE_START, STORAGE_SIZE, fileArray);
    assert fileArray == images + Erasures();
    fileArray := Sorted(fileArray);
    var apart := CheckRanges(fileArray);
    return if apart then Planned(fileArray) else Stopped(Overlap);
  }

  method CheckRanges(files: seq<File>) returns (apart: bool)
    ensures apart == Separate(files, 0)
  {
    var previousEnd := 0;
    for i := 0 to |files|
      invariant Separate(files, 0) == Separate(files[i..], previousEnd)
    {
      assert files[i..][0] == files[i] && files[i..][1..] == files[i + 1..];
      var eraseEnd := EraseEnd(files[i]);
      if files[i].address % SECTOR_BYTES != 0 || files[i].address < previousEnd || eraseEnd > FLASH_BYTES { return false; }
      previousEnd := eraseEnd;
    }
    apart := true;
  }
}
