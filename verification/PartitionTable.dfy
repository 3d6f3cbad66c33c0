/** web-flasher/src/factory.js, parsePartitionSector: the partition table as one 4096-byte sector of
    32-byte records, a checksum record and padding. */
module PartitionTable {
  import opened Wrappers

  const SECTOR_BYTES := 0x1000
  const FLASH_BYTES := 0x1000000
  const FIRST_OFFSET := 0x9000
  const RECORD := 32

  type Byte = x: int | 0 <= x < 256
  type Bytes = seq<Byte>

  /** The MD5 of the records before the checksum; any function to 16 bytes will do. */
  type Digest = Bytes -> Bytes

  datatype Entry = Entry(name: Bytes, kind: Byte, subtype: Byte, offset: nat, size: nat, flags: nat)

  // ---------------------------------------------------------------- records

  const WORD := 0x1_0000_0000

  function GetWord(b: Bytes): (n: nat)
    requires |b| == 4
    ensures n < WORD
  {
    b[0] as int + 0x100 * (b[1] as int) + 0x1_0000 * (b[2] as int) + 0x100_0000 * (b[3] as int)
  }

  function PutWord(n: nat): (b: Bytes)
    requires n < WORD
    ensures |b| == 4
  {
    [n % 0x100, n / 0x100 % 0x100, n / 0x1_0000 % 0x100, n / 0x100_0000]
  }

  lemma WordRoundTrip(n: nat)
    requires n < WORD
    ensures GetWord(PutWord(n)) == n
  {
    assert n == n % 0x100 + 0x100 * (n / 0x100);
    assert n / 0x100 == n / 0x100 % 0x100 + 0x100 * (n / 0x1_0000) by { assert n / 0x100 / 0x100 == n / 0x1_0000; }
    assert n / 0x1_0000 == n / 0x1_0000 % 0x100 + 0x100 * (n / 0x100_0000) by { assert n / 0x1_0000 / 0x100 == n / 0x100_0000; }
  }

  lemma BytesRoundTrip(b: Bytes)
    requires |b| == 4
    ensures PutWord(GetWord(b)) == b
  {
    var n := GetWord(b);
    var b0: int, b1: int, b2: int, b3: int := b[0], b[1], b[2], b[3];
    assert n / 0x100 == b1 + 0x100 * b2 + 0x1_0000 * b3;
    assert n / 0x1_0000 == b2 + 0x100 * b3;
    assert n / 0x100_0000 == b3;
  }

  function Fill(n: nat, value: Byte): (b: Bytes)
    ensures |b| == n && forall i | 0 <= i < n :: b[i] == value
  {
    seq(n, _ => value)
  }

  predicate Filled(b: Bytes, value: Byte) { forall i | 0 <= i < |b| :: b[i] == value }

  predicate Printable(b: Byte) { 32 <= b <= 126 }

  predicate Label(name: Bytes) { 0 < |name| <= 16 && forall i | 0 <= i < |name| :: Printable(name[i]) }

  /** The length of the label: up to the first NUL. */
  function LabelEnd(raw: Bytes, i: nat): (e: nat)
    requires i <= |raw|
    ensures i <= e <= |raw| && (e < |raw| ==> raw[e] == 0) && forall k | i <= k < e :: raw[k] != 0
    decreases |raw| - i
  {
    if i == |raw| || raw[i] == 0 then i else LabelEnd(raw, i + 1)
  }

  function ParseLabel(raw: Bytes): Option<Bytes>
    requires |raw| == 16
  {
    var end := LabelEnd(raw, 0);
    if Label(raw[..end]) && Filled(raw[end..], 0) then Some(raw[..end]) else None
  }

  function PrintLabel(name: Bytes): (b: Bytes)
    requires Label(name)
    ensures |b| == 16
  {
    name + Fill(16 - |name|, 0)
  }

  predicate Bounded(offset: nat, size: nat, previousEnd: nat) {
    && 0 < size && offset % SECTOR_BYTES == 0 && size % SECTOR_BYTES == 0
    && previousEnd <= offset && offset + size <= FLASH_BYTES
  }

  /** One entry record, given where the entry before it ends. */
  function ParseRecord(r: Bytes, previousEnd: nat): Option<Entry> {
    if |r| != RECORD || r[0] != 0xaa || r[1] != 0x50 then None
    else
      var name := ParseLabel(r[12..28]);
      var offset, size := GetWord(r[4..8]), GetWord(r[8..12]);
      if name.None? || !Bounded(offset, size, previousEnd) then None
      else Some(Entry(name.value, r[2], r[3], offset, size, GetWord(r[28..32])))
  }

  /** A reader of entry records. */
  type Reader = (Bytes, nat) -> Option<Entry>

  const READER: Reader := (r: Bytes, previousEnd: nat) => ParseRecord(r, previousEnd)

  predicate EntryOk(e: Entry) {
    Label(e.name) && e.offset < WORD && e.size < WORD && e.flags < WORD
  }

  function PrintRecord(e: Entry): (r: Bytes)
    requires EntryOk(e)
    ensures |r| == RECORD
  {
    [0xaa, 0x50, e.kind, e.subtype] + PutWord(e.offset) + PutWord(e.size) + PrintLabel(e.name) + PutWord(e.flags)
  }

  lemma LabelRoundTrip(name: Bytes)
    requires Label(name)
    ensures ParseLabel(PrintLabel(name)) == Some(name)
  {
    var raw := PrintLabel(name);
    var end := LabelEnd(raw, 0);
    assert forall i | 0 <= i < |name| :: raw[i] == name[i] && Printable(name[i]);
    assert forall i | |name| <= i < 16 :: raw[i] == 0;
    if |name| < 16 { assert raw[|name|] == 0; }
    assert end == |name|;
    assert raw[..|name|] == name;
  }

  lemma RawLabelRoundTrip(raw: Bytes)
    requires |raw| == 16 && ParseLabel(raw).Some?
    ensures PrintLabel(ParseLabel(raw).value) == raw
  {
    var end := LabelEnd(raw, 0);
    assert raw == raw[..end] + raw[end..];
    assert raw[end..] == Fill(16 - end, 0);
  }

  lemma RecordParts(e: Entry)
    requires EntryOk(e)
    ensures var r := PrintRecord(e);
            && r[0] == 0xaa && r[1] == 0x50 && r[2] == e.kind && r[3] == e.subtype
            && r[4..8] == PutWord(e.offset) && r[8..12] == PutWord(e.size)
            && r[12..28] == PrintLabel(e.name) && r[28..32] == PutWord(e.flags)
  {
  }

  lemma RecordRoundTrip(e: Entry, previousEnd: nat)
    requires EntryOk(e) && Bounded(e.offset, e.size, previousEnd)
    ensures ParseRecord(PrintRecord(e), previousEnd) == Some(e)
  {
    RecordParts(e);
    LabelRoundTrip(e.name);
    WordRoundTrip(e.offset);
    WordRoundTrip(e.size);
    WordRoundTrip(e.flags);
  }

  lemma RawRecordRoundTrip(r: Bytes, previousEnd: nat)
    requires ParseRecord(r, previousEnd).Some?
    ensures var e := ParseRecord(r, previousEnd).value;
            EntryOk(e) && Bounded(e.offset, e.size, previousEnd) && PrintRecord(e) == r
  {
    var e := ParseRecord(r, previousEnd).value;
    RawLabelRoundTrip(r[12..28]);
    BytesRoundTrip(r[4..8]);
    BytesRoundTrip(r[8..12]);
    BytesRoundTrip(r[28..32]);
    RecordParts(e);
    assert r == r[..4] + r[4..8] + r[8..12] + r[12..28] + r[28..32];
    assert r[..4] == [r[0], r[1], r[2], r[3]];
  }

  // ---------------------------------------------------------------- the sector

  predicate ChecksumAt(bytes: Bytes, at: nat)
    requires at + 2 <= |bytes|
  {
    bytes[at] == 0xeb && bytes[at + 1] == 0xeb
  }

  /** The rest of the sector from the checksum record on. */
  function Ending(before: Bytes, digest: Digest): Bytes {
    [0xeb, 0xeb] + Fill(14, 0xff) + digest(before)
  }

  predicate ChecksumOk(bytes: Bytes, at: nat, digest: Digest)
    requires at + RECORD <= |bytes|
  {
    && Filled(bytes[at + 2..at + 16], 0xff)
    && bytes[at + 16..at + 32] == digest(bytes[..at])
    && Filled(bytes[at + 32..], 0xff)
  }

  ghost predicate Digests(digest: Digest) { forall b: Bytes :: |digest(b)| == 16 }

  /** The loop over the records, `entries` being those before position `at`. */
  function ParseFrom(bytes: Bytes, at: nat, entries: seq<Entry>, previousEnd: nat, digest: Digest, read: Reader): Option<seq<Entry>>
    requires at <= |bytes| && at % RECORD == 0 && |bytes| % RECORD == 0
    decreases |bytes| - at
  {
    if at == |bytes| then None
    else if ChecksumAt(bytes, at) then if ChecksumOk(bytes, at, digest) && entries != [] then Some(entries) else None
    else
      var entry := read(bytes[at..at + RECORD], previousEnd);
      if entry.None? then None
      else ParseFrom(bytes, at + RECORD, entries + [entry.value], entry.value.offset + entry.value.size, digest, read)
  }

  function Parsed(bytes: Bytes, digest: Digest): Option<seq<Entry>> {
    if |bytes| != SECTOR_BYTES then None else ParseFrom(bytes, 0, [], FIRST_OFFSET, digest, READER)
  }

  function Records(entries: seq<Entry>): (b: Bytes)
    requires forall e | e in entries :: EntryOk(e)
    ensures |b| == RECORD * |entries|
  {
    if |entries| == 0 then [] else Records(entries[..|entries| - 1]) + PrintRecord(entries[|entries| - 1])
  }

  function EndOf(entries: seq<Entry>): nat {
    if |entries| == 0 then FIRST_OFFSET else entries[|entries| - 1].offset + entries[|entries| - 1].size
  }

  /** Entries in order: each aligned, nonempty, inside the flash, and after the one before it. */
  predicate Ordered(entries: seq<Entry>) {
    forall i | 0 <= i < |entries| :: EntryOk(entries[i]) && Bounded(entries[i].offset, entries[i].size, EndOf(entries[..i]))
  }

  predicate Table(entries: seq<Entry>) { 0 < |entries| < 128 && Ordered(entries) }

  function Printed(entries: seq<Entry>, digest: Digest): (b: Bytes)
    requires Table(entries)
  {
    var records := Records(entries);
    records + Ending(records, digest) + Fill(SECTOR_BYTES - |records| - RECORD, 0xff)
  }

  lemma OrderedNext(entries: seq<Entry>, e: Entry)
    requires Ordered(entries) && EntryOk(e) && Bounded(e.offset, e.size, EndOf(entries))
    ensures Ordered(entries + [e])
  {
    var all := entries + [e];
    forall i | 0 <= i < |all|
      ensures EntryOk(all[i]) && Bounded(all[i].offset, all[i].size, EndOf(all[..i]))
    {
      if i < |entries| { assert all[..i] == entries[..i]; } else { assert all[..i] == entries; }
    }
  }

  /** What was parsed so far, printed again, is the sector so far. */
  ghost predicate SoFar(bytes: Bytes, at: nat, entries: seq<Entry>, previousEnd: nat) {
    && at <= |bytes| && at == RECORD * |entries|
    && Ordered(entries) && previousEnd == EndOf(entries)
    && bytes[..at] == Records(entries)
  }

  /** A reader that accepts only what printing its entry would have written, in its place. */
  ghost predicate Faithful(read: Reader) {
    forall r, end {:trigger read(r, end)} :: read(r, end).Some? ==> Reads(r, end, read(r, end).value)
  }

  ghost predicate Reads(r: Bytes, end: nat, e: Entry) {
    EntryOk(e) && Bounded(e.offset, e.size, end) && PrintRecord(e) == r
  }

  lemma ReaderIsFaithful()
    ensures Faithful(READER)
  {
    forall r, end | READER(r, end).Some?
      ensures Reads(r, end, READER(r, end).value)
    {
      RawRecordRoundTrip(r, end);
    }
  }

  lemma OneMoreRecord(bytes: Bytes, at: nat, entries: seq<Entry>, previousEnd: nat, e: Entry)
    requires SoFar(bytes, at, entries, previousEnd) && at + RECORD <= |bytes|
    requires Reads(bytes[at..at + RECORD], previousEnd, e)
    ensures SoFar(bytes, at + RECORD, entries + [e], e.offset + e.size)
  {
    OrderedNext(entries, e);
    var all := entries + [e];
    assert all[..|all| - 1] == entries;
    assert bytes[..at + RECORD] == bytes[..at] + bytes[at..at + RECORD];
  }

  lemma ChecksumIsEnding(bytes: Bytes, at: nat, digest: Digest)
    requires at + RECORD <= |bytes| && ChecksumAt(bytes, at) && ChecksumOk(bytes, at, digest)
    ensures bytes == bytes[..at] + Ending(bytes[..at], digest) + Fill(|bytes| - at - RECORD, 0xff)
  {
    assert bytes == bytes[..at] + bytes[at..at + 2] + bytes[at + 2..at + 16] + bytes[at + 16..at + 32] + bytes[at + 32..];
    assert bytes[at..at + 2] == [0xeb, 0xeb];
    assert bytes[at + 2..at + 16] == Fill(14, 0xff);
    assert bytes[at + 32..] == Fill(|bytes| - at - RECORD, 0xff);
  }

  lemma AtChecksum(bytes: Bytes, at: nat, entries: seq<Entry>, previousEnd: nat, digest: Digest)
    requires |bytes| == SECTOR_BYTES && SoFar(bytes, at, entries, previousEnd) && at + RECORD <= |bytes| && entries != []
    requires ChecksumAt(bytes, at) && ChecksumOk(bytes, at, digest)
    ensures Table(entries) && Printed(entries, digest) == bytes
  {
    ChecksumIsEnding(bytes, at, digest);
  }

  /** What the parser has read so far, as any invariant its steps keep. */
  type Progress = (nat, seq<Entry>, nat) -> bool

  ghost predicate KeptAt(good: Progress, bytes: Bytes, read: Reader, at: nat, entries: seq<Entry>, end: nat) {
    at + RECORD <= |bytes| && good(at, entries, end) && read(bytes[at..at + RECORD], end).Some? ==>
      var e := read(bytes[at..at + RECORD], end).value;
      good(at + RECORD, entries + [e], e.offset + e.size)
  }

  ghost predicate Kept(good: Progress, bytes: Bytes, read: Reader) {
    forall at: nat, entries: seq<Entry>, end: nat :: KeptAt(good, bytes, read, at, entries, end)
  }

  /** Induction over the loop: the parser stops at a checksum, with its invariant. */
  lemma {:induction false} ParseStops(
      bytes: Bytes, at: nat, entries: seq<Entry>, previousEnd: nat, digest: Digest, read: Reader, good: Progress)
      returns (stop: nat, all: seq<Entry>, end: nat)
    requires |bytes| == SECTOR_BYTES && at <= |bytes| && at % RECORD == 0
    requires good(at, entries, previousEnd) && Kept(good, bytes, read)
    requires ParseFrom(bytes, at, entries, previousEnd, digest, read).Some?
    ensures ParseFrom(bytes, at, entries, previousEnd, digest, read) == Some(all)
    ensures good(stop, all, end) && all != [] && stop + RECORD <= |bytes|
    ensures ChecksumAt(bytes, stop) && ChecksumOk(bytes, stop, digest)
    decreases |bytes| - at
  {
    if ChecksumAt(bytes, at) {
      stop, all, end := at, entries, previousEnd;
    } else {
      var e := read(bytes[at..at + RECORD], previousEnd).value;
      assert KeptAt(good, bytes, read, at, entries, previousEnd);
      stop, all, end := ParseStops(bytes, at + RECORD, entries + [e], e.offset + e.size, digest, read, good);
    }
  }

  ghost function SoFarOf(bytes: Bytes): Progress {
    (at: nat, entries: seq<Entry>, end: nat) => SoFar(bytes, at, entries, end)
  }

  lemma SoFarIsKeptAt(bytes: Bytes, read: Reader, at: nat, entries: seq<Entry>, end: nat)
    requires Faithful(read)
    ensures KeptAt(SoFarOf(bytes), bytes, read, at, entries, end)
  {
    if at + RECORD <= |bytes| && SoFar(bytes, at, entries, end) && read(bytes[at..at + RECORD], end).Some? {
      OneMoreRecord(bytes, at, entries, end, read(bytes[at..at + RECORD], end).value);
    }
  }

  /** The parser accepts only ordered, aligned, disjoint tables, and printing what it returns gives
      back the sector byte for byte. */
  lemma ParsedIsPrinted(bytes: Bytes, digest: Digest)
    requires Parsed(bytes, digest).Some?
    ensures Table(Parsed(bytes, digest).value) && Printed(Parsed(bytes, digest).value, digest) == bytes
  {
    ReaderIsFaithful();
    forall at: nat, entries: seq<Entry>, end: nat { SoFarIsKeptAt(bytes, READER, at, entries, end); }
    var stop, all, end := ParseStops(bytes, 0, [], FIRST_OFFSET, digest, READER, SoFarOf(bytes));
    AtChecksum(bytes, stop, all, end, digest);
  }

  /** Every table prints to a sector that parses back to it. */
  lemma PrintedIsParsed(entries: seq<Entry>, digest: Digest)
    requires Table(entries) && Digests(digest)
    ensures |Printed(entries, digest)| == SECTOR_BYTES
    ensures Parsed(Printed(entries, digest), digest) == Some(entries)
  {
    PrintedSize(entries, digest);
    assert entries[..0] == [];
    ReaderIsComplete();
    var bytes := Printed(entries, digest);
    forall k: nat | k <= |entries| ensures Holds(bytes, entries, k, digest, READER) {
      PrintedHolds(entries, k, digest, bytes, READER);
    }
    ReadFrom(entries, 0, digest, bytes, READER);
  }

  lemma PrintedSize(entries: seq<Entry>, digest: Digest)
    requires Table(entries) && Digests(digest)
    ensures |Printed(entries, digest)| == SECTOR_BYTES
  {
    assert |digest(Records(entries))| == 16;
  }

  /** A reader that reads back every record printed in its place. */
  ghost predicate Complete(read: Reader) {
    forall r, end, e {:trigger read(r, end), PrintRecord(e)} :: Reads(r, end, e) ==> read(r, end) == Some(e)
  }

  lemma ReaderIsComplete()
    ensures Complete(READER)
  {
    forall r, end, e | Reads(r, end, e)
      ensures READER(r, end) == Some(e)
    {
      RecordRoundTrip(e, end);
    }
  }

  lemma PrintedRecord(entries: seq<Entry>, k: nat, digest: Digest)
    requires Table(entries) && k < |entries| && |Printed(entries, digest)| == SECTOR_BYTES
    ensures var bytes := Printed(entries, digest);
            !ChecksumAt(bytes, RECORD * k) && Reads(bytes[RECORD * k..RECORD * k + RECORD], EndOf(entries[..k]), entries[k])
  {
    var bytes := Printed(entries, digest);
    RecordAt(entries, k);
    assert bytes[RECORD * k..RECORD * k + RECORD] == Records(entries)[RECORD * k..RECORD * k + RECORD];
    RecordParts(entries[k]);
    assert bytes[RECORD * k] == bytes[RECORD * k..RECORD * k + RECORD][0];
  }

  /** The sector at the k-th record: an entry to read, or the checksum after the last one. */
  ghost predicate Holds(bytes: Bytes, entries: seq<Entry>, k: nat, digest: Digest, read: Reader)
    requires k <= |entries| && RECORD * k + RECORD <= |bytes|
  {
    if k == |entries| then ChecksumAt(bytes, RECORD * k) && ChecksumOk(bytes, RECORD * k, digest)
    else
      && !ChecksumAt(bytes, RECORD * k)
      && read(bytes[RECORD * k..RECORD * k + RECORD], EndOf(entries[..k])) == Some(entries[k])
  }

  lemma PrintedHolds(entries: seq<Entry>, k: nat, digest: Digest, bytes: Bytes, read: Reader)
    requires Table(entries) && Digests(digest) && k <= |entries| && Complete(read)
    requires bytes == Printed(entries, digest) && |bytes| == SECTOR_BYTES
    ensures Holds(bytes, entries, k, digest, read)
  {
    if k == |entries| {
      EndingIsChecksum(entries, digest);
    } else {
      PrintedRecord(entries, k, digest);
      var r := PrintRecord(entries[k]);
      assert read(bytes[RECORD * k..RECORD * k + RECORD], EndOf(entries[..k])) == Some(entries[k]);
    }
  }

  lemma {:induction false} ReadFrom(entries: seq<Entry>, k: nat, digest: Digest, bytes: Bytes, read: Reader)
    requires 0 < |entries| < 128 && k <= |entries| && |bytes| == SECTOR_BYTES
    requires forall i | k <= i <= |entries| :: Holds(bytes, entries, i, digest, read)
    ensures ParseFrom(bytes, RECORD * k, entries[..k], EndOf(entries[..k]), digest, read) == Some(entries)
    decreases |entries| - k
  {
    assert Holds(bytes, entries, k, digest, read);
    if k == |entries| {
      assert entries[..k] == entries;
    } else {
      assert entries[..k] + [entries[k]] == entries[..k + 1];
      assert EndOf(entries[..k + 1]) == entries[k].offset + entries[k].size;
      ReadFrom(entries, k + 1, digest, bytes, read);
    }
  }

  lemma {:induction false} RecordAt(entries: seq<Entry>, k: nat)
    requires k < |entries| && forall e | e in entries :: EntryOk(e)
    ensures Records(entries)[RECORD * k..RECORD * k + RECORD] == PrintRecord(entries[k])
    decreases |entries|
  {
    var init := entries[..|entries| - 1];
    if k < |init| {
      RecordAt(init, k);
      assert Records(entries)[RECORD * k..RECORD * k + RECORD] == Records(init)[RECORD * k..RECORD * k + RECORD];
    }
  }

  lemma EndingIsChecksum(entries: seq<Entry>, digest: Digest)
    requires Table(entries) && Digests(digest)
    ensures var bytes := Printed(entries, digest);
            var at := RECORD * |entries|;
            at + RECORD <= |bytes| && ChecksumAt(bytes, at) && ChecksumOk(bytes, at, digest)
  {
    var bytes, at, records := Printed(entries, digest), RECORD * |entries|, Records(entries);
    PrintedSize(entries, digest);
    assert bytes[..at] == records;
    assert bytes[at + 16..at + 32] == digest(records);
  }

  /** Accepted entries never overlap: each ends before any later one starts, from 0x9000 up and within
      16 MiB. */
  lemma {:induction false} OrderedIsDisjoint(entries: seq<Entry>, i: nat, j: nat)
    requires Ordered(entries) && i < j < |entries|
    ensures FIRST_OFFSET <= entries[i].offset && entries[i].offset + entries[i].size <= entries[j].offset
    ensures entries[j].offset + entries[j].size <= FLASH_BYTES
    decreases j - i
  {
    assert entries[..j][..i] == entries[..i];
    StartsAfterFirst(entries, i);
    assert entries[..j][j - 1] == entries[j - 1];
    assert Bounded(entries[j].offset, entries[j].size, EndOf(entries[..j]));
    if i + 1 < j { OrderedIsDisjoint(entries, i, j - 1); }
  }

  lemma {:induction false} StartsAfterFirst(entries: seq<Entry>, i: nat)
    requires Ordered(entries) && i < |entries|
    ensures FIRST_OFFSET <= entries[i].offset
  {
    assert Bounded(entries[i].offset, entries[i].size, EndOf(entries[..i]));
    if i > 0 {
      StartsAfterFirst(entries, i - 1);
      assert entries[..i][i - 1] == entries[i - 1];
    }
  }

  // ---------------------------------------------------------------- the loop

  method ParsePartitionSector(bytes: Bytes, digest: Digest) returns (table: Option<seq<Entry>>)
    ensures table == Parsed(bytes, digest)
  {
    if |bytes| != SECTOR_BYTES { return None; }
    var entries: seq<Entry> := [];
    var previousEnd: nat, offset: nat := FIRST_OFFSET, 0;
    while offset < |bytes|
      invariant offset <= |bytes| && offset % RECORD == 0
      invariant Parsed(bytes, digest) == ParseFrom(bytes, offset, entries, previousEnd, digest, READER)
    {
      if ChecksumAt(bytes, offset) {
        return if ChecksumOk(bytes, offset, digest) && entries != [] then Some(entries) else None;
      }
      var entry := ParseRecord(bytes[offset..offset + RECORD], previousEnd);
      if entry.None? { return None; }
      previousEnd := entry.value.offset + entry.value.size;
      entries := entries + [entry.value];
      offset := offset + RECORD;
    }
    table := None;
  }
}
