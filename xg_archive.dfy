/**
  * The archive layer of the .xg reader. An eXtreme Gammon file is a
  * 8232-byte GDF header that starts with the magic "HMGR" stored backwards,
  * the archived files, a registry of 532-byte file entries and a 36-byte
  * trailer. `parse` reads the trailer, finds the registry (inflating it when
  * it is compressed), looks up the file named temp.xg, extracts it and hands
  * it to the record scan.
  */
module XgArchive {
  import opened Common
  import opened Base64
  import opened XgRecords

  const GdfHeaderSize: nat := 8232
  const FileIndexEntrySize: nat := 532
  const ArchiveRecordSize: nat := 36
  /** "DMLI" read as a little-endian 32-bit number at offset 556 of temp.xg. */
  const GameMagic: nat := 0x494C4D44
  const GameMagicOffset: nat := 556

  // ── Buffers and views ──────────────────────────────────────────────

  /**
    * A `Uint8Array` over part of a buffer. Its elements are the `len` bytes
    * from `start`; a `DataView` built from its `buffer` and `byteOffset`
    * reaches on to the end of the buffer.
    */
  datatype View = View(buffer: seq<byte>, start: nat, len: nat)

  predicate ViewOk(v: View) {
    v.start + v.len <= |v.buffer|
  }

  function Elements(v: View): seq<byte>
    requires ViewOk(v)
  {
    v.buffer[v.start..v.start + v.len]
  }

  /** `new Uint8Array(buffer, offset, length)`: a RangeError unless the window lies inside the buffer. */
  function SubView(buffer: seq<byte>, offset: int, length: int): (r: Result<View>)
    ensures r.Ok? <==> 0 <= offset && 0 <= length && offset + length <= |buffer|
    ensures r.Ok? ==> (ViewOk(r.value) && r.value.buffer == buffer && r.value.start == offset
                       && Elements(r.value) == buffer[offset..offset + length])
    ensures r.Err? ==> r.error == RangeError
  {
    if 0 <= offset && 0 <= length && offset + length <= |buffer| then Ok(View(buffer, offset, length))
    else Err(RangeError)
  }

  /** An inflated array is a fresh buffer of its own. */
  function OwnBuffer(bytes: seq<byte>): (v: View)
    ensures ViewOk(v) && Elements(v) == bytes
  {
    View(bytes, 0, |bytes|)
  }

  // ── Decompression ──────────────────────────────────────────────────

  /**
    * pako's two entry points, each None where it throws: `inflate` expects a
    * zlib header, `inflateRaw` a bare deflate stream.
    */
  datatype Pako = Pako(inflate: seq<byte> -> Option<seq<byte>>, inflateRaw: seq<byte> -> Option<seq<byte>>)

  /** `decompress`: the zlib format first, raw deflate only when that throws. */
  function Decompress(data: seq<byte>, pako: Pako): (r: Result<seq<byte>>)
    ensures r.Ok? <==> pako.inflate(data).Some? || pako.inflateRaw(data).Some?
    ensures pako.inflate(data).Some? ==> r == Ok(pako.inflate(data).value)
    ensures pako.inflate(data).None? && r.Ok? ==> r.value == pako.inflateRaw(data).value
    ensures r.Err? ==> r.error == DecompressionFailed
  {
    match pako.inflate(data)
    case Some(out) => Ok(out)
    case None =>
      match pako.inflateRaw(data)
      case Some(out) => Ok(out)
      case None => Err(DecompressionFailed)
  }

  // ── The trailer ────────────────────────────────────────────────────

  datatype ArchiveRecord = ArchiveRecord(
    crc: nat, filecount: int, version: int, registrySize: int, archiveSize: int, compressedRegistry: bool)

  /** `parseArchiveRecord`: six 32-bit fields from the last 36 bytes; the registry is compressed when the sixth is not 0. */
  function ArchiveRecordOf(buf: seq<byte>): ArchiveRecord
    requires |buf| >= ArchiveRecordSize
  {
    var base := |buf| - ArchiveRecordSize;
    ArchiveRecord(
      Uint32At(buf, base), Int32At(buf, base + 4), Int32At(buf, base + 8),
      Int32At(buf, base + 12), Int32At(buf, base + 16), Int32At(buf, base + 20) != 0)
  }

  function Zeros(n: nat): (r: seq<byte>)
    ensures |r| == n
  {
    seq(n, _ => 0)
  }

  predicate TrailerOk(a: ArchiveRecord) {
    a.crc < TwoTo32 && IsInt32(a.filecount) && IsInt32(a.version)
    && IsInt32(a.registrySize) && IsInt32(a.archiveSize)
  }

  /** The six trailer fields as the 32-bit values stored; the crc is stored by its bits. */
  function TrailerInts(a: ArchiveRecord): (xs: seq<int>)
    requires TrailerOk(a)
    ensures |xs| == 6 && forall k :: 0 <= k < 6 ==> IsInt32(xs[k])
  {
    [ToInt32(a.crc), a.filecount, a.version, a.registrySize, a.archiveSize, if a.compressedRegistry then 1 else 0]
  }

  /** How the trailer is written: the six fields, then 12 reserved zero bytes. */
  function TrailerBytes(a: ArchiveRecord): (r: seq<byte>)
    requires TrailerOk(a)
    ensures |r| == ArchiveRecordSize
  {
    PutInts(Zeros(ArchiveRecordSize), 0, TrailerInts(a))
  }

  /** A window of a window is a window of the whole. */
  lemma SubWindow(b: seq<byte>, off: nat, e: seq<byte>, lo: nat, hi: nat)
    requires off + |e| <= |b| && b[off..off + |e|] == e && lo <= hi <= |e|
    ensures b[off + lo..off + hi] == e[lo..hi]
  {
    forall k | 0 <= k < hi - lo
      ensures b[off + lo..off + hi][k] == e[lo..hi][k]
    {
      assert b[off + lo + k] == b[off..off + |e|][lo + k];
    }
  }

  /** A 32-bit field of a block reads the same from a buffer that holds the block at off. */
  lemma WindowRead(b: seq<byte>, off: nat, e: seq<byte>, lo: nat)
    requires off + |e| <= |b| && b[off..off + |e|] == e && lo + 4 <= |e|
    ensures Int32At(b, off + lo) == Int32At(e, lo)
  {
    SubWindow(b, off, e, lo, lo + 4);
    Int32Window(b, off + lo, e, lo);
  }

  /** The unsigned reading of 32 bits is fixed by the signed one. */
  lemma UnsignedFromSigned(b: seq<byte>, a: nat, u: nat)
    requires a + 4 <= |b| && u < TwoTo32 && Int32At(b, a) == ToInt32(u)
    ensures Uint32At(b, a) == u
  {
    var v := Uint32At(b, a);
    assert ToInt32(v) % TwoTo32 == v;
    assert ToInt32(u) % TwoTo32 == u;
  }

  /** Field k of a written trailer reads back, whatever precedes the trailer. */
  lemma TrailerFieldRead(prefix: seq<byte>, a: ArchiveRecord, k: nat)
    requires TrailerOk(a) && k < 6
    ensures Int32At(prefix + TrailerBytes(a), |prefix| + 4 * k) == TrailerInts(a)[k]
  {
    var t := TrailerBytes(a);
    assert (prefix + t)[|prefix|..|prefix| + |t|] == t;
    WindowRead(prefix + t, |prefix|, t, 4 * k);
    ReadPutInts(Zeros(ArchiveRecordSize), 0, TrailerInts(a), k);
  }

  /** The trailer in terms of where it lies in the buffer. */
  lemma ArchiveRecordFields(buf: seq<byte>, base: nat)
    requires base + ArchiveRecordSize == |buf|
    ensures ArchiveRecordOf(buf) == ArchiveRecord(
      Uint32At(buf, base), Int32At(buf, base + 4), Int32At(buf, base + 8),
      Int32At(buf, base + 12), Int32At(buf, base + 16), Int32At(buf, base + 20) != 0)
  {
  }

  /** `parseArchiveRecord` reads back a written trailer, whatever precedes it. */
  lemma ArchiveRecordRoundTrip(prefix: seq<byte>, a: ArchiveRecord)
    requires TrailerOk(a)
    ensures ArchiveRecordOf(prefix + TrailerBytes(a)) == a
  {
    var buf := prefix + TrailerBytes(a);
    var xs := TrailerInts(a);
    TrailerFieldRead(prefix, a, 0);
    TrailerFieldRead(prefix, a, 1);
    TrailerFieldRead(prefix, a, 2);
    TrailerFieldRead(prefix, a, 3);
    TrailerFieldRead(prefix, a, 4);
    TrailerFieldRead(prefix, a, 5);
    UnsignedFromSigned(buf, |prefix|, a.crc);
    ArchiveRecordFields(buf, |prefix|);
  }

  // ── The file index ─────────────────────────────────────────────────

  /** An entry of the registry; a file is compressed when its flag byte is 0. */
  datatype FileRecord = FileRecord(name: string, osize: int, csize: int, start: int, crc: nat, compressed: bool)

  /**
    * Entry i of the file index as `parseFileIndex` reads it: the name from
    * the registry's own elements, the numbers through a DataView that runs
    * to the end of the registry's buffer, so a RangeError when the flag byte
    * at 528 lies past that end.
    */
  function FileEntryAt(reg: View, i: nat): (r: Result<FileRecord>)
    requires ViewOk(reg)
    ensures r.Ok? <==> reg.start + i * FileIndexEntrySize + 529 <= |reg.buffer|
    ensures r.Err? ==> r.error == RangeError
  {
    if reg.start + i * FileIndexEntrySize + 529 <= |reg.buffer| then Ok(FileRecordAt(reg, i * FileIndexEntrySize))
    else Err(RangeError)
  }

  /** The fields of the entry at lo of the registry: the name from its elements, the numbers from its buffer. */
  function FileRecordAt(reg: View, lo: nat): FileRecord
    requires ViewOk(reg) && reg.start + lo + 529 <= |reg.buffer|
  {
    var off := reg.start + lo;
    FileRecord(
      DelphiString(Elements(reg), lo),
      Int32At(reg.buffer, off + 512), Int32At(reg.buffer, off + 516), Int32At(reg.buffer, off + 520),
      Uint32At(reg.buffer, off + 524), reg.buffer[off + 528] == 0)
  }

  /** The first n entries, or the RangeError of the first entry that does not fit. */
  function FileIndex(reg: View, n: nat): (r: Result<seq<FileRecord>>)
    requires ViewOk(reg)
    ensures r.Ok? ==> |r.value| == n && forall i :: 0 <= i < n ==> FileEntryAt(reg, i) == Ok(r.value[i])
    ensures r.Err? ==> r.error == RangeError
  {
    if n == 0 then Ok([])
    else
      var files :- FileIndex(reg, n - 1);
      var entry :- FileEntryAt(reg, n - 1);
      var all := files + [entry];
      assert forall i :: 0 <= i < n - 1 ==> all[i] == files[i];
      Ok(all)
  }

  /** Entries lie one after another, so the index is readable exactly when its last entry is. */
  lemma {:induction false} FileIndexOk(reg: View, n: nat)
    requires ViewOk(reg)
    ensures FileIndex(reg, n).Ok? <==> n == 0 || reg.start + (n - 1) * FileIndexEntrySize + 529 <= |reg.buffer|
  {
    if n > 1 {
      FileIndexOk(reg, n - 1);
      assert (n - 2) * FileIndexEntrySize <= (n - 1) * FileIndexEntrySize;
    }
  }

  /** `parseFileIndex` */
  method ParseFileIndex(reg: View, filecount: nat) returns (r: Result<seq<FileRecord>>)
    requires ViewOk(reg)
    ensures r == FileIndex(reg, filecount)
  {
    var files: seq<FileRecord> := [];
    for i := 0 to filecount
      invariant FileIndex(reg, i) == Ok(files)
    {
      var entry := FileEntryAt(reg, i);
      if entry.Err? {
        FileIndexOk(reg, i + 1);
        FileIndexOk(reg, filecount);
        assert i * FileIndexEntrySize <= (filecount - 1) * FileIndexEntrySize;
        return Err(RangeError);
      }
      files := files + [entry.value];
    }
    r := Ok(files);
  }

  /** The first 256 bytes of a written entry: the name as a Delphi short string, zero-padded. */
  function NameBlock(name: string): (r: seq<byte>)
    requires IsLatin1(name) && |name| < 0x100
    ensures |r| == 256
  {
    DelphiBytes(name) + Zeros(255 - |name|)
  }

  predicate EntryOk(f: FileRecord) {
    IsLatin1(f.name) && |f.name| < 0x100 && IsInt32(f.osize) && IsInt32(f.csize) && IsInt32(f.start)
    && f.crc < TwoTo32
  }

  /** The four numbers of an entry as the 32-bit values stored; the crc is stored by its bits. */
  function NumberInts(f: FileRecord): (xs: seq<int>)
    requires EntryOk(f)
    ensures |xs| == 4 && forall k :: 0 <= k < 4 ==> IsInt32(xs[k])
  {
    [f.osize, f.csize, f.start, ToInt32(f.crc)]
  }

  /** The last 20 bytes of a written entry: the four numbers, the flag byte and 3 pad bytes. */
  function NumberFields(f: FileRecord): (r: seq<byte>)
    requires EntryOk(f)
    ensures |r| == 20
  {
    PutInts(Zeros(16), 0, NumberInts(f)) + [if f.compressed then 0 else 1] + Zeros(3)
  }

  /** How a registry entry is written: the name block, 256 bytes of path, the number fields. */
  function EntryBytes(f: FileRecord): (r: seq<byte>)
    requires EntryOk(f)
    ensures |r| == FileIndexEntrySize
  {
    NameBlock(f.name) + Zeros(256) + NumberFields(f)
  }

  /** What a block of 532 bytes must hold for `parseFileIndex` to read f from it. */
  predicate Encodes(e: seq<byte>, f: FileRecord) {
    |e| == FileIndexEntrySize && DelphiString(e, 0) == f.name
    && Int32At(e, 512) == f.osize && Int32At(e, 516) == f.csize && Int32At(e, 520) == f.start
    && Uint32At(e, 524) == f.crc && (e[528] == 0 <==> f.compressed)
  }

  /** Number k of a written entry reads back from its number fields. */
  lemma NumberFieldRead(f: FileRecord, k: nat)
    requires EntryOk(f) && k < 4
    ensures Int32At(NumberFields(f), 4 * k) == NumberInts(f)[k]
  {
    var p := PutInts(Zeros(16), 0, NumberInts(f));
    var n := NumberFields(f);
    assert n[0..16] == p;
    WindowRead(n, 0, p, 4 * k);
    ReadPutInts(Zeros(16), 0, NumberInts(f), k);
  }

  lemma EntryParts(f: FileRecord)
    requires EntryOk(f)
    ensures EntryBytes(f)[512..] == NumberFields(f)
    ensures EntryBytes(f)[..|f.name| + 1] == DelphiBytes(f.name)
  {
    var e := EntryBytes(f);
    assert e[..256] == NameBlock(f.name);
    assert NameBlock(f.name)[..|f.name| + 1] == DelphiBytes(f.name);
  }

  lemma NumberRead(b: seq<byte>, at: nat, f: FileRecord, k: nat)
    requires EntryOk(f) && at + 20 <= |b| && b[at..at + 20] == NumberFields(f) && k < 4
    ensures Int32At(b, at + 4 * k) == NumberInts(f)[k]
  {
    WindowRead(b, at, NumberFields(f), 4 * k);
    NumberFieldRead(f, k);
  }

  /** The numbers of a written entry read back. */
  lemma EntryBytesNumbers(f: FileRecord)
    requires EntryOk(f)
    ensures var e := EntryBytes(f);
      Int32At(e, 512) == f.osize && Int32At(e, 516) == f.csize && Int32At(e, 520) == f.start
      && Uint32At(e, 524) == f.crc && (e[528] == 0 <==> f.compressed)
  {
    var e := EntryBytes(f);
    EntryParts(f);
    assert e[512..532] == NumberFields(f);
    NumberRead(e, 512, f, 0);
    NumberRead(e, 512, f, 1);
    NumberRead(e, 512, f, 2);
    NumberRead(e, 512, f, 3);
    UnsignedFromSigned(e, 524, f.crc);
    assert e[528] == NumberFields(f)[16];
  }

  /** The name of a written entry reads back. */
  lemma EntryBytesName(f: FileRecord)
    requires EntryOk(f)
    ensures DelphiString(EntryBytes(f), 0) == f.name
  {
    var e := EntryBytes(f);
    var k := |f.name| + 1;
    EntryParts(f);
    assert e == DelphiBytes(f.name) + e[k..];
    DelphiRoundTrip(f.name, e[k..]);
  }

  /** A written entry holds what `parseFileIndex` reads. */
  lemma EntryBytesEncodes(f: FileRecord)
    requires EntryOk(f)
    ensures Encodes(EntryBytes(f), f)
  {
    EntryBytesName(f);
    EntryBytesNumbers(f);
  }

  /** `readDelphiString` reads only the length byte and the characters it counts. */
  lemma DelphiWindow(bytes: seq<byte>, off: nat, e: seq<byte>)
    requires off + |e| <= |bytes| && bytes[off..off + |e|] == e && |e| >= 256
    ensures DelphiString(bytes, off) == DelphiString(e, 0)
  {
    assert bytes[off] == e[0];
    var a := DelphiString(bytes, off);
    var b := DelphiString(e, 0);
    assert |a| == bytes[off] as int < 256;
    forall j | 0 <= j < |a|
      ensures a[j] == b[j]
    {
      assert 1 + j < |e|;
      assert bytes[off + 1 + j] == e[1 + j];
      assert ByteAt(bytes, off + 1 + j) == ByteAt(e, 1 + j);
    }
  }

  /** `parseFileIndex` reads f back from entry i of a registry that holds a block encoding f there. */
  lemma FileEntryRoundTrip(reg: View, i: nat, e: seq<byte>, f: FileRecord)
    requires ViewOk(reg) && Encodes(e, f)
    requires (i + 1) * FileIndexEntrySize <= reg.len
    requires Elements(reg)[i * FileIndexEntrySize..(i + 1) * FileIndexEntrySize] == e
    ensures FileEntryAt(reg, i) == Ok(f)
  {
    var lo := i * FileIndexEntrySize;
    assert (i + 1) * FileIndexEntrySize == lo + FileIndexEntrySize;
    EntryReadAt(reg, lo, e, f);
  }

  /** The fields of a block encoding f at lo of a registry read back. */
  lemma EntryReadAt(reg: View, lo: nat, e: seq<byte>, f: FileRecord)
    requires ViewOk(reg) && Encodes(e, f) && lo + FileIndexEntrySize <= reg.len
    requires Elements(reg)[lo..lo + FileIndexEntrySize] == e
    ensures FileRecordAt(reg, lo) == f
  {
    DelphiWindow(Elements(reg), lo, e);
    SubWindow(reg.buffer, reg.start, Elements(reg), lo, lo + FileIndexEntrySize);
    EntryNumbersAt(reg.buffer, reg.start + lo, e, f);
    RecordAtFields(reg, lo, f);
  }

  /** FileRecordAt is f once each of its fields is. */
  lemma RecordAtFields(reg: View, lo: nat, f: FileRecord)
    requires ViewOk(reg) && reg.start + lo + 529 <= |reg.buffer|
    requires DelphiString(Elements(reg), lo) == f.name
    requires Int32At(reg.buffer, reg.start + lo + 512) == f.osize && Int32At(reg.buffer, reg.start + lo + 516) == f.csize
    requires Int32At(reg.buffer, reg.start + lo + 520) == f.start && Uint32At(reg.buffer, reg.start + lo + 524) == f.crc
    requires reg.buffer[reg.start + lo + 528] == 0 <==> f.compressed
    ensures FileRecordAt(reg, lo) == f
  {
  }

  /** The numbers of a block encoding f read back from a buffer that holds it at `at`. */
  lemma EntryNumbersAt(b: seq<byte>, at: nat, e: seq<byte>, f: FileRecord)
    requires Encodes(e, f) && at + FileIndexEntrySize <= |b| && b[at..at + FileIndexEntrySize] == e
    ensures Int32At(b, at + 512) == f.osize && Int32At(b, at + 516) == f.csize && Int32At(b, at + 520) == f.start
    ensures Uint32At(b, at + 524) == f.crc && (b[at + 528] == 0 <==> f.compressed)
  {
    WindowRead(b, at, e, 512);
    WindowRead(b, at, e, 516);
    WindowRead(b, at, e, 520);
    UnsignedWindow(b, at, e, 524);
    assert b[at + 528] == e[528];
  }

  /** The unsigned reading of a window is the block's. */
  lemma UnsignedWindow(b: seq<byte>, off: nat, e: seq<byte>, lo: nat)
    requires off + |e| <= |b| && b[off..off + |e|] == e && lo + 4 <= |e|
    ensures Uint32At(b, off + lo) == Uint32At(e, lo)
  {
    assert b[off + lo] == e[lo] && b[off + lo + 1] == e[lo + 1];
    assert b[off + lo + 2] == e[lo + 2] && b[off + lo + 3] == e[lo + 3];
  }

  // ── Finding temp.xg ────────────────────────────────────────────────

  /** `toLowerCase` on a Latin-1 character: A–Z and À–Þ except × move down by 0x20. */
  function LowerLatin1(c: char): char {
    if 'A' <= c <= 'Z' || (0xC0 <= c as int <= 0xDE && c as int != 0xD7) then (c as int + 0x20) as char
    else c
  }

  function LowerString(s: string): (r: string)
    ensures |r| == |s|
  {
    seq(|s|, i requires 0 <= i < |s| => LowerLatin1(s[i]))
  }

  const TempXgName: string := "temp.xg"

  predicate IsTempXg(name: string) {
    LowerString(name) == TempXgName
  }

  /** The letters of "temp.xg" and the characters that lower to them. */
  lemma LowerToLetter(c: char, l: char)
    requires l == 't' || l == 'e' || l == 'm' || l == 'p' || l == 'x' || l == 'g'
    ensures LowerLatin1(c) == l <==> c == l || c as int == l as int - 0x20
  {
  }

  /** The name matches in any mix of upper and lower case, and in no other spelling. */
  lemma TempXgAnyCase(name: string)
    ensures IsTempXg(name) <==> |name| == 7 && forall i :: 0 <= i < 7 ==>
      name[i] == TempXgName[i] || name[i] == "TEMP.XG"[i]
  {
    if |name| == 7 {
      forall i | 0 <= i < 7
        ensures LowerLatin1(name[i]) == TempXgName[i] <==> name[i] == TempXgName[i] || name[i] == "TEMP.XG"[i]
      {
        if i != 4 {
          LowerToLetter(name[i], TempXgName[i]);
        }
      }
      if IsTempXg(name) {
        forall i | 0 <= i < 7 ensures LowerLatin1(name[i]) == TempXgName[i] {
          assert LowerString(name)[i] == LowerLatin1(name[i]);
        }
      }
      if forall i :: 0 <= i < 7 ==> LowerLatin1(name[i]) == TempXgName[i] {
        assert LowerString(name) == TempXgName;
      }
    }
  }

  /** The first entry whose name is temp.xg in any case. */
  function TempXgIndex(files: seq<FileRecord>): (r: Option<nat>)
    ensures r.Some? ==> (r.value < |files| && IsTempXg(files[r.value].name)
                         && forall j :: 0 <= j < r.value ==> !IsTempXg(files[j].name))
    ensures r.None? ==> forall j :: 0 <= j < |files| ==> !IsTempXg(files[j].name)
  {
    if |files| == 0 then None
    else if IsTempXg(files[0].name) then Some(0)
    else
      match TempXgIndex(files[1..])
      case None => None
      case Some(i) => Some(i + 1)
  }

  /** The loop of `parse` that looks for temp.xg, stopping at the first match. */
  method FindTempXg(files: seq<FileRecord>) returns (r: Option<nat>)
    ensures r == TempXgIndex(files)
  {
    r := None;
    var fi := 0;
    while fi < |files|
      invariant 0 <= fi <= |files|
      invariant forall j :: 0 <= j < fi ==> !IsTempXg(files[j].name)
    {
      if LowerString(files[fi].name) == TempXgName {
        r := Some(fi);
        break;
      }
      fi := fi + 1;
    }
    FirstMatchUnique(files, r);
  }

  /** At most one index is the first match. */
  lemma {:induction false} FirstMatchUnique(files: seq<FileRecord>, r: Option<nat>)
    requires r.Some? ==> (r.value < |files| && IsTempXg(files[r.value].name)
                          && forall j :: 0 <= j < r.value ==> !IsTempXg(files[j].name))
    requires r.None? ==> forall j :: 0 <= j < |files| ==> !IsTempXg(files[j].name)
    ensures r == TempXgIndex(files)
    decreases |files|
  {
    if |files| > 0 && !IsTempXg(files[0].name) {
      var rest := if r.Some? then Some(r.value - 1) else None;
      assert r.Some? ==> r.value > 0;
      forall j | 0 <= j < |files| - 1
        ensures files[1..][j] == files[j + 1]
      {
      }
      FirstMatchUnique(files[1..], rest);
    }
  }

  // ── Extraction ─────────────────────────────────────────────────────

  /**
    * The bytes handed to `decompress` for a compressed file: from its start,
    * `max(csize, 2 * osize)` bytes, cut at the trailer.
    */
  function CompressedSlice(buf: seq<byte>, f: FileRecord, dataStart: int): (r: Result<seq<byte>>)
    ensures r.Ok? <==> 0 <= dataStart && 0 <= Min(|buf| - ArchiveRecordSize - dataStart, Max(f.csize, f.osize * 2))
    ensures r.Ok? ==> (dataStart + |r.value| <= |buf| - ArchiveRecordSize
                       && |r.value| <= Max(f.csize, f.osize * 2) && r.value == buf[dataStart..dataStart + |r.value|])
    ensures r.Ok? ==> |r.value| == Min(|buf| - ArchiveRecordSize - dataStart, Max(f.csize, f.osize * 2))
    ensures r.Err? ==> r.error == RangeError
  {
    var available := |buf| - ArchiveRecordSize - dataStart;
    var sliceLen := Min(available, Max(f.csize, f.osize * 2));
    var v :- SubView(buf, dataStart, sliceLen);
    Ok(Elements(v))
  }

  /**
    * `extractArchiveFile`: a stored file is the `osize` bytes from its start
    * (a RangeError when they do not fit); a compressed one is inflated.
    */
  function ExtractArchiveFile(buf: seq<byte>, f: FileRecord, startOfArcData: int, pako: Pako): (r: Result<seq<byte>>)
    ensures !f.compressed ==> (r.Ok? <==> (0 <= startOfArcData + f.start && 0 <= f.osize
                                           && startOfArcData + f.start + f.osize <= |buf|))
    ensures !f.compressed && r.Ok? ==> r.value == buf[startOfArcData + f.start..startOfArcData + f.start + f.osize]
    ensures f.compressed ==> r == (var s :- CompressedSlice(buf, f, startOfArcData + f.start); Decompress(s, pako))
  {
    var dataStart := startOfArcData + f.start;
    if !f.compressed then
      var v :- SubView(buf, dataStart, f.osize);
      Ok(Elements(v))
    else
      var compressed :- CompressedSlice(buf, f, dataStart);
      Decompress(compressed, pako)
  }

  // ── parse ──────────────────────────────────────────────────────────

  /** Bytes 3, 2, 1, 0 spell "HMGR". */
  predicate HasHmgrMagic(buf: seq<byte>)
    requires |buf| >= 4
  {
    buf[3] as int == 'H' as int && buf[2] as int == 'M' as int
    && buf[1] as int == 'G' as int && buf[0] as int == 'R' as int
  }

  /** Where the registry starts: just before the trailer, registrysize bytes long. */
  function RegistryStart(buf: seq<byte>, a: ArchiveRecord): int {
    |buf| - ArchiveRecordSize - a.registrySize
  }

  /** Where the archived files start: archivesize bytes before the registry. */
  function StartOfArcData(buf: seq<byte>, a: ArchiveRecord): int {
    RegistryStart(buf, a) - a.archiveSize
  }

  /** The registry as `parse` reads it: a view on the file, or the inflated bytes in a buffer of their own. */
  function Registry(buf: seq<byte>, a: ArchiveRecord, pako: Pako): (r: Result<View>)
    ensures r.Ok? ==> ViewOk(r.value)
    ensures !a.compressedRegistry ==> r == SubView(buf, RegistryStart(buf, a), a.registrySize)
  {
    var raw :- SubView(buf, RegistryStart(buf, a), a.registrySize);
    if a.compressedRegistry then
      var bytes :- Decompress(Elements(raw), pako);
      Ok(OwnBuffer(bytes))
    else Ok(raw)
  }

  /** The check of the game file's magic, made only on payloads longer than 560 bytes. */
  predicate GameMagicOk(data: seq<byte>) {
    |data| <= 560 || Uint32At(data, GameMagicOffset) == GameMagic
  }

  /** Steps 4 and 5 of `parse`: the registry, then its first filecount entries. */
  function ArchiveFiles(buf: seq<byte>, a: ArchiveRecord, pako: Pako): (r: Result<seq<FileRecord>>)
    requires a.filecount > 0
    ensures r.Ok? ==> |r.value| == a.filecount
  {
    var reg :- Registry(buf, a, pako);
    FileIndex(reg, a.filecount)
  }

  /** Steps 6 and 7 of `parse`: temp.xg by name, extracted, with its magic checked when it is long enough to have one. */
  function TempXgPayload(buf: seq<byte>, a: ArchiveRecord, files: seq<FileRecord>, pako: Pako): (r: Result<seq<byte>>)
    ensures r.Ok? ==> GameMagicOk(r.value)
    ensures TempXgIndex(files).None? ==> r == Err(PayloadNotFound)
  {
    match TempXgIndex(files)
    case None => Err(PayloadNotFound)
    case Some(i) =>
      var data :- ExtractArchiveFile(buf, files[i], StartOfArcData(buf, a), pako);
      if GameMagicOk(data) then Ok(data) else Err(BadGameMagic)
  }

  /** The archive steps of `parse`, in order, up to the payload handed to the record scan. */
  function Payload(buf: seq<byte>, pako: Pako): (r: Result<seq<byte>>)
    ensures r.Ok? ==> (|buf| >= GdfHeaderSize + ArchiveRecordSize && HasHmgrMagic(buf)
                       && ArchiveRecordOf(buf).filecount > 0 && GameMagicOk(r.value))
    ensures |buf| < GdfHeaderSize + ArchiveRecordSize ==> r == Err(FileTooSmall)
    ensures |buf| >= GdfHeaderSize + ArchiveRecordSize && !HasHmgrMagic(buf) ==> r == Err(NotAnArchive)
  {
    if |buf| < GdfHeaderSize + ArchiveRecordSize then Err(FileTooSmall)
    else if !HasHmgrMagic(buf) then Err(NotAnArchive)
    else
      var a := ArchiveRecordOf(buf);
      if a.filecount <= 0 then Err(EmptyArchive)
      else
        var files :- ArchiveFiles(buf, a, pako);
        TempXgPayload(buf, a, files, pako)
  }

  /** What `parse` returns or throws for the bytes of a .xg file. */
  function XgParsed(buf: seq<byte>, pako: Pako): (r: Result<XgMatch>)
    ensures r.Ok? ==> Payload(buf, pako).Ok? && r == RecordsParsed(Payload(buf, pako).value)
  {
    var data :- Payload(buf, pako);
    RecordsParsed(data)
  }

  /** Steps 4 and 5 of `parse`. */
  method ReadArchiveFiles(buf: seq<byte>, a: ArchiveRecord, pako: Pako) returns (r: Result<seq<FileRecord>>)
    requires a.filecount > 0
    ensures r == ArchiveFiles(buf, a, pako)
  {
    var registry := Registry(buf, a, pako);
    if registry.Err? {
      return Err(registry.error);
    }
    r := ParseFileIndex(registry.value, a.filecount);
  }

  /** Steps 6 and 7 of `parse`. */
  method ExtractTempXg(buf: seq<byte>, a: ArchiveRecord, files: seq<FileRecord>, pako: Pako)
    returns (r: Result<seq<byte>>)
    ensures r == TempXgPayload(buf, a, files, pako)
  {
    var tempXg := FindTempXg(files);
    if tempXg.None? {
      return Err(PayloadNotFound);
    }
    var tempXgData := ExtractArchiveFile(buf, files[tempXg.value], StartOfArcData(buf, a), pako);
    if tempXgData.Err? {
      return Err(tempXgData.error);
    }
    var data := tempXgData.value;
    if |data| > 560 && Uint32At(data, GameMagicOffset) != GameMagic {
      return Err(BadGameMagic);
    }
    r := Ok(data);
  }

  /** `parse` */
  method Parse(buf: seq<byte>, pako: Pako) returns (r: Result<XgMatch>)
    ensures r == XgParsed(buf, pako)
  {
    var fileSize := |buf|;
    if fileSize < GdfHeaderSize + ArchiveRecordSize {
      return Err(FileTooSmall);
    }
    if !HasHmgrMagic(buf) {
      return Err(NotAnArchive);
    }
    var arcRec := ArchiveRecordOf(buf);
    if arcRec.filecount <= 0 {
      return Err(EmptyArchive);
    }
    var files := ReadArchiveFiles(buf, arcRec, pako);
    if files.Err? {
      return Err(files.error);
    }
    var data := ExtractTempXg(buf, arcRec, files.value, pako);
    if data.Err? {
      return Err(data.error);
    }
    r := ScanRecords(data.value);
  }

  // ── Reading back an archive ────────────────────────────────────────

  /** The registry entry of a stored temp.xg of n bytes at the start of the archived data. */
  function TempXgEntry(n: nat): FileRecord {
    FileRecord(TempXgName, n, n, 0, 0, false)
  }

  /** The trailer of an archive holding one file of n bytes and an uncompressed one-entry registry. */
  function OneFileTrailer(n: nat): ArchiveRecord {
    ArchiveRecord(0, 1, 0, FileIndexEntrySize, n, false)
  }

  /** A .xg file as it is written with temp.xg stored uncompressed: header, payload, registry, trailer. */
  function OneFileArchive(header: seq<byte>, data: seq<byte>): seq<byte>
    requires |data| < TwoTo31
  {
    header + data + EntryBytes(TempXgEntry(|data|)) + TrailerBytes(OneFileTrailer(|data|))
  }

  lemma TempXgNameOk()
    ensures IsTempXg(TempXgName) && IsLatin1(TempXgName)
  {
    assert LowerString(TempXgName) == TempXgName;
  }

  /** The pieces of a concatenation sit where they were put. */
  lemma ConcatSlices(p: seq<byte>, e: seq<byte>, t: seq<byte>)
    ensures (p + e + t)[..|p|] == p && (p + e + t)[|p|..|p| + |e|] == e
  {
  }

  /** The trailer of a one-file archive reads back. */
  lemma OneFileTrailerRead(header: seq<byte>, data: seq<byte>)
    requires |header| == GdfHeaderSize && |data| < TwoTo31
    ensures |OneFileArchive(header, data)| == GdfHeaderSize + |data| + FileIndexEntrySize + ArchiveRecordSize
    ensures ArchiveRecordOf(OneFileArchive(header, data)) == OneFileTrailer(|data|)
  {
    TempXgNameOk();
    var e := EntryBytes(TempXgEntry(|data|));
    ArchiveRecordRoundTrip(header + data + e, OneFileTrailer(|data|));
  }

  /** The registry of a one-file archive is a view on its written entry. */
  lemma OneFileRegistry(header: seq<byte>, data: seq<byte>, pako: Pako)
    requires |header| == GdfHeaderSize && |data| < TwoTo31
    ensures var buf := OneFileArchive(header, data);
      var reg := View(buf, GdfHeaderSize + |data|, FileIndexEntrySize);
      |buf| >= ArchiveRecordSize && ViewOk(reg)
      && Registry(buf, OneFileTrailer(|data|), pako) == Ok(reg)
      && Elements(reg) == EntryBytes(TempXgEntry(|data|))
  {
    TempXgNameOk();
    OneFileTrailerRead(header, data);
    ConcatSlices(header + data, EntryBytes(TempXgEntry(|data|)), TrailerBytes(OneFileTrailer(|data|)));
  }

  /** A one-entry registry holding a written entry is read back as that entry. */
  lemma SingleEntryIndex(reg: View, e: seq<byte>, f: FileRecord)
    requires ViewOk(reg) && Encodes(e, f) && reg.len == FileIndexEntrySize && Elements(reg) == e
    ensures FileIndex(reg, 1) == Ok([f])
  {
    assert Elements(reg)[0..FileIndexEntrySize] == e;
    FileEntryRoundTrip(reg, 0, e, f);
    assert FileIndex(reg, 0) == Ok([]);
    assert [] + [f] == [f];
  }

  /** The stored temp.xg of a one-file archive is its payload. */
  lemma OneFileExtract(header: seq<byte>, data: seq<byte>, pako: Pako)
    requires |header| == GdfHeaderSize && |data| < TwoTo31
    ensures ExtractArchiveFile(OneFileArchive(header, data), TempXgEntry(|data|), GdfHeaderSize, pako) == Ok(data)
  {
    TempXgNameOk();
    var e := EntryBytes(TempXgEntry(|data|));
    var buf := OneFileArchive(header, data);
    ConcatSlices(header + data, e, TrailerBytes(OneFileTrailer(|data|)));
    ConcatSlices(header, data, []);
    assert buf[..GdfHeaderSize + |data|] == header + data;
    assert buf[GdfHeaderSize..GdfHeaderSize + |data|] == (header + data)[GdfHeaderSize..];
  }

  /** The archive steps of `parse` give back the payload of a one-file archive. */
  lemma OneFilePayload(header: seq<byte>, data: seq<byte>, pako: Pako)
    requires |header| == GdfHeaderSize && HasHmgrMagic(header)
    requires |data| < TwoTo31 && GameMagicOk(data)
    ensures Payload(OneFileArchive(header, data), pako) == Ok(data)
  {
    OneFileTrailerRead(header, data);
    OneFileFiles(header, data, pako);
    OneFileTempXg(header, data, pako);
    OneFileMagic(header, data);
  }

  /** Steps 4 and 5 on a one-file archive give its one entry. */
  lemma OneFileFiles(header: seq<byte>, data: seq<byte>, pako: Pako)
    requires |header| == GdfHeaderSize && |data| < TwoTo31
    ensures ArchiveFiles(OneFileArchive(header, data), OneFileTrailer(|data|), pako) == Ok([TempXgEntry(|data|)])
  {
    var buf := OneFileArchive(header, data);
    var reg := View(buf, GdfHeaderSize + |data|, FileIndexEntrySize);
    OneFileRegistry(header, data, pako);
    TempXgNameOk();
    EntryBytesEncodes(TempXgEntry(|data|));
    SingleEntryIndex(reg, EntryBytes(TempXgEntry(|data|)), TempXgEntry(|data|));
  }

  /** Steps 6 and 7 on a one-file archive give its payload. */
  lemma OneFileTempXg(header: seq<byte>, data: seq<byte>, pako: Pako)
    requires |header| == GdfHeaderSize && |data| < TwoTo31 && GameMagicOk(data)
    ensures TempXgPayload(OneFileArchive(header, data), OneFileTrailer(|data|), [TempXgEntry(|data|)], pako) == Ok(data)
  {
    var buf := OneFileArchive(header, data);
    OneFileTrailerRead(header, data);
    TempXgNameOk();
    assert TempXgIndex([TempXgEntry(|data|)]) == Some(0);
    assert StartOfArcData(buf, OneFileTrailer(|data|)) == GdfHeaderSize;
    OneFileExtract(header, data, pako);
  }

  lemma OneFileMagic(header: seq<byte>, data: seq<byte>)
    requires |header| == GdfHeaderSize && HasHmgrMagic(header) && |data| < TwoTo31
    ensures HasHmgrMagic(OneFileArchive(header, data))
  {
    var buf := OneFileArchive(header, data);
    assert buf[0] == header[0] && buf[1] == header[1] && buf[2] == header[2] && buf[3] == header[3];
  }

  /** `parse` on a .xg file written with temp.xg stored uncompressed is the record scan of temp.xg. */
  lemma OneFileRoundTrip(header: seq<byte>, data: seq<byte>, pako: Pako)
    requires |header| == GdfHeaderSize && HasHmgrMagic(header)
    requires |data| < TwoTo31 && GameMagicOk(data)
    ensures XgParsed(OneFileArchive(header, data), pako) == RecordsParsed(data)
  {
    OneFilePayload(header, data, pako);
  }
}
