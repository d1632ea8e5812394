/**
  * The record layer of the eXtreme Gammon `.xg` reader: little-endian
  * field reads, the two string encodings the records use (Delphi short
  * strings and zero-terminated UTF-16), the readers of the five record
  * kinds the `.mat` writer needs, and the scan of the 2560-byte records of
  * the `temp.xg` payload, which keeps one game open at a time.
  */
module XgRecords {
  import opened Common
  import opened Base64

  const RecordSize: nat := 2560

  const EntryHeaderMatch: nat := 0
  const EntryHeaderGame: nat := 1
  const EntryCube: nat := 2
  const EntryMove: nat := 3
  const EntryFooterGame: nat := 4
  const EntryFooterMatch: nat := 5

  const TwoTo32: int := 0x1_0000_0000
  const TwoTo31: int := 0x8000_0000

  // ── Little-endian reads ────────────────────────────────────────────

  /** `getUint16(a, true)` */
  function Uint16At(data: seq<byte>, a: nat): (r: nat)
    requires a + 2 <= |data|
    ensures r < 0x1_0000
  {
    data[a] as int + 0x100 * data[a + 1] as int
  }

  /** `getUint32(a, true)` */
  function Uint32At(data: seq<byte>, a: nat): (r: nat)
    requires a + 4 <= |data|
    ensures r < TwoTo32
  {
    data[a] as int + 0x100 * data[a + 1] as int + 0x1_0000 * data[a + 2] as int
    + 0x100_0000 * data[a + 3] as int
  }

  /** Two's complement reading of 32 bits: the one value in the signed range with the same residue. */
  function ToInt32(u: nat): (r: int)
    requires u < TwoTo32
    ensures -TwoTo31 <= r < TwoTo31
    ensures r % TwoTo32 == u
  {
    if u < TwoTo31 then u else u - TwoTo32
  }

  /** `getInt32(a, true)` */
  function Int32At(data: seq<byte>, a: nat): int
    requires a + 4 <= |data|
  {
    ToInt32(Uint32At(data, a))
  }

  /** The four little-endian bytes that store x modulo 2^32. */
  function Le32(x: int): (r: seq<byte>)
    ensures |r| == 4
  {
    var u := x % TwoTo32;
    [ToByte(u % 0x100), ToByte(u / 0x100 % 0x100),
     ToByte(u / 0x100 / 0x100 % 0x100), ToByte(u / 0x100 / 0x100 / 0x100)]
  }

  /** Little-endian base-256 digits: the unsigned reading of the bytes of x is x modulo 2^32. */
  lemma Le32Value(x: int)
    ensures Uint32At(Le32(x), 0) == x % TwoTo32
  {
    var u := x % TwoTo32;
    var q1 := u / 0x100;
    var q2 := q1 / 0x100;
    var b := Le32(x);
    assert b[0] as int == u % 0x100 && b[1] as int == q1 % 0x100;
    assert b[2] as int == q2 % 0x100 && b[3] as int == q2 / 0x100;
    DigitSplit(u);
    DigitSplit(q1);
    DigitSplit(q2);
  }

  lemma DigitSplit(n: int)
    ensures n == n % 0x100 + 0x100 * (n / 0x100)
  {
  }

  /** Reading back the bytes of a signed 32-bit value gives the value. */
  lemma Int32RoundTrip(x: int)
    requires -TwoTo31 <= x < TwoTo31
    ensures Int32At(Le32(x), 0) == x
  {
    Le32Value(x);
    if x < 0 {
      assert x % TwoTo32 == x + TwoTo32;
    }
  }

  /** `data` with the bytes of x stored at a. */
  function Put32(data: seq<byte>, a: nat, x: int): (r: seq<byte>)
    requires a + 4 <= |data|
    ensures |r| == |data|
  {
    data[..a] + Le32(x) + data[a + 4..]
  }

  /** A 32-bit field depends only on its own four bytes. */
  lemma Int32Window(d: seq<byte>, a: nat, e: seq<byte>, b: nat)
    requires a + 4 <= |d| && b + 4 <= |e|
    requires d[a..a + 4] == e[b..b + 4]
    ensures Int32At(d, a) == Int32At(e, b)
  {
    assert d[a] == d[a..a + 4][0] && d[a + 1] == d[a..a + 4][1];
    assert d[a + 2] == d[a..a + 4][2] && d[a + 3] == d[a..a + 4][3];
    assert e[b] == e[b..b + 4][0] && e[b + 1] == e[b..b + 4][1];
    assert e[b + 2] == e[b..b + 4][2] && e[b + 3] == e[b..b + 4][3];
  }

  lemma ReadPut32Same(data: seq<byte>, a: nat, x: int)
    requires a + 4 <= |data| && -TwoTo31 <= x < TwoTo31
    ensures Int32At(Put32(data, a, x), a) == x
  {
    var r := Put32(data, a, x);
    var b := Le32(x);
    Int32RoundTrip(x);
    assert r[a..a + 4] == b[0..4];
    Int32Window(r, a, b, 0);
  }

  lemma ReadPut32Other(data: seq<byte>, a: nat, x: int, b: nat)
    requires a + 4 <= |data| && b + 4 <= |data|
    requires b + 4 <= a || a + 4 <= b
    ensures Int32At(Put32(data, a, x), b) == Int32At(data, b)
  {
    var r := Put32(data, a, x);
    assert r[b] == data[b] && r[b + 1] == data[b + 1] && r[b + 2] == data[b + 2] && r[b + 3] == data[b + 3];
  }

  // ── Strings ────────────────────────────────────────────────────────

  /** `bytes[i]` on a Uint8Array: undefined outside it. */
  function ByteAt(bytes: seq<byte>, i: int): Option<byte> {
    if 0 <= i < |bytes| then Some(bytes[i]) else None
  }

  /** `String.fromCharCode(b)` for a byte; undefined converts to code 0. */
  function Latin1(b: Option<byte>): (c: char)
    ensures c as int < 0x100
  {
    match b
    case Some(v) => (v as int) as char
    case None => 0 as char
  }

  /** What `readDelphiString(bytes, offset)` returns: a length byte, then that many Latin-1 characters. */
  function DelphiString(bytes: seq<byte>, offset: nat): (r: string)
    ensures |r| == (if offset < |bytes| then bytes[offset] as int else 0)
  {
    match ByteAt(bytes, offset)
    case None => ""
    case Some(n) => seq(n as int, i => Latin1(ByteAt(bytes, offset + 1 + i)))
  }

  /** `readDelphiString` */
  method ReadDelphiString(bytes: seq<byte>, offset: nat) returns (r: string)
    ensures r == DelphiString(bytes, offset)
  {
    var len: nat := if offset < |bytes| then bytes[offset] as int else 0;
    r := [];
    var i := 0;
    while i < len
      invariant 0 <= i <= len
      invariant r == DelphiString(bytes, offset)[..i]
    {
      r := r + [Latin1(ByteAt(bytes, offset + 1 + i))];
      i := i + 1;
    }
  }

  predicate IsLatin1(s: string) {
    forall i :: 0 <= i < |s| ==> s[i] as int < 0x100
  }

  /** The byte of a Latin-1 character. */
  function CharByte(c: char): (b: byte)
    requires c as int < 0x100
    ensures Latin1(Some(b)) == c
  {
    ToByte(c as int)
  }

  /** How a Delphi short string is stored: its length in one byte, then its characters. */
  function DelphiBytes(s: string): (r: seq<byte>)
    requires IsLatin1(s) && |s| < 0x100
    ensures |r| == |s| + 1
  {
    [ToByte(|s|)] + seq(|s|, i requires 0 <= i < |s| => CharByte(s[i]))
  }

  /** `readDelphiString` reads back a stored short string, whatever follows it. */
  lemma DelphiRoundTrip(s: string, rest: seq<byte>)
    requires IsLatin1(s) && |s| < 0x100
    ensures DelphiString(DelphiBytes(s) + rest, 0) == s
  {
    var bytes := DelphiBytes(s) + rest;
    assert bytes[0] as int == |s|;
    var r := DelphiString(bytes, 0);
    forall i | 0 <= i < |s|
      ensures r[i] == s[i]
    {
      assert bytes[1 + i] == CharByte(s[i]);
    }
  }

  /** `String.fromCharCode(u)` for a UTF-16 code unit; a lone surrogate half becomes U+FFFD. */
  function CodeUnitChar(u: nat): char
    requires u < 0x1_0000
  {
    if 0xD800 <= u < 0xE000 then 0xFFFD as char else u as char
  }

  /** The k-th UTF-16 code unit from offset. */
  function UnitAt(data: seq<byte>, offset: nat, k: nat): nat
    requires offset + 2 * k + 2 <= |data|
  {
    Uint16At(data, offset + 2 * k)
  }

  /** Where `readUTF16String` stops when it starts at unit i: the first zero unit, or maxChars. */
  function Utf16End(data: seq<byte>, offset: nat, maxChars: nat, i: nat): (n: nat)
    requires offset + 2 * maxChars <= |data|
    requires i <= maxChars
    ensures i <= n <= maxChars
    decreases maxChars - i
  {
    if i == maxChars || UnitAt(data, offset, i) == 0 then i else Utf16End(data, offset, maxChars, i + 1)
  }

  /** The units before the end are non-zero, and the end is maxChars or a zero unit. */
  lemma {:induction false} Utf16EndStops(data: seq<byte>, offset: nat, maxChars: nat, i: nat)
    requires offset + 2 * maxChars <= |data|
    requires i <= maxChars
    ensures var n := Utf16End(data, offset, maxChars, i);
      (forall k :: i <= k < n ==> UnitAt(data, offset, k) != 0)
      && (n < maxChars ==> UnitAt(data, offset, n) == 0)
    decreases maxChars - i
  {
    if i < maxChars && UnitAt(data, offset, i) != 0 {
      Utf16EndStops(data, offset, maxChars, i + 1);
    }
  }

  /** What `readUTF16String(dv, offset, maxChars)` returns: one character per code unit up to the end. */
  function Utf16String(data: seq<byte>, offset: nat, maxChars: nat): (r: string)
    requires offset + 2 * maxChars <= |data|
    ensures |r| <= maxChars
  {
    var n := Utf16End(data, offset, maxChars, 0);
    seq(n, k requires 0 <= k < n => CodeUnitChar(UnitAt(data, offset, k)))
  }

  /**
    * `readUTF16String` returns at most maxChars characters, one per code
    * unit, and stops before the first zero code unit.
    */
  lemma Utf16StringUnits(data: seq<byte>, offset: nat, maxChars: nat)
    requires offset + 2 * maxChars <= |data|
    ensures var r := Utf16String(data, offset, maxChars);
      |r| <= maxChars
      && (forall k :: 0 <= k < |r| ==> UnitAt(data, offset, k) != 0 && r[k] == CodeUnitChar(UnitAt(data, offset, k)))
      && (|r| < maxChars ==> UnitAt(data, offset, |r|) == 0)
  {
    Utf16EndStops(data, offset, maxChars, 0);
  }

  /** `readUTF16String` */
  method ReadUtf16String(data: seq<byte>, offset: nat, maxChars: nat) returns (r: string)
    requires offset + 2 * maxChars <= |data|
    ensures r == Utf16String(data, offset, maxChars)
  {
    ghost var n := Utf16End(data, offset, maxChars, 0);
    Utf16EndStops(data, offset, maxChars, 0);
    r := [];
    var i := 0;
    while i < maxChars
      invariant 0 <= i <= n
      invariant r == Utf16String(data, offset, maxChars)[..i]
    {
      var code := Uint16At(data, offset + i * 2);
      assert code == UnitAt(data, offset, i);
      if code == 0 {
        break;
      }
      r := r + [CodeUnitChar(code)];
      i := i + 1;
    }
    assert i == n;
  }


  // ── Writing int32 runs (the inverse of the field reads) ────────────

  predicate IsInt32(x: int) {
    -TwoTo31 <= x < TwoTo31
  }

  /** `data` with the values xs stored as consecutive 32-bit fields from a. */
  function PutInts(data: seq<byte>, a: nat, xs: seq<int>): (r: seq<byte>)
    requires a + 4 * |xs| <= |data|
    ensures |r| == |data|
    decreases |xs|
  {
    if xs == [] then data else PutInts(Put32(data, a, xs[0]), a + 4, xs[1..])
  }

  /** Storing a run of values leaves every field outside the run as it was. */
  lemma {:induction false} PutIntsOther(data: seq<byte>, a: nat, xs: seq<int>, b: nat)
    requires a + 4 * |xs| <= |data| && b + 4 <= |data|
    requires b + 4 <= a || a + 4 * |xs| <= b
    ensures Int32At(PutInts(data, a, xs), b) == Int32At(data, b)
    decreases |xs|
  {
    if xs != [] {
      PutIntsOther(Put32(data, a, xs[0]), a + 4, xs[1..], b);
      ReadPut32Other(data, a, xs[0], b);
    }
  }

  /** Every value stored by `PutInts` reads back as a 32-bit field. */
  lemma {:induction false} ReadPutInts(data: seq<byte>, a: nat, xs: seq<int>, i: nat)
    requires a + 4 * |xs| <= |data|
    requires i < |xs| && IsInt32(xs[i])
    ensures Int32At(PutInts(data, a, xs), a + 4 * i) == xs[i]
    decreases i
  {
    var d1 := Put32(data, a, xs[0]);
    if i == 0 {
      PutIntsOther(d1, a + 4, xs[1..], a);
      ReadPut32Same(data, a, xs[0]);
    } else {
      assert xs[1..][i - 1] == xs[i];
      ReadPutInts(d1, a + 4, xs[1..], i - 1);
    }
  }

  // ── Records ────────────────────────────────────────────────────────

  datatype HeaderMatch = HeaderMatch(
    player1: string, player2: string, matchLength: int,
    crawford: bool, jacoby: bool, version: int, magic: nat)

  datatype HeaderGame = HeaderGame(score1: int, score2: int, crawfordApply: bool, gameNumber: int)

  /** The eight from/to points of a move record. */
  type MoveList = s: seq<int> | |s| == 8 witness [0, 0, 0, 0, 0, 0, 0, 0]

  datatype MoveEntry = MoveEntry(activePlayer: int, moves: MoveList, die1: int, die2: int, cubeA: int)

  datatype CubeEntry = CubeEntry(activePlayer: int, double: int, take: int, beaver: int, raccoon: int, cubeValue: int)

  datatype FooterGame = FooterGame(winner: int, pointsWon: int, termination: int)

  /** The length XG writes for a money session. */
  const UnlimitedLength: int := 99999

  /** A UTF-16 player name, which XG 24 and later store 880 + 258 * which bytes into the record. */
  function UnicodeName(data: seq<byte>, offset: nat, version: int, which: nat): Option<string>
    requires offset + RecordSize <= |data| && which < 2
  {
    if version >= 24 then
      var unicodeStart := 612 + (if version >= 8 then 8 else 0);
      var p1 := offset + unicodeStart + 2 + 258;
      var p2 := p1 + 258;
      if p2 + 258 <= |data| then Some(Utf16String(data, p1 + 258 * which, 129)) else None
    else None
  }

  /** A non-empty UTF-16 name wins over the Delphi one. */
  function PreferUnicode(unicode: Option<string>, delphi: string): (r: string)
    ensures r == delphi || (unicode == Some(r) && r != "")
  {
    if unicode.Some? && |unicode.value| > 0 then unicode.value else delphi
  }

  /** The two player names: the UTF-16 ones where XG 24 or later stored a non-empty one, else the Delphi ones. */
  function PlayerNames(data: seq<byte>, offset: nat, version: int): (names: (string, string))
    requires offset + RecordSize <= |data|
    ensures version < 24 ==> names == (DelphiString(data, offset + 9), DelphiString(data, offset + 50))
  {
    (PreferUnicode(UnicodeName(data, offset, version, 0), DelphiString(data, offset + 9)),
     PreferUnicode(UnicodeName(data, offset, version, 1), DelphiString(data, offset + 9 + 41)))
  }

  /** `parseHeaderMatch` */
  function HeaderMatchAt(data: seq<byte>, offset: nat): (r: HeaderMatch)
    requires offset + RecordSize <= |data|
    ensures r.matchLength != UnlimitedLength
    ensures r.matchLength == 0 <==> Int32At(data, offset + 92) in {0, UnlimitedLength}
    ensures r.version < 24 ==> r.player1 == DelphiString(data, offset + 9) && r.player2 == DelphiString(data, offset + 50)
  {
    var matchLength := Int32At(data, offset + 92);
    var version := Int32At(data, offset + 552);
    var names := PlayerNames(data, offset, version);
    HeaderMatch(
      names.0, names.1,
      if matchLength == UnlimitedLength then 0 else matchLength,
      data[offset + 100] != 0, data[offset + 101] != 0,
      version, Uint32At(data, offset + 556))
  }

  /** `parseHeaderGame` */
  function HeaderGameAt(data: seq<byte>, offset: nat): HeaderGame
    requires offset + RecordSize <= |data|
  {
    HeaderGame(Int32At(data, offset + 12), Int32At(data, offset + 16), data[offset + 20] != 0,
      Int32At(data, offset + 48))
  }

  /** The eight from/to points of `parseMoveEntry`. */
  function MovesAt(data: seq<byte>, offset: nat): MoveList
    requires offset + RecordSize <= |data|
  {
    seq(8, i requires 0 <= i < 8 => Int32At(data, offset + 68 + i * 4))
  }

  /** `parseMoveEntry`'s loop over the eight points. */
  method ReadMoves(data: seq<byte>, offset: nat) returns (moves: seq<int>)
    requires offset + RecordSize <= |data|
    ensures moves == MovesAt(data, offset)
  {
    moves := [];
    for i := 0 to 8
      invariant moves == MovesAt(data, offset)[..i]
    {
      moves := moves + [Int32At(data, offset + 68 + i * 4)];
    }
  }

  /** `parseMoveEntry` */
  function MoveEntryAt(data: seq<byte>, offset: nat): MoveEntry
    requires offset + RecordSize <= |data|
  {
    MoveEntry(Int32At(data, offset + 64), MovesAt(data, offset),
      Int32At(data, offset + 100), Int32At(data, offset + 104), Int32At(data, offset + 108))
  }

  /** `parseMoveEntry`, with its loop over the eight points. */
  method ReadMoveEntry(data: seq<byte>, offset: nat) returns (m: MoveEntry)
    requires offset + RecordSize <= |data|
    ensures m == MoveEntryAt(data, offset)
  {
    var moves := ReadMoves(data, offset);
    m := MoveEntry(Int32At(data, offset + 64), moves, Int32At(data, offset + 100),
      Int32At(data, offset + 104), Int32At(data, offset + 108));
  }

  /** `parseCubeEntry` */
  function CubeEntryAt(data: seq<byte>, offset: nat): CubeEntry
    requires offset + RecordSize <= |data|
  {
    CubeEntry(Int32At(data, offset + 12), Int32At(data, offset + 16), Int32At(data, offset + 20),
      Int32At(data, offset + 24), Int32At(data, offset + 28), Int32At(data, offset + 32))
  }

  /** `parseFooterGame` */
  function FooterGameAt(data: seq<byte>, offset: nat): FooterGame
    requires offset + RecordSize <= |data|
  {
    FooterGame(Int32At(data, offset + 24), Int32At(data, offset + 28), Int32At(data, offset + 32))
  }

  /** A cube record stores its six fields as consecutive 32-bit values from byte 12. */
  lemma CubeEntryRoundTrip(data: seq<byte>, offset: nat, c: CubeEntry)
    requires offset + RecordSize <= |data|
    requires IsInt32(c.activePlayer) && IsInt32(c.double) && IsInt32(c.take)
    requires IsInt32(c.beaver) && IsInt32(c.raccoon) && IsInt32(c.cubeValue)
    ensures CubeEntryAt(PutInts(data, offset + 12, [c.activePlayer, c.double, c.take, c.beaver, c.raccoon, c.cubeValue]), offset) == c
  {
    var xs := [c.activePlayer, c.double, c.take, c.beaver, c.raccoon, c.cubeValue];
    ReadPutInts(data, offset + 12, xs, 0);
    ReadPutInts(data, offset + 12, xs, 1);
    ReadPutInts(data, offset + 12, xs, 2);
    ReadPutInts(data, offset + 12, xs, 3);
    ReadPutInts(data, offset + 12, xs, 4);
    ReadPutInts(data, offset + 12, xs, 5);
  }

  /** A game footer stores winner, points won and termination as consecutive 32-bit values from byte 24. */
  lemma FooterGameRoundTrip(data: seq<byte>, offset: nat, f: FooterGame)
    requires offset + RecordSize <= |data|
    requires IsInt32(f.winner) && IsInt32(f.pointsWon) && IsInt32(f.termination)
    ensures FooterGameAt(PutInts(data, offset + 24, [f.winner, f.pointsWon, f.termination]), offset) == f
  {
    var xs := [f.winner, f.pointsWon, f.termination];
    ReadPutInts(data, offset + 24, xs, 0);
    ReadPutInts(data, offset + 24, xs, 1);
    ReadPutInts(data, offset + 24, xs, 2);
  }

  /** The twelve values of a move record, in the order the record stores them. */
  function MoveInts(m: MoveEntry): (xs: seq<int>)
    ensures |xs| == 12 && xs[1..9] == m.moves
    ensures xs[0] == m.activePlayer && xs[9] == m.die1 && xs[10] == m.die2 && xs[11] == m.cubeA
  {
    [m.activePlayer] + m.moves + [m.die1, m.die2, m.cubeA]
  }

  /**
    * A move record stores the active player, the eight points, the two dice
    * and the cube as twelve consecutive 32-bit values from byte 64.
    */
  lemma MoveEntryRoundTrip(data: seq<byte>, offset: nat, m: MoveEntry)
    requires offset + RecordSize <= |data|
    requires IsInt32(m.activePlayer) && IsInt32(m.die1) && IsInt32(m.die2) && IsInt32(m.cubeA)
    requires forall i :: 0 <= i < 8 ==> IsInt32(m.moves[i])
    ensures MoveEntryAt(PutInts(data, offset + 64, MoveInts(m)), offset) == m
  {
    var xs := MoveInts(m);
    forall i | 0 <= i < 12
      ensures Int32At(PutInts(data, offset + 64, xs), offset + 64 + 4 * i) == xs[i]
    {
      assert IsInt32(xs[i]) by {
        if 1 <= i < 9 {
          assert xs[i] == xs[1..9][i - 1];
        }
      }
      ReadPutInts(data, offset + 64, xs, i);
    }
    MoveEntryFromInts(PutInts(data, offset + 64, xs), offset, m);
  }

  /** A record whose twelve fields from byte 64 hold the values of m reads as m. */
  lemma MoveEntryFromInts(d: seq<byte>, offset: nat, m: MoveEntry)
    requires offset + RecordSize <= |d|
    requires forall i :: 0 <= i < 12 ==> Int32At(d, offset + 64 + 4 * i) == MoveInts(m)[i]
    ensures MoveEntryAt(d, offset) == m
  {
    var xs := MoveInts(m);
    MovesFromInts(d, offset, xs);
    assert Int32At(d, offset + 64 + 4 * 0) == xs[0];
    assert Int32At(d, offset + 64 + 4 * 9) == xs[9];
    assert Int32At(d, offset + 64 + 4 * 10) == xs[10];
    assert Int32At(d, offset + 64 + 4 * 11) == xs[11];
  }

  lemma MovesFromInts(d: seq<byte>, offset: nat, xs: seq<int>)
    requires offset + RecordSize <= |d| && |xs| == 12
    requires forall i :: 0 <= i < 12 ==> Int32At(d, offset + 64 + 4 * i) == xs[i]
    ensures MovesAt(d, offset) == xs[1..9]
  {
    forall i | 0 <= i < 8
      ensures MovesAt(d, offset)[i] == xs[i + 1]
    {
      assert MovesAt(d, offset)[i] == Int32At(d, offset + 68 + i * 4);
      assert offset + 68 + i * 4 == offset + 64 + 4 * (i + 1);
    }
  }

  /** A game header stores the two scores from byte 12 and the game number at byte 48. */
  lemma HeaderGameRoundTrip(data: seq<byte>, offset: nat, score1: int, score2: int, gameNumber: int)
    requires offset + RecordSize <= |data|
    requires IsInt32(score1) && IsInt32(score2) && IsInt32(gameNumber)
    ensures var h := HeaderGameAt(PutInts(PutInts(data, offset + 12, [score1, score2]), offset + 48, [gameNumber]), offset);
      h.score1 == score1 && h.score2 == score2 && h.gameNumber == gameNumber
  {
    var d1 := PutInts(data, offset + 12, [score1, score2]);
    var d2 := PutInts(d1, offset + 48, [gameNumber]);
    ReadPutInts(data, offset + 12, [score1, score2], 0);
    ReadPutInts(data, offset + 12, [score1, score2], 1);
    ReadPutInts(d1, offset + 48, [gameNumber], 0);
    PutIntsOther(d1, offset + 48, [gameNumber], offset + 12);
    PutIntsOther(d1, offset + 48, [gameNumber], offset + 16);
  }

  // ── The record scan ────────────────────────────────────────────────

  /** A record as the scan sees it: its tag and, for the tags it uses, the fields read from it. */
  datatype Record =
    | MatchRec(header: HeaderMatch)
    | GameRec(gameHeader: HeaderGame)
    | CubeRec(cube: CubeEntry)
    | MoveRec(move: MoveEntry)
    | GameEndRec(footer: FooterGame)
    | OtherRec(tag: nat)

  datatype Action = MoveAction(move: MoveEntry) | CubeAction(cube: CubeEntry)

  datatype Game = Game(header: HeaderGame, actions: seq<Action>, footer: Option<FooterGame>)

  /** What `parse` returns: the match header and the finished games. */
  datatype XgMatch = XgMatch(matchInfo: HeaderMatch, games: seq<Game>)

  /** The variables of `parse`'s record loop. */
  datatype Scan = Scan(matchInfo: Option<HeaderMatch>, fileVersion: int, games: seq<Game>, current: Option<Game>)

  /** `Math.floor(length / RECORD_SIZE)`: a trailing partial record is ignored. */
  function RecordCount(data: seq<byte>): nat {
    |data| / RecordSize
  }

  lemma RecordFits(data: seq<byte>, r: nat)
    requires r < RecordCount(data)
    ensures r * RecordSize + RecordSize <= |data|
  {
    var n := RecordCount(data);
    assert |data| == n * RecordSize + |data| % RecordSize;
    assert r * RecordSize + RecordSize <= n * RecordSize;
  }

  /** The entry type at byte 8 of record r. */
  function Tag(data: seq<byte>, r: nat): nat
    requires r < RecordCount(data)
  {
    RecordFits(data, r);
    data[r * RecordSize + 8] as int
  }

  /** Record r read according to its tag. */
  function RecordAt(data: seq<byte>, r: nat): (rec: Record)
    requires r < RecordCount(data)
    ensures rec.MatchRec? <==> Tag(data, r) == EntryHeaderMatch
    ensures rec.GameEndRec? <==> Tag(data, r) == EntryFooterGame
  {
    RecordFits(data, r);
    var off := r * RecordSize;
    var tag := Tag(data, r);
    if tag == EntryHeaderMatch then MatchRec(HeaderMatchAt(data, off))
    else if tag == EntryHeaderGame then GameRec(HeaderGameAt(data, off))
    else if tag == EntryCube then CubeRec(CubeEntryAt(data, off))
    else if tag == EntryMove then MoveRec(MoveEntryAt(data, off))
    else if tag == EntryFooterGame then GameEndRec(FooterGameAt(data, off))
    else OtherRec(tag)
  }

  /** The whole records of the payload, in order. */
  function Records(data: seq<byte>): (recs: seq<Record>)
    ensures |recs| == RecordCount(data)
  {
    seq(RecordCount(data), r requires 0 <= r < RecordCount(data) => RecordAt(data, r))
  }

  const InitialScan := Scan(None, -1, [], None)

  /**
    * What one record does to the loop's variables: a match header is kept
    * with its version; moves and cubes are dropped unless a game is open and
    * a cube is kept only when a double was offered; a game header replaces
    * an unfinished game; a footer closes the open game and appends it.
    */
  function Apply(s: Scan, rec: Record): Scan {
    match rec
    case MatchRec(h) => s.(matchInfo := Some(h), fileVersion := h.version)
    case GameRec(h) => s.(current := Some(Game(h, [], None)))
    case MoveRec(m) =>
      if s.current.Some? then s.(current := Some(s.current.value.(actions := s.current.value.actions + [MoveAction(m)])))
      else s
    case CubeRec(c) =>
      if s.current.Some? && c.double == 1 then
        s.(current := Some(s.current.value.(actions := s.current.value.actions + [CubeAction(c)])))
      else s
    case GameEndRec(f) =>
      if s.current.Some? then s.(games := s.games + [s.current.value.(footer := Some(f))], current := None)
      else s
    case OtherRec(_) => s
  }

  /** The loop's variables after the given records. */
  function ScanOf(recs: seq<Record>): Scan {
    if recs == [] then InitialScan else Apply(ScanOf(recs[..|recs| - 1]), recs[|recs| - 1])
  }

  predicate CubesAreDoubles(actions: seq<Action>) {
    forall i :: 0 <= i < |actions| && actions[i].CubeAction? ==> actions[i].cube.double == 1
  }

  /**
    * What the loop keeps true: every finished game has its footer, the open
    * game has none, only offered doubles are kept as cube actions, and the
    * file version is the match header's (or -1 before one).
    */
  predicate WellFormed(s: Scan) {
    (forall i :: 0 <= i < |s.games| ==> s.games[i].footer.Some? && CubesAreDoubles(s.games[i].actions))
    && (s.current.Some? ==> s.current.value.footer.None? && CubesAreDoubles(s.current.value.actions))
    && s.fileVersion == (if s.matchInfo.Some? then s.matchInfo.value.version else -1)
  }

  lemma AppendKeepsDoubles(actions: seq<Action>, a: Action)
    requires CubesAreDoubles(actions)
    requires a.CubeAction? ==> a.cube.double == 1
    ensures CubesAreDoubles(actions + [a])
  {
    var b := actions + [a];
    forall i | 0 <= i < |b| && b[i].CubeAction?
      ensures b[i].cube.double == 1
    {
      if i < |actions| {
        assert b[i] == actions[i];
      }
    }
  }

  lemma ApplyWellFormed(s: Scan, rec: Record)
    requires WellFormed(s)
    ensures WellFormed(Apply(s, rec))
  {
    if s.current.Some? {
      match rec
      case MoveRec(m) =>
        AppendKeepsDoubles(s.current.value.actions, MoveAction(m));
      case CubeRec(c) =>
        if c.double == 1 {
          AppendKeepsDoubles(s.current.value.actions, CubeAction(c));
        }
      case _ =>
    }
  }

  lemma {:induction false} ScanWellFormed(recs: seq<Record>)
    ensures WellFormed(ScanOf(recs))
  {
    if recs != [] {
      ScanWellFormed(recs[..|recs| - 1]);
      ApplyWellFormed(ScanOf(recs[..|recs| - 1]), recs[|recs| - 1]);
    }
  }

  /** Finished games are never changed or removed: the games after a prefix of the records are a prefix of the games after all of them. */
  lemma {:induction false} GamesOnlyGrow(recs: seq<Record>, n: nat)
    requires n <= |recs|
    ensures ScanOf(recs[..n]).games <= ScanOf(recs).games
    decreases |recs| - n
  {
    if n < |recs| {
      var init := recs[..|recs| - 1];
      assert recs[..n] == init[..n];
      GamesOnlyGrow(init, n);
      var a, b, c := ScanOf(init[..n]).games, ScanOf(init).games, ScanOf(recs).games;
      assert b <= c;
      assert a == b[..|a|] && b == c[..|b|];
      assert b[..|a|] == c[..|a|];
    } else {
      assert recs[..n] == recs;
    }
  }

  /** How many of the records are game footers. */
  function CountFooters(recs: seq<Record>): (c: nat)
    ensures c <= |recs|
  {
    if recs == [] then 0 else CountFooters(recs[..|recs| - 1]) + (if recs[|recs| - 1].GameEndRec? then 1 else 0)
  }

  /** Each finished game took a game-footer record, so there are no more games than footers. */
  lemma {:induction false} GamesAtMostFooters(recs: seq<Record>)
    ensures |ScanOf(recs).games| <= CountFooters(recs)
  {
    if recs != [] {
      GamesAtMostFooters(recs[..|recs| - 1]);
    }
  }

  /** Only a match-header record changes the match header the loop holds. */
  lemma ApplyMatchInfo(s: Scan, rec: Record)
    ensures Apply(s, rec).matchInfo == if rec.MatchRec? then Some(rec.header) else s.matchInfo
  {
  }

  /** The loop holds no match header exactly when no record is a match header. */
  lemma {:induction false} ScanMatchNone(recs: seq<Record>)
    ensures ScanOf(recs).matchInfo.None? <==> forall i :: 0 <= i < |recs| ==> !recs[i].MatchRec?
  {
    if recs != [] {
      var init, last := recs[..|recs| - 1], recs[|recs| - 1];
      ScanMatchNone(init);
      ApplyMatchInfo(ScanOf(init), last);
      assert forall i :: 0 <= i < |init| ==> init[i] == recs[i];
    }
  }

  /** Record i is a match header carrying h, and no later record is a match header. */
  predicate LastMatchAt(recs: seq<Record>, i: int, h: HeaderMatch) {
    0 <= i < |recs| && recs[i] == MatchRec(h) && forall j :: i < j < |recs| ==> !recs[j].MatchRec?
  }

  /** The match header the loop holds is the one of the last match-header record. */
  lemma {:induction false} ScanMatchLast(recs: seq<Record>)
    requires ScanOf(recs).matchInfo.Some?
    ensures exists i :: LastMatchAt(recs, i, ScanOf(recs).matchInfo.value)
  {
    assert recs != [];
    var init, last := recs[..|recs| - 1], recs[|recs| - 1];
    var h := ScanOf(recs).matchInfo.value;
    ApplyMatchInfo(ScanOf(init), last);
    if last.MatchRec? {
      assert LastMatchAt(recs, |recs| - 1, h);
    } else {
      ScanMatchLast(init);
      var i :| LastMatchAt(init, i, h);
      assert recs[i] == MatchRec(h);
      forall j | i < j < |recs|
        ensures !recs[j].MatchRec?
      {
        if j < |init| {
          assert recs[j] == init[j];
        }
      }
      assert LastMatchAt(recs, i, h);
    }
  }

  /** What `parse` makes of the records of the `temp.xg` payload. */
  function RecordsParsed(data: seq<byte>): (r: Result<XgMatch>)
    ensures r.Ok? ==> forall i :: 0 <= i < |r.value.games| ==>
      r.value.games[i].footer.Some? && CubesAreDoubles(r.value.games[i].actions)
  {
    var s := ScanOf(Records(data));
    ScanWellFormed(Records(data));
    if s.matchInfo.None? then Err(NoMatchHeader) else Ok(XgMatch(s.matchInfo.value, s.games))
  }

  /**
    * `parse` fails with "No match header" exactly when no whole record has
    * tag 0, and fails in no other way; otherwise it reports the last match
    * header and no more games than there were game footers.
    */
  lemma RecordsParsedSpec(data: seq<byte>)
    ensures RecordsParsed(data) == Err(NoMatchHeader)
      <==> forall r :: 0 <= r < RecordCount(data) ==> Tag(data, r) != EntryHeaderMatch
    ensures RecordsParsed(data).Ok? || RecordsParsed(data) == Err(NoMatchHeader)
    ensures RecordsParsed(data).Ok? ==>
      exists r :: 0 <= r < RecordCount(data) && Tag(data, r) == EntryHeaderMatch
        && Records(data)[r] == MatchRec(RecordsParsed(data).value.matchInfo)
        && forall q :: r < q < RecordCount(data) ==> Tag(data, q) != EntryHeaderMatch
    ensures RecordsParsed(data).Ok? ==> |RecordsParsed(data).value.games| <= CountFooters(Records(data))
  {
    var recs := Records(data);
    ScanMatchNone(recs);
    if ScanOf(recs).matchInfo.Some? {
      ScanMatchLast(recs);
      var i :| LastMatchAt(recs, i, ScanOf(recs).matchInfo.value);
    }
    GamesAtMostFooters(recs);
    forall r | 0 <= r < RecordCount(data)
      ensures recs[r].MatchRec? <==> Tag(data, r) == EntryHeaderMatch
    {
      assert recs[r] == RecordAt(data, r);
    }
  }

  /** The `switch` of `parse`'s record loop on the entry type of record rec. */
  method HandleRecord(data: seq<byte>, rec: nat, s: Scan) returns (t: Scan)
    requires rec < RecordCount(data)
    ensures t == Apply(s, RecordAt(data, rec))
  {
    RecordFits(data, rec);
    var matchInfo, fileVersion, games, currentGame := s.matchInfo, s.fileVersion, s.games, s.current;
    var recOffset := rec * RecordSize;
    var entryType := data[recOffset + 8] as int;
    ghost var record := RecordAt(data, rec);
    if entryType == EntryHeaderMatch {
      matchInfo := Some(HeaderMatchAt(data, recOffset));
      fileVersion := matchInfo.value.version;
      assert record == MatchRec(matchInfo.value);
    } else if entryType == EntryHeaderGame {
      currentGame := Some(Game(HeaderGameAt(data, recOffset), [], None));
      assert record == GameRec(currentGame.value.header);
    } else if entryType == EntryMove {
      assert record == MoveRec(MoveEntryAt(data, recOffset));
      if currentGame.Some? {
        var move := ReadMoveEntry(data, recOffset);
        currentGame := Some(currentGame.value.(actions := currentGame.value.actions + [MoveAction(move)]));
      }
    } else if entryType == EntryCube {
      assert record == CubeRec(CubeEntryAt(data, recOffset));
      if currentGame.Some? {
        var cubeData := CubeEntryAt(data, recOffset);
        if cubeData.double == 1 {
          currentGame := Some(currentGame.value.(actions := currentGame.value.actions + [CubeAction(cubeData)]));
        }
      }
    } else if entryType == EntryFooterGame {
      assert record == GameEndRec(FooterGameAt(data, recOffset));
      if currentGame.Some? {
        games := games + [currentGame.value.(footer := Some(FooterGameAt(data, recOffset)))];
        currentGame := None;
      }
    } else {
      assert record == OtherRec(entryType);
    }
    t := Scan(matchInfo, fileVersion, games, currentGame);
  }

  /** The scan of the first rec + 1 records is the scan of the first rec, then record rec. */
  lemma ScanPrefixStep(data: seq<byte>, rec: nat)
    requires rec < RecordCount(data)
    ensures ScanOf(Records(data)[..rec + 1]) == Apply(ScanOf(Records(data)[..rec]), RecordAt(data, rec))
  {
    var recs := Records(data)[..rec + 1];
    assert recs[..|recs| - 1] == Records(data)[..rec];
  }

  /** `parse`'s record loop, from `Math.floor(length / RECORD_SIZE)` to the "No match header" check. */
  method ScanRecords(data: seq<byte>) returns (r: Result<XgMatch>)
    ensures r == RecordsParsed(data)
  {
    var recordCount := |data| / RecordSize;
    var s := InitialScan;
    for rec := 0 to recordCount
      invariant s == ScanOf(Records(data)[..rec])
    {
      ScanPrefixStep(data, rec);
      s := HandleRecord(data, rec, s);
    }
    assert Records(data)[..recordCount] == Records(data);
    if s.matchInfo.None? {
      return Err(NoMatchHeader);
    }
    r := Ok(XgMatch(s.matchInfo.value, s.games));
  }
}
