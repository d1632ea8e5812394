/**
  * GNU Backgammon's ID: a Position ID (10 bytes, 14 base64 characters) and
  * an optional Match ID (9 bytes, 12 characters), separated by ':'.
  *
  * The Position ID is a TanBoard: for X then O, 25 entries (the 24 points
  * from that side's own ace point, then its bar), each written as that many
  * 1 bits followed by a 0 bit, padded with 0 bits to 80. The two halves of
  * the TanBoard are kept here as one 50-entry sequence, X's entries at
  * 0..24 and O's at 25..49.
  */
module Gnuid {
  import opened Common
  import opened Base64
  import opened Bits
  import opened Board

  const PositionIdBytes: nat := 10
  const PositionIdLength: nat := 14
  const MatchIdBytes: nat := 9
  const TanBoardEntries: nat := 50
  const PositionBits: nat := 80
  const MatchBitCount: nat := 72

  // ── Position ID: run-length decoding ───────────────────────────────

  /** The number of 1 bits from bit idx on. */
  function OnesFrom(bits: seq<Bit>, idx: nat): (k: nat)
    ensures idx + k <= |bits| || k == 0
    decreases |bits| - idx
  {
    if idx >= |bits| || bits[idx] == 0 then 0 else 1 + OnesFrom(bits, idx + 1)
  }

  /** The bit after the run at idx and the 0 bit that ends it. */
  function NextRun(bits: seq<Bit>, idx: nat): (next: nat)
    requires idx < |bits|
    ensures idx < next <= |bits|
  {
    var c := OnesFrom(bits, idx);
    if idx + c < |bits| then idx + c + 1 else idx + c
  }

  /**
    * The bit at which the decoder starts reading entry k: each entry's run
    * of 1 bits and the 0 bit after it are skipped; once the bits are used
    * up the index stays at the end.
    */
  function RunStart(bits: seq<Bit>, k: nat): (idx: nat)
    ensures idx <= |bits|
  {
    if k == 0 then 0
    else
      var prev := RunStart(bits, k - 1);
      if prev < |bits| then NextRun(bits, prev) else prev
  }

  /** Entry k as the decoder reads it: the run at its start bit, or 0 once the bits are used up. */
  function RunEntry(bits: seq<Bit>, k: nat): nat {
    var idx := RunStart(bits, k);
    if idx < |bits| then OnesFrom(bits, idx) else 0
  }

  /** The 50 TanBoard entries decoded from bits. */
  function TanBoardOf(bits: seq<Bit>): (b: seq<nat>)
    ensures |b| == TanBoardEntries
  {
    seq(TanBoardEntries, k requires 0 <= k < TanBoardEntries => RunEntry(bits, k))
  }

  /** The inner loop of `decodePositionId`: counts the 1 bits from bit start on. */
  method CountRun(bits: seq<Bit>, start: nat) returns (checkers: nat, bitIdx: nat)
    requires start <= |bits|
    ensures checkers == OnesFrom(bits, start) && bitIdx == start + checkers && bitIdx <= |bits|
    ensures bitIdx < |bits| ==> bits[bitIdx] == 0
  {
    checkers, bitIdx := 0, start;
    while bitIdx < |bits| && bits[bitIdx] == 1
      invariant start <= bitIdx <= |bits| && checkers == bitIdx - start
      invariant OnesFrom(bits, start) == checkers + OnesFrom(bits, bitIdx)
      decreases |bits| - bitIdx
    {
      checkers := checkers + 1;
      bitIdx := bitIdx + 1;
    }
  }

  /** Once the decoder has used up the bits, every later entry is 0. */
  lemma {:induction false} RunStartAtEnd(bits: seq<Bit>, slot: nat, k: nat)
    requires RunStart(bits, slot) >= |bits| && slot <= k
    ensures RunStart(bits, k) >= |bits| && RunEntry(bits, k) == 0
    decreases k - slot
  {
    if k > slot {
      RunStartAtEnd(bits, slot, k - 1);
    }
  }

  /** The next entry starts after this entry's run and the 0 bit that ends it. */
  lemma RunStartNext(bits: seq<Bit>, slot: nat, idx: nat)
    requires idx == RunStart(bits, slot) < |bits|
    ensures RunStart(bits, slot + 1) == NextRun(bits, idx)
    ensures RunEntry(bits, slot) == OnesFrom(bits, idx)
  {
  }

  /** The TanBoard loop of `decodePositionId`; entry 25 * player + point is `anBoard[player][point]`. */
  method DecodeTanBoard(bits: seq<Bit>) returns (anBoard: seq<nat>)
    ensures anBoard == TanBoardOf(bits)
  {
    var board: seq<nat> := seq(50, _ => 0);
    var bitIdx, player, point := 0, 0, 0;
    ghost var slot := 0;
    while bitIdx < |bits| && player < 2
      invariant 0 <= player <= 2 && 0 <= point < 25 && (player == 2 ==> point == 0)
      invariant slot == 25 * player + point
      invariant bitIdx == RunStart(bits, slot)
      invariant |board| == 50
      invariant forall q :: 0 <= q < slot ==> board[q] == RunEntry(bits, q)
      invariant forall q :: slot <= q < 50 ==> board[q] == 0
      decreases 50 - slot
    {
      ghost var start := bitIdx;
      var checkers;
      checkers, bitIdx := CountRun(bits, bitIdx);
      if point < 25 {
        board := board[25 * player + point := checkers];
      }
      if bitIdx < |bits| && bits[bitIdx] == 0 {
        bitIdx := bitIdx + 1;
      }
      RunStartNext(bits, slot, start);
      assert RunEntry(bits, slot) == checkers;
      point := point + 1;
      if point >= 25 {
        player := player + 1;
        point := 0;
      }
      slot := slot + 1;
    }
    forall q | slot <= q < 50
      ensures board[q] == RunEntry(bits, q)
    {
      RunStartAtEnd(bits, slot, q);
    }
    anBoard := board;
  }

  /**
    * The slots of a TanBoard: point i (1..24) gets X's entry 24 - i minus
    * O's entry i - 1, X's bar slot 0 gets X's entry 24 and O's bar slot 25
    * minus O's entry 24.
    */
  function TanBoardPoints(b: seq<int>): Points
    requires |b| == 50
  {
    seq(26, i requires 0 <= i < 26 =>
      if i == 0 then b[24] else if i == 25 then -b[49] else b[24 - i] - b[24 + i])
  }

  /** The TanBoard-to-position loops of `decodePositionId`. */
  method TanBoardToPoints(b: seq<int>) returns (points: Points)
    requires |b| == 50
    ensures points == TanBoardPoints(b)
  {
    var a := new int[26](_ => 0);
    for i := 0 to 24
      invariant forall j :: 0 <= j < 26 ==> a[j] == (if 24 - i < j <= 24 then b[24 - j] else 0)
    {
      a[24 - i] := a[24 - i] + b[i];
    }
    a[0] := b[24];
    for k := 0 to 24
      invariant a[0] == b[24] && a[25] == 0
      invariant forall j :: 1 <= j <= 24 ==> a[j] == b[24 - j] - (if j <= k then b[24 + j] else 0)
    {
      a[k + 1] := a[k + 1] - b[25 + k];
    }
    a[25] := -b[49];
    points := a[..];
  }

  /** What `decodePositionId` returns or throws. */
  function PositionIdDecoded(posId: string): Result<Position> {
    match B64ToBytes(posId)
    case None => Err(Base64Invalid)
    case Some(bytes) =>
      if |bytes| != PositionIdBytes then Err(GnuidPositionBytes)
      else Ok(WithBorneOff(Position(TanBoardPoints(TanBoardOf(BitsOf(bytes))), 0, 0)))
  }

  /** `decodePositionId` */
  method DecodePositionId(posId: string) returns (r: Result<Position>)
    ensures r == PositionIdDecoded(posId)
  {
    var raw := DecodeB64(posId);
    if raw.None? {
      return Err(Base64Invalid);
    }
    var bytes := raw.value;
    if |bytes| != PositionIdBytes {
      return Err(GnuidPositionBytes);
    }
    var bits := BytesToBits(bytes);
    var anBoard := DecodeTanBoard(bits);
    var points := TanBoardToPoints(anBoard);
    var pos := CalcBorneOff(Position(points, 0, 0));
    assert pos == WithBorneOff(Position(points, 0, 0));
    r := Ok(pos);
  }

  // ── Position ID: encoding ──────────────────────────────────────────

  /**
    * The TanBoard `encodePositionId` builds: X's checkers on point 24 - q
    * at entry q, the X bar count as it stands (even if negative), O's
    * checkers on point q - 24 at entry q (25..48) and O's bar at 49.
    */
  function PositionTanBoard(points: Points): (b: seq<int>)
    ensures |b| == 50
  {
    seq(50, q requires 0 <= q < 50 =>
      if q < 24 then Max(points[24 - q], 0)
      else if q == 24 then points[0]
      else if q < 49 then Max(-points[q - 24], 0)
      else Max(-points[25], 0))
  }

  /** The position-to-TanBoard loops of `encodePositionId`. */
  method EncodeTanBoard(points: Points) returns (b: seq<int>)
    ensures b == PositionTanBoard(points)
  {
    var a := new int[50](_ => 0);
    for pt := 1 to 25
      invariant forall q :: 0 <= q < 50 ==> a[q] == (if 24 - pt < q < 24 then Max(points[24 - q], 0) else 0)
    {
      if points[pt] > 0 {
        a[24 - pt] := points[pt];
      }
    }
    a[24] := points[0];
    for pt2 := 1 to 25
      invariant forall q :: 0 <= q < 25 ==> a[q] == PositionTanBoard(points)[q]
      invariant forall q :: 25 <= q < 50 ==> a[q] == (if q < 24 + pt2 then Max(-points[q - 24], 0) else 0)
    {
      if points[pt2] < 0 {
        a[25 + pt2 - 1] := -points[pt2];
      }
    }
    a[49] := if points[25] < 0 then -points[25] else 0;
    b := a[..];
  }

  /** n 1 bits (none for n <= 0). */
  function Ones(n: int): (s: seq<Bit>)
    ensures |s| == Max(n, 0)
  {
    seq(Max(n, 0), _ => 1)
  }

  /** Each entry as that many 1 bits and a 0 bit. */
  function RunBits(b: seq<int>): seq<Bit> {
    if b == [] then [] else RunBits(b[..|b| - 1]) + Ones(b[|b| - 1]) + [0]
  }

  lemma RunBitsSnoc(b: seq<int>, x: int)
    ensures RunBits(b + [x]) == RunBits(b) + Ones(x) + [0]
  {
    assert (b + [x])[..|b|] == b;
  }

  /** The checkers a TanBoard holds: its positive entries added up. */
  function TanBoardCheckers(b: seq<int>): nat {
    if b == [] then 0 else TanBoardCheckers(b[..|b| - 1]) + Max(b[|b| - 1], 0)
  }

  lemma {:induction false} RunBitsLength(b: seq<int>)
    ensures |RunBits(b)| == |b| + TanBoardCheckers(b)
  {
    if b != [] {
      RunBitsLength(b[..|b| - 1]);
    }
  }

  /** The bit loops of `encodePositionId`. */
  method TanBoardBits(board: seq<int>) returns (bits: seq<Bit>)
    ensures bits == RunBits(board)
  {
    bits := [];
    for slot := 0 to |board|
      invariant bits == RunBits(board[..slot])
    {
      var c := 0;
      while c < board[slot]
        invariant bits == RunBits(board[..slot]) + Ones(c)
        invariant c == 0 || c <= board[slot]
        decreases board[slot] - c
      {
        bits := bits + [1];
        c := c + 1;
        assert Ones(c) == Ones(c - 1) + [1];
      }
      assert Ones(c) == Ones(board[slot]);
      bits := bits + [0];
      assert board[..slot + 1] == board[..slot] + [board[slot]];
      RunBitsSnoc(board[..slot], board[slot]);
    }
    assert board[..|board|] == board;
  }

  /** bits followed by 0 bits up to length n. */
  function PadBits(bits: seq<Bit>, n: nat): (r: seq<Bit>)
    ensures |r| == Max(n, |bits|) && r[..|bits|] == bits
    ensures forall i :: |bits| <= i < |r| ==> r[i] == 0
  {
    bits + seq(Max(n - |bits|, 0), _ => 0)
  }

  /** The padding loop of `encodePositionId`. */
  method PadTo80(bits: seq<Bit>) returns (r: seq<Bit>)
    ensures r == PadBits(bits, PositionBits)
  {
    r := bits;
    while |r| < PositionBits
      invariant r == bits + seq(|r| - |bits|, _ => 0)
      invariant |bits| <= |r| <= Max(PositionBits, |bits|)
      decreases PositionBits - |r|
    {
      r := r + [0];
    }
  }

  /** What `encodePositionId` returns. */
  function PositionIdEncoded(points: Points): string {
    BytesToB64(PackedBytes(PadBits(RunBits(PositionTanBoard(points)), PositionBits), PositionIdBytes))
  }

  /** `encodePositionId` */
  method EncodePositionId(pos: Position) returns (s: string)
    ensures s == PositionIdEncoded(pos.points)
  {
    var anBoard := EncodeTanBoard(pos.points);
    var bits := TanBoardBits(anBoard);
    bits := PadTo80(bits);
    var bytes := BitsToBytes(bits, PositionIdBytes);
    s := BytesToB64(bytes);
  }

  // ── Position ID: round trip ────────────────────────────────────────

  /** Each entry at least 0. */
  function Clamped(b: seq<int>): (r: seq<nat>)
    ensures |r| == |b|
  {
    seq(|b|, i requires 0 <= i < |b| => Max(b[i], 0))
  }

  /** A run of exactly c 1 bits at bit i, ended by a 0 bit or by the end of the bits. */
  lemma {:induction false} OnesFromRun(bits: seq<Bit>, i: nat, c: nat)
    requires i + c <= |bits|
    requires forall j :: i <= j < i + c ==> bits[j] == 1
    requires i + c < |bits| ==> bits[i + c] == 0
    ensures OnesFrom(bits, i) == c
    decreases c
  {
    if c > 0 {
      OnesFromRun(bits, i + 1, c - 1);
    }
  }

  /** The bits written for the first k entries start the bits written for all of them. */
  lemma {:induction false} RunBitsPrefix(b: seq<int>, k: nat)
    requires k <= |b|
    ensures RunBits(b[..k]) <= RunBits(b)
    decreases |b| - k
  {
    if k == |b| {
      assert b[..k] == b;
    } else {
      RunBitsPrefix(b, k + 1);
      assert b[..k + 1][..k] == b[..k];
    }
  }

  /** Reading at the start of entry k's run gives the entry back, a negative one as 0. */
  lemma RunAt(b: seq<int>, t: seq<Bit>, k: nat)
    requires k < |b|
    ensures var bits, pre := RunBits(b) + t, |RunBits(b[..k])|;
      pre < |bits| && OnesFrom(bits, pre) == Max(b[k], 0) && NextRun(bits, pre) == |RunBits(b[..k + 1])|
  {
    var bits := RunBits(b) + t;
    var pre := RunBits(b[..k]);
    var c := Max(b[k], 0);
    var full := RunBits(b[..k + 1]);
    assert b[..k + 1][..k] == b[..k];
    assert full == pre + Ones(b[k]) + [0];
    RunBitsPrefix(b, k + 1);
    assert forall j :: 0 <= j < |full| ==> bits[j] == full[j];
    forall j | |pre| <= j < |pre| + c
      ensures bits[j] == 1
    {
      assert full[j] == Ones(b[k])[j - |pre|];
    }
    assert full[|pre| + c] == 0;
    OnesFromRun(bits, |pre|, c);
  }

  /**
    * Reading back what `RunBits` wrote, whatever follows it: entry k starts
    * right after the runs of the entries before it and reads entry k back,
    * a negative entry as 0.
    */
  lemma {:induction false} RunsOfRunBits(b: seq<int>, t: seq<Bit>, k: nat)
    requires k <= |b|
    ensures RunStart(RunBits(b) + t, k) == |RunBits(b[..k])|
    ensures k < |b| ==> RunEntry(RunBits(b) + t, k) == Max(b[k], 0)
    decreases k
  {
    if k > 0 {
      RunsOfRunBits(b, t, k - 1);
      RunAt(b, t, k - 1);
    }
    if k < |b| {
      RunAt(b, t, k);
    }
  }

  /** The TanBoard decoded from what `RunBits` wrote for 50 entries. */
  lemma TanBoardOfRunBits(b: seq<int>, t: seq<Bit>)
    requires |b| == TanBoardEntries
    ensures TanBoardOf(RunBits(b) + t) == Clamped(b)
  {
    forall k | 0 <= k < |b|
      ensures TanBoardOf(RunBits(b) + t)[k] == Clamped(b)[k]
    {
      RunsOfRunBits(b, t, k);
    }
  }

  /**
    * The position `decodePositionId` gives back for what `encodePositionId`
    * wrote: the points unchanged, but O's checkers on X's bar (a negative
    * slot 0) and X's checkers on O's bar (a positive slot 25) dropped.
    */
  function GnuidNormalized(points: Points): Points {
    points[0 := Max(points[0], 0)][25 := Min(points[25], 0)]
  }

  lemma TanBoardPointsRoundTrip(points: Points)
    ensures TanBoardPoints(Clamped(PositionTanBoard(points))) == GnuidNormalized(points)
  {
    var b := Clamped(PositionTanBoard(points));
    forall i | 1 <= i < 25
      ensures TanBoardPoints(b)[i] == points[i]
    {
      assert b[24 - i] == Max(points[i], 0);
      assert b[24 + i] == Max(-points[i], 0);
    }
  }

  /**
    * A Position ID round trip: while the TanBoard holds at most 30
    * checkers (so that its bits fit in 80), decoding the 14 characters
    * `encodePositionId` wrote gives the position back, normalised as
    * `GnuidNormalized` says, with borne-off counts recomputed.
    */
  lemma PositionIdRoundTrip(points: Points)
    requires TanBoardCheckers(PositionTanBoard(points)) <= 30
    ensures |PositionIdEncoded(points)| == PositionIdLength
    ensures PositionIdDecoded(PositionIdEncoded(points)) == Ok(WithBorneOff(Position(GnuidNormalized(points), 0, 0)))
  {
    var board := PositionTanBoard(points);
    var runs := RunBits(board);
    RunBitsLength(board);
    var bits := PadBits(runs, PositionBits);
    assert |bits| == 80;
    var bytes := PackedBytes(bits, PositionIdBytes);
    B64RoundTrip(bytes);
    EncodedLength(bytes);
    BitsOfPacked(bits, PositionIdBytes);
    assert bits == runs + bits[|runs|..];
    TanBoardOfRunBits(board, bits[|runs|..]);
    TanBoardPointsRoundTrip(points);
  }

  // ── Match ID ───────────────────────────────────────────────────────

  /** The cube-owner field: 3 centered, 0 O's cube, 1 X's cube. */
  function OwnerValue(owner: CubeOwner): nat {
    match owner
    case Centered => 3
    case OOwns => 0
    case XOwns => 1
  }

  /** 3 is centered, 0 is O's cube, anything else X's. */
  function OwnerOfValue(v: nat): CubeOwner {
    if v == 3 then Centered else if v == 0 then OOwns else XOwns
  }

  /** Bits 0..5 of the Match ID: log2 of the cube value, then the cube owner. */
  function CubeBits(meta: Metadata): (bits: seq<Bit>)
    ensures |bits| == MatchBitCount
  {
    var zeros: seq<Bit> := seq(72, _ => 0);
    WithBits(WithBits(zeros, 0, 4, FloorLog2(OrOne(meta.cubeValue))), 4, 2, OwnerValue(meta.cubeOwner))
  }

  /** The Crawford bit (7), the constant 1 in bits 8..10 and the turn bit (11). */
  function FlagBits(meta: Metadata): (bits: seq<Bit>)
    ensures |bits| == MatchBitCount
  {
    var withCrawford := CubeBits(meta)[7 := if meta.crawford then 1 else 0];
    WithBits(withCrawford, 8, 3, 1)[11 := if meta.onRoll == Some(O) then 0 else 1]
  }

  /** The dice in bits 15..17 and 18..20, written only when there are dice. */
  function DiceBits(meta: Metadata): (bits: seq<Bit>)
    ensures |bits| == MatchBitCount
  {
    var flags := FlagBits(meta);
    if meta.dice.Some? then WithBits(WithBits(flags, 15, 3, meta.dice.value.d1), 18, 3, meta.dice.value.d2)
    else flags
  }

  /** The 72 bits `encodeMatchId` fills in before packing them into 9 bytes: match length, O's score, X's score last. */
  function MatchBits(meta: Metadata): (bits: seq<Bit>)
    ensures |bits| == MatchBitCount
  {
    var withLength := WithBits(DiceBits(meta), 21, 15, OrZero(meta.matchLength));
    WithBits(WithBits(withLength, 36, 15, OrZero(meta.scoreO)), 51, 15, OrZero(meta.scoreX))
  }

  /** What `encodeMatchId` returns. */
  function MatchIdEncoded(meta: Metadata): string {
    BytesToB64(PackedBytes(MatchBits(meta), MatchIdBytes))
  }

  /** `encodeMatchId` */
  method EncodeMatchId(meta: Metadata) returns (s: string)
    ensures s == MatchIdEncoded(meta)
  {
    var bits := new Bit[72](_ => 0);
    var cubeLog := Log2(OrOne(meta.cubeValue));
    SetBits(bits, 0, 4, cubeLog);
    SetBits(bits, 4, 2, OwnerValue(meta.cubeOwner));
    assert bits[..] == CubeBits(meta);
    bits[7] := if meta.crawford then 1 else 0;
    SetBits(bits, 8, 3, 1);
    bits[11] := if meta.onRoll == Some(O) then 0 else 1;
    assert bits[..] == FlagBits(meta);
    if meta.dice.Some? {
      SetBits(bits, 15, 3, meta.dice.value.d1);
      SetBits(bits, 18, 3, meta.dice.value.d2);
    }
    assert bits[..] == DiceBits(meta);
    SetBits(bits, 21, 15, OrZero(meta.matchLength));
    SetBits(bits, 36, 15, OrZero(meta.scoreO));
    SetBits(bits, 51, 15, OrZero(meta.scoreX));
    assert bits[..] == MatchBits(meta);
    var bytes := BitsToBytes(bits[..], MatchIdBytes);
    s := BytesToB64(bytes);
  }

  /** The metadata `decodeMatchId` reads from the bits. */
  function MatchFromBits(bits: seq<Bit>): Metadata {
    var cubeLog := ExtractValue(bits, 0, 4);
    var die0 := ExtractValue(bits, 15, 3);
    var die1 := ExtractValue(bits, 18, 3);
    Metadata(
      cubeValue := Int(if cubeLog < 15 then Pow2(cubeLog) else 1),
      cubeOwner := OwnerOfValue(ExtractValue(bits, 4, 2)),
      onRoll := Some(if BitAt(bits, 11) == 0 then O else X),
      xgidTurn := None,
      dice := if die0 > 0 && die1 > 0 then Some(Dice(die0, die1)) else None,
      scoreX := Int(ExtractValue(bits, 51, 15)),
      scoreO := Int(ExtractValue(bits, 36, 15)),
      matchLength := Int(ExtractValue(bits, 21, 15)),
      crawford := BitAt(bits, 7) == 1)
  }

  /** What `decodeMatchId` returns or throws. */
  function MatchIdDecoded(matchId: string): Result<Metadata> {
    match B64ToBytes(matchId)
    case None => Err(Base64Invalid)
    case Some(bytes) =>
      if |bytes| != MatchIdBytes then Err(GnuidMatchBytes)
      else Ok(MatchFromBits(BitsOf(bytes)))
  }

  /** `decodeMatchId` */
  method DecodeMatchId(matchId: string) returns (r: Result<Metadata>)
    ensures r == MatchIdDecoded(matchId)
  {
    var raw := DecodeB64(matchId);
    if raw.None? {
      return Err(Base64Invalid);
    }
    var bytes := raw.value;
    if |bytes| != MatchIdBytes {
      return Err(GnuidMatchBytes);
    }
    var bits := BytesToBits(bytes);
    var cubeLog := ExtractBits(bits, 0, 4);
    var cubeOwnerBits := ExtractBits(bits, 4, 2);
    var crawford := bits[7] == 1;
    var turnBit := bits[11];
    var die0 := ExtractBits(bits, 15, 3);
    var die1 := ExtractBits(bits, 18, 3);
    var matchLength := ExtractBits(bits, 21, 15);
    var scoreO := ExtractBits(bits, 36, 15);
    var scoreX := ExtractBits(bits, 51, 15);
    var meta := Metadata(
      cubeValue := Int(if cubeLog < 15 then Pow2(cubeLog) else 1),
      cubeOwner := OwnerOfValue(cubeOwnerBits),
      onRoll := Some(if turnBit == 0 then O else X),
      xgidTurn := None,
      dice := if die0 > 0 && die1 > 0 then Some(Dice(die0, die1)) else None,
      scoreX := Int(scoreX),
      scoreO := Int(scoreO),
      matchLength := Int(matchLength),
      crawford := crawford);
    assert meta == MatchFromBits(bits);
    r := Ok(meta);
  }

  // ── Match ID: round trip ───────────────────────────────────────────

  /** The count bits from start hold the low bits of x. */
  predicate FieldHolds(bits: seq<Bit>, start: nat, count: nat, x: int) {
    forall m :: 0 <= m < count ==> BitAt(bits, start + m) == BitOfInt(x, m)
  }

  lemma SetHolds(bits: seq<Bit>, start: nat, count: nat, x: int)
    requires start + count <= |bits|
    ensures FieldHolds(WithBits(bits, start, count, x), start, count, x)
  {
  }

  /** a and b agree everywhere except possibly on positions lo .. hi-1. */
  predicate SameOutside(a: seq<Bit>, b: seq<Bit>, lo: nat, hi: nat) {
    |a| == |b| && forall i :: 0 <= i < |a| && (i < lo || hi <= i) ==> a[i] == b[i]
  }

  /** A field that lies outside the positions where a and b may differ holds in b when it holds in a. */
  lemma Transfer(a: seq<Bit>, b: seq<Bit>, lo: nat, hi: nat, start: nat, count: nat, x: int)
    requires SameOutside(a, b, lo, hi) && start + count <= |a|
    requires start + count <= lo || hi <= start
    requires FieldHolds(a, start, count, x)
    ensures FieldHolds(b, start, count, x)
  {
    forall m | 0 <= m < count
      ensures BitAt(b, start + m) == BitOfInt(x, m)
    {
      assert BitAt(b, start + m) == BitAt(a, start + m);
    }
  }

  /** A field read back from bits that hold it gives the value when it fits. */
  lemma ReadField(bits: seq<Bit>, start: nat, count: nat, x: int)
    requires FieldHolds(bits, start, count, x) && 0 <= x < Pow2(count)
    ensures ExtractValue(bits, start, count) == x
  {
    ExtractMatching(bits, start, count, x);
    DivSmall(x, Pow2(count));
  }

  lemma Pow2Values()
    ensures Pow2(1) == 2 && Pow2(2) == 4 && Pow2(3) == 8 && Pow2(4) == 16 && Pow2(15) == 32768
  {
    assert Pow2(4) == 16;
    assert Pow2(8) == 256;
    assert Pow2(12) == 4096;
  }

  lemma CubeBitsFields(meta: Metadata)
    ensures FieldHolds(CubeBits(meta), 0, 4, FloorLog2(OrOne(meta.cubeValue)))
    ensures FieldHolds(CubeBits(meta), 4, 2, OwnerValue(meta.cubeOwner))
    ensures SameOutside(seq(72, _ => 0), CubeBits(meta), 0, 6)
  {
    var zeros: seq<Bit> := seq(72, _ => 0);
    var cube := FloorLog2(OrOne(meta.cubeValue));
    var b1 := WithBits(zeros, 0, 4, cube);
    SetHolds(zeros, 0, 4, cube);
    SetHolds(b1, 4, 2, OwnerValue(meta.cubeOwner));
    assert SameOutside(b1, CubeBits(meta), 4, 6);
    Transfer(b1, CubeBits(meta), 4, 6, 0, 4, cube);
  }

  lemma FlagBitsFields(meta: Metadata)
    ensures FieldHolds(FlagBits(meta), 0, 4, FloorLog2(OrOne(meta.cubeValue)))
    ensures FieldHolds(FlagBits(meta), 4, 2, OwnerValue(meta.cubeOwner))
    ensures FieldHolds(FlagBits(meta), 7, 1, if meta.crawford then 1 else 0)
    ensures FieldHolds(FlagBits(meta), 11, 1, if meta.onRoll == Some(O) then 0 else 1)
    ensures SameOutside(seq(72, _ => 0), FlagBits(meta), 0, 12)
  {
    CubeBitsFields(meta);
    FlagsWritten(meta);
    var cube := CubeBits(meta);
    var flags := FlagBits(meta);
    Transfer(cube, flags, 7, 12, 0, 4, FloorLog2(OrOne(meta.cubeValue)));
    Transfer(cube, flags, 7, 12, 4, 2, OwnerValue(meta.cubeOwner));
    SameOutsideWiden(seq(72, _ => 0), cube, flags, 0, 6, 7, 12);
  }

  /** The flag bits change only bits 7..11 of the cube bits, and hold the Crawford and turn bits. */
  lemma FlagsWritten(meta: Metadata)
    ensures SameOutside(CubeBits(meta), FlagBits(meta), 7, 12)
    ensures FieldHolds(FlagBits(meta), 7, 1, if meta.crawford then 1 else 0)
    ensures FieldHolds(FlagBits(meta), 11, 1, if meta.onRoll == Some(O) then 0 else 1)
  {
    var withCrawford := CubeBits(meta)[7 := if meta.crawford then 1 else 0];
    var withOnes := WithBits(withCrawford, 8, 3, 1);
    assert SameOutside(CubeBits(meta), withCrawford, 7, 8);
    assert SameOutside(withCrawford, withOnes, 8, 11);
    assert FlagBits(meta)[7] == withCrawford[7];
  }

  /** Two changes confined to two ranges are confined to the range spanning both. */
  lemma SameOutsideWiden(a: seq<Bit>, b: seq<Bit>, c: seq<Bit>, lo1: nat, hi1: nat, lo2: nat, hi2: nat)
    requires SameOutside(a, b, lo1, hi1) && SameOutside(b, c, lo2, hi2) && lo1 <= hi1 <= lo2 <= hi2
    ensures SameOutside(a, c, lo1, hi2)
  {
  }

  lemma DiceBitsFields(meta: Metadata)
    ensures FieldHolds(DiceBits(meta), 0, 4, FloorLog2(OrOne(meta.cubeValue)))
    ensures FieldHolds(DiceBits(meta), 4, 2, OwnerValue(meta.cubeOwner))
    ensures FieldHolds(DiceBits(meta), 7, 1, if meta.crawford then 1 else 0)
    ensures FieldHolds(DiceBits(meta), 11, 1, if meta.onRoll == Some(O) then 0 else 1)
    ensures FieldHolds(DiceBits(meta), 15, 3, if meta.dice.Some? then meta.dice.value.d1 else 0)
    ensures FieldHolds(DiceBits(meta), 18, 3, if meta.dice.Some? then meta.dice.value.d2 else 0)
  {
    FlagBitsFields(meta);
    var flags := FlagBits(meta);
    var dice := DiceBits(meta);
    if meta.dice.Some? {
      var d1, d2 := meta.dice.value.d1, meta.dice.value.d2;
      var b1 := WithBits(flags, 15, 3, d1);
      SetHolds(flags, 15, 3, d1);
      SetHolds(b1, 18, 3, d2);
      assert SameOutside(b1, dice, 18, 21);
      Transfer(b1, dice, 18, 21, 15, 3, d1);
      assert SameOutside(flags, dice, 15, 21);
      Transfer(flags, dice, 15, 21, 0, 4, FloorLog2(OrOne(meta.cubeValue)));
      Transfer(flags, dice, 15, 21, 4, 2, OwnerValue(meta.cubeOwner));
      Transfer(flags, dice, 15, 21, 7, 1, if meta.crawford then 1 else 0);
      Transfer(flags, dice, 15, 21, 11, 1, if meta.onRoll == Some(O) then 0 else 1);
    } else {
      var zeros: seq<Bit> := seq(72, _ => 0);
      assert FieldHolds(zeros, 15, 3, 0) && FieldHolds(zeros, 18, 3, 0);
      Transfer(zeros, flags, 0, 12, 15, 3, 0);
      Transfer(zeros, flags, 0, 12, 18, 3, 0);
    }
  }

  /** Every field `encodeMatchId` writes is in place in the final bits. */
  lemma MatchBitsFields(meta: Metadata)
    ensures var bits := MatchBits(meta);
      && FieldHolds(bits, 0, 4, FloorLog2(OrOne(meta.cubeValue)))
      && FieldHolds(bits, 4, 2, OwnerValue(meta.cubeOwner))
      && FieldHolds(bits, 7, 1, if meta.crawford then 1 else 0)
      && FieldHolds(bits, 11, 1, if meta.onRoll == Some(O) then 0 else 1)
      && FieldHolds(bits, 15, 3, if meta.dice.Some? then meta.dice.value.d1 else 0)
      && FieldHolds(bits, 18, 3, if meta.dice.Some? then meta.dice.value.d2 else 0)
      && FieldHolds(bits, 21, 15, OrZero(meta.matchLength))
      && FieldHolds(bits, 36, 15, OrZero(meta.scoreO))
      && FieldHolds(bits, 51, 15, OrZero(meta.scoreX))
  {
    DiceBitsFields(meta);
    var dice := DiceBits(meta);
    var bits := MatchBits(meta);
    var ml, so, sx := OrZero(meta.matchLength), OrZero(meta.scoreO), OrZero(meta.scoreX);
    var b1 := WithBits(dice, 21, 15, ml);
    var b2 := WithBits(b1, 36, 15, so);
    SetHolds(dice, 21, 15, ml);
    SetHolds(b1, 36, 15, so);
    SetHolds(b2, 51, 15, sx);
    assert SameOutside(b1, bits, 36, 66);
    Transfer(b1, bits, 36, 66, 21, 15, ml);
    assert SameOutside(b2, bits, 51, 66);
    Transfer(b2, bits, 51, 66, 36, 15, so);
    assert SameOutside(dice, bits, 21, 66);
    Transfer(dice, bits, 21, 66, 0, 4, FloorLog2(OrOne(meta.cubeValue)));
    Transfer(dice, bits, 21, 66, 4, 2, OwnerValue(meta.cubeOwner));
    Transfer(dice, bits, 21, 66, 7, 1, if meta.crawford then 1 else 0);
    Transfer(dice, bits, 21, 66, 11, 1, if meta.onRoll == Some(O) then 0 else 1);
    Transfer(dice, bits, 21, 66, 15, 3, if meta.dice.Some? then meta.dice.value.d1 else 0);
    Transfer(dice, bits, 21, 66, 18, 3, if meta.dice.Some? then meta.dice.value.d2 else 0);
  }

  /** The metadata as `decodeMatchId` reports it back: X on roll unless O was, NaN numbers as 0, no XGID turn. */
  function MatchReadBack(meta: Metadata): Metadata {
    meta.(onRoll := Some(if meta.onRoll == Some(O) then O else X), xgidTurn := None,
          scoreX := Int(OrZero(meta.scoreX)), scoreO := Int(OrZero(meta.scoreO)),
          matchLength := Int(OrZero(meta.matchLength)))
  }

  /** The cube, owner, flag and dice fields read back as written. */
  lemma HeaderReadBack(meta: Metadata, k: nat)
    requires meta.cubeValue == Int(Pow2(k)) && k < 15
    requires meta.dice.Some? ==> 1 <= meta.dice.value.d1 < 8 && 1 <= meta.dice.value.d2 < 8
    ensures var bits := MatchBits(meta);
      && ExtractValue(bits, 0, 4) == k
      && ExtractValue(bits, 4, 2) == OwnerValue(meta.cubeOwner)
      && ExtractValue(bits, 15, 3) == (if meta.dice.Some? then meta.dice.value.d1 else 0)
      && ExtractValue(bits, 18, 3) == (if meta.dice.Some? then meta.dice.value.d2 else 0)
      && BitAt(bits, 7) == (if meta.crawford then 1 else 0)
      && BitAt(bits, 11) == (if meta.onRoll == Some(O) then 0 else 1)
  {
    MatchBitsFields(meta);
    CubeReadBack(MatchBits(meta), meta, k);
    DiceReadBack(MatchBits(meta), meta);
    FlagsReadBack(MatchBits(meta), meta);
  }

  lemma CubeReadBack(bits: seq<Bit>, meta: Metadata, k: nat)
    requires meta.cubeValue == Int(Pow2(k)) && k < 15
    requires FieldHolds(bits, 0, 4, FloorLog2(OrOne(meta.cubeValue)))
    requires FieldHolds(bits, 4, 2, OwnerValue(meta.cubeOwner))
    ensures ExtractValue(bits, 0, 4) == k
    ensures ExtractValue(bits, 4, 2) == OwnerValue(meta.cubeOwner)
  {
    Pow2Values();
    assert OrOne(meta.cubeValue) == Pow2(k);
    Log2OfPow2(k);
    ReadField(bits, 0, 4, k);
    ReadField(bits, 4, 2, OwnerValue(meta.cubeOwner));
  }

  lemma DiceReadBack(bits: seq<Bit>, meta: Metadata)
    requires meta.dice.Some? ==> 1 <= meta.dice.value.d1 < 8 && 1 <= meta.dice.value.d2 < 8
    requires FieldHolds(bits, 15, 3, if meta.dice.Some? then meta.dice.value.d1 else 0)
    requires FieldHolds(bits, 18, 3, if meta.dice.Some? then meta.dice.value.d2 else 0)
    ensures ExtractValue(bits, 15, 3) == (if meta.dice.Some? then meta.dice.value.d1 else 0)
    ensures ExtractValue(bits, 18, 3) == (if meta.dice.Some? then meta.dice.value.d2 else 0)
  {
    Pow2Values();
    ReadField(bits, 15, 3, if meta.dice.Some? then meta.dice.value.d1 else 0);
    ReadField(bits, 18, 3, if meta.dice.Some? then meta.dice.value.d2 else 0);
  }

  lemma FlagsReadBack(bits: seq<Bit>, meta: Metadata)
    requires FieldHolds(bits, 7, 1, if meta.crawford then 1 else 0)
    requires FieldHolds(bits, 11, 1, if meta.onRoll == Some(O) then 0 else 1)
    ensures BitAt(bits, 7) == (if meta.crawford then 1 else 0)
    ensures BitAt(bits, 11) == (if meta.onRoll == Some(O) then 0 else 1)
  {
    assert BitAt(bits, 7 + 0) == BitOfInt(if meta.crawford then 1 else 0, 0);
    assert BitAt(bits, 11 + 0) == BitOfInt(if meta.onRoll == Some(O) then 0 else 1, 0);
  }

  /** The match length and the two scores read back as written. */
  lemma CountsReadBack(meta: Metadata)
    requires 0 <= OrZero(meta.matchLength) < 32768
    requires 0 <= OrZero(meta.scoreO) < 32768 && 0 <= OrZero(meta.scoreX) < 32768
    ensures var bits := MatchBits(meta);
      && ExtractValue(bits, 21, 15) == OrZero(meta.matchLength)
      && ExtractValue(bits, 36, 15) == OrZero(meta.scoreO)
      && ExtractValue(bits, 51, 15) == OrZero(meta.scoreX)
  {
    var bits := MatchBits(meta);
    MatchBitsFields(meta);
    Pow2Values();
    ReadField(bits, 21, 15, OrZero(meta.matchLength));
    ReadField(bits, 36, 15, OrZero(meta.scoreO));
    ReadField(bits, 51, 15, OrZero(meta.scoreX));
  }

  /** Reading the fields back from the bits `encodeMatchId` wrote gives the metadata, when every field fits. */
  lemma MatchBitsReadBack(meta: Metadata, k: nat)
    requires meta.cubeValue == Int(Pow2(k)) && k < 15
    requires meta.dice.Some? ==> 1 <= meta.dice.value.d1 < 8 && 1 <= meta.dice.value.d2 < 8
    requires 0 <= OrZero(meta.matchLength) < 32768
    requires 0 <= OrZero(meta.scoreO) < 32768 && 0 <= OrZero(meta.scoreX) < 32768
    ensures MatchFromBits(MatchBits(meta)) == MatchReadBack(meta)
  {
    HeaderReadBack(meta, k);
    CountsReadBack(meta);
    assert OwnerOfValue(OwnerValue(meta.cubeOwner)) == meta.cubeOwner;
  }

  /**
    * A Match ID round trip: decoding what `encodeMatchId` wrote gives the
    * metadata back when every field fits its bits: a cube of 2^k with
    * k < 15, dice 1..7, and match length and scores below 2^15.
    */
  lemma MatchIdRoundTrip(meta: Metadata, k: nat)
    requires meta.cubeValue == Int(Pow2(k)) && k < 15
    requires meta.dice.Some? ==> 1 <= meta.dice.value.d1 < 8 && 1 <= meta.dice.value.d2 < 8
    requires 0 <= OrZero(meta.matchLength) < 32768
    requires 0 <= OrZero(meta.scoreO) < 32768 && 0 <= OrZero(meta.scoreX) < 32768
    ensures |MatchIdEncoded(meta)| == 12
    ensures MatchIdDecoded(MatchIdEncoded(meta)) == Ok(MatchReadBack(meta))
  {
    var bits := MatchBits(meta);
    var bytes := PackedBytes(bits, MatchIdBytes);
    B64RoundTrip(bytes);
    EncodedLength(bytes);
    BitsOfPacked(bits, MatchIdBytes);
    MatchBitsReadBack(meta, k);
  }

  // ── GNUID: Position ID ":" Match ID ────────────────────────────────

  /** Drops a leading `GNUID=`, `GNUBGID=` or `GNUBGID ` in any case. */
  function StripGnuidPrefix(s: string): string {
    if StartsWithUpper(s, "GNUID=") then s[6..]
    else if StartsWithUpper(s, "GNUBGID=") then s[8..]
    else if StartsWithUpper(s, "GNUBGID ") then s[8..]
    else s
  }

  /** The metadata `parseGNUID` assumes when there is no Match ID. */
  function DefaultGnuidMetadata(): Metadata {
    Metadata(Int(1), Centered, Some(X), None, None, Int(0), Int(0), Int(0), false)
  }

  /** What `parseGNUID` returns or throws once the Position ID and the Match ID text are cut out. */
  function GnuidFromIds(posId: string, matchIdStr: string): Result<Parsed> {
    if |posId| != PositionIdLength then Err(GnuidPositionLength)
    else
      var pos :- PositionIdDecoded(posId);
      var meta :- if matchIdStr != "" then MatchIdDecoded(matchIdStr) else Ok(DefaultGnuidMetadata());
      Ok(Parsed(pos, meta))
  }

  /** What `parseGNUID` returns or throws: a missing or blank Match ID means the default metadata. */
  function GnuidDecoded(input: string): Result<Parsed> {
    var parts := Split(StripGnuidPrefix(Trim(input)), ':');
    GnuidFromIds(Trim(parts[0]), if |parts| > 1 then Trim(parts[1]) else "")
  }

  /** `parseGNUID` */
  method ParseGnuid(input: string) returns (r: Result<Parsed>)
    ensures r == GnuidDecoded(input)
  {
    var s := Trim(input);
    if StartsWithUpper(s, "GNUID=") {
      s := s[6..];
    } else if StartsWithUpper(s, "GNUBGID=") {
      s := s[8..];
    } else if StartsWithUpper(s, "GNUBGID ") {
      s := s[8..];
    }
    var parts := Split(s, ':');
    var posId := Trim(parts[0]);
    var matchIdStr := if |parts| > 1 then Trim(parts[1]) else "";
    if |posId| != PositionIdLength {
      return Err(GnuidPositionLength);
    }
    var pos := DecodePositionId(posId);
    if pos.Err? {
      return Err(pos.error);
    }
    var meta: Result<Metadata>;
    if matchIdStr != "" {
      meta := DecodeMatchId(matchIdStr);
    } else {
      meta := Ok(DefaultGnuidMetadata());
    }
    if meta.Err? {
      return Err(meta.error);
    }
    r := Ok(Parsed(pos.value, meta.value));
  }

  /** What `encodeGNUID` returns. */
  function GnuidEncoded(points: Points, meta: Metadata): string {
    PositionIdEncoded(points) + ":" + MatchIdEncoded(meta)
  }

  /** `encodeGNUID` */
  method EncodeGnuid(pos: Position, meta: Metadata) returns (s: string)
    ensures s == GnuidEncoded(pos.points, meta)
  {
    var posId := EncodePositionId(pos);
    var matchId := EncodeMatchId(meta);
    s := posId + ":" + matchId;
  }

  // ── GNUID: round trip ──────────────────────────────────────────────

  /** Base64 text has no white space, so trimming leaves it alone. */
  lemma TrimB64(s: string)
    requires AllB64(s)
    ensures Trim(s) == s
  {
    TrimNoSpace(s);
  }

  /** An encoded GNUID carries no prefix, so nothing is stripped from it. */
  lemma NoGnuidPrefix(s: string)
    requires |s| >= 8 && IsB64Char(s[5]) && IsB64Char(s[7])
    ensures StripGnuidPrefix(s) == s
  {
    assert Upper(s[5]) != '=';
    assert Upper(s[7]) != '=' && Upper(s[7]) != ' ';
  }

  /** Two Base64 texts joined by a colon are cut back into the two. */
  lemma GnuidCut(p: string, m: string)
    requires AllB64(p) && AllB64(m) && |p| >= 8
    ensures GnuidDecoded(p + ":" + m) == GnuidFromIds(p, m)
  {
    NoGnuidPrefixJoined(p, m);
    TrimJoined(p, m);
    SplitPair(p, m);
    TrimB64(p);
    TrimB64(m);
  }

  lemma NoGnuidPrefixJoined(p: string, m: string)
    requires AllB64(p) && |p| >= 8
    ensures StripGnuidPrefix(p + ":" + m) == p + ":" + m
  {
    var s := p + ":" + m;
    assert s[5] == p[5] && s[7] == p[7];
    NoGnuidPrefix(s);
  }

  lemma TrimJoined(p: string, m: string)
    requires AllB64(p) && AllB64(m)
    ensures Trim(p + ":" + m) == p + ":" + m
  {
    var s := p + ":" + m;
    forall i | 0 <= i < |s|
      ensures !IsJsSpace(s[i])
    {
      if i < |p| { assert s[i] == p[i]; } else if i > |p| { assert s[i] == m[i - |p| - 1]; }
    }
    TrimNoSpace(s);
  }

  lemma SplitPair(p: string, m: string)
    requires AllB64(p) && AllB64(m)
    ensures Split(p + ":" + m, ':') == [p, m]
  {
    NoColonInB64(p);
    NoColonInB64(m);
    assert Join([p, m], ':') == p + ":" + m;
    SplitJoin([p, m], ':');
  }

  /** A Base64 text on its own is the Position ID, with no Match ID. */
  lemma GnuidCutAlone(p: string)
    requires AllB64(p) && |p| >= 8
    ensures GnuidDecoded(p) == GnuidFromIds(p, "")
  {
    TrimB64(p);
    NoGnuidPrefix(p);
    SplitAlone(p);
  }

  lemma SplitAlone(p: string)
    requires AllB64(p)
    ensures Split(p, ':') == [p]
  {
    NoColonInB64(p);
    assert Join([p], ':') == p;
    SplitJoin([p], ':');
  }

  lemma NoColonInB64(s: string)
    requires AllB64(s)
    ensures ':' !in s
  {
    forall i | 0 <= i < |s| ensures s[i] != ':' {
      assert IsB64Char(s[i]);
    }
  }

  /**
    * A GNUID round trip: the string `encodeGNUID` writes is parsed back to
    * the position (bars normalised as the Position ID keeps them, borne-off
    * counts recomputed) and to the metadata as the Match ID reports it,
    * when every field fits the bits the two IDs give it.
    */
  lemma GnuidRoundTrip(points: Points, meta: Metadata, k: nat)
    requires TanBoardCheckers(PositionTanBoard(points)) <= 30
    requires meta.cubeValue == Int(Pow2(k)) && k < 15
    requires meta.dice.Some? ==> 1 <= meta.dice.value.d1 < 8 && 1 <= meta.dice.value.d2 < 8
    requires 0 <= OrZero(meta.matchLength) < 32768
    requires 0 <= OrZero(meta.scoreO) < 32768 && 0 <= OrZero(meta.scoreX) < 32768
    ensures GnuidDecoded(GnuidEncoded(points, meta))
      == Ok(Parsed(WithBorneOff(Position(GnuidNormalized(points), 0, 0)), MatchReadBack(meta)))
  {
    var p, m := PositionIdEncoded(points), MatchIdEncoded(meta);
    PositionIdRoundTrip(points);
    MatchIdRoundTrip(meta, k);
    assert AllB64(p) && AllB64(m);
    GnuidCut(p, m);
  }

  /** A Position ID on its own parses with the default metadata: centered cube, X on roll, money game. */
  lemma GnuidPositionOnly(points: Points)
    requires TanBoardCheckers(PositionTanBoard(points)) <= 30
    ensures GnuidDecoded(PositionIdEncoded(points))
      == Ok(Parsed(WithBorneOff(Position(GnuidNormalized(points), 0, 0)), DefaultGnuidMetadata()))
  {
    var p := PositionIdEncoded(points);
    PositionIdRoundTrip(points);
    assert AllB64(p);
    GnuidCutAlone(p);
  }
}
