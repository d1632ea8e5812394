/**
  * XGID, eXtreme Gammon's position ID: "XGID=" followed by colon-separated
  * fields, the first being one character per slot ('-' for empty, a letter
  * 'a'..'p' or 'A'..'P' for 1..16 checkers, the case telling the side).
  * When X is on roll (turn other than 1) the slots are read in reverse
  * order, and for turn = -1 the cube position is negated and the scores are
  * swapped, so that the same physical player stays X in the model.
  */
module Xgid {
  import opened Common
  import opened Board

  const XgidPrefix: string := "XGID="

  predicate IsXgidChar(c: char) {
    c == '-' || 'a' <= c <= 'p' || 'A' <= c <= 'P'
  }

  // ── One slot ───────────────────────────────────────────────────────

  /**
    * `decodeCheckerCount`: '-' is 0, 'a'..'p' and 'A'..'P' are 1..16; for
    * turn 1 lower case is X (positive), otherwise lower case is O.
    */
  function DecodeCheckerCount(ch: char, turn: JsNumber): (r: Result<int>)
    ensures r.Ok? <==> IsXgidChar(ch)
    ensures r.Ok? ==> -16 <= r.value <= 16 && (r.value == 0 <==> ch == '-')
  {
    if ch == '-' then Ok(0)
    else if 'a' <= ch <= 'p' || 'A' <= ch <= 'P' then
      var isLower := 'a' <= ch <= 'p';
      var count := if isLower then ch as int - 96 else ch as int - 64;
      if turn == Int(1) then Ok(if isLower then count else -count)
      else Ok(if isLower then -count else count)
    else Err(InvalidXgidChar)
  }

  /** `encodeCheckerCount`: the inverse mapping, with counts above 16 clamped to 16. */
  function EncodeCheckerCount(count: int, turn: JsNumber): (ch: char)
    ensures IsXgidChar(ch)
    ensures ch == '-' <==> count == 0
  {
    if count == 0 then '-'
    else
      var abs := Min(Abs(count), 16);
      if turn == Int(1) then (if count > 0 then (96 + abs) as char else (64 + abs) as char)
      else (if count > 0 then (64 + abs) as char else (96 + abs) as char)
  }

  /** Decoding what was encoded for the same turn gives the count back, for counts -16..16. */
  lemma CountRoundTrip(count: int, turn: JsNumber)
    requires -16 <= count <= 16
    ensures DecodeCheckerCount(EncodeCheckerCount(count, turn), turn) == Ok(count)
  {
  }

  /** A count beyond 16 checkers comes back as 16 of the same side. */
  lemma CountClamped(count: int, turn: JsNumber)
    requires count > 16 || count < -16
    ensures DecodeCheckerCount(EncodeCheckerCount(count, turn), turn) == Ok(if count > 0 then 16 else -16)
  {
  }

  /** Encoding what was decoded gives the character back. */
  lemma CharRoundTrip(ch: char, turn: JsNumber)
    requires IsXgidChar(ch)
    ensures EncodeCheckerCount(DecodeCheckerCount(ch, turn).value, turn) == ch
  {
  }

  // ── The position field ─────────────────────────────────────────────

  /** The character of the position field that slot i is read from and written to. */
  function SourceSlot(turn: JsNumber, i: nat): (k: nat)
    requires i < Slots
    ensures k < Slots && (if turn == Int(1) then k == i else k == 25 - i)
  {
    if turn == Int(1) then i else 25 - i
  }

  /** Slots lo .. hi-1 of points hold what their characters of posStr decode to. */
  predicate DecodedSlots(points: seq<int>, posStr: string, turn: JsNumber, lo: nat, hi: nat)
    requires |points| == 26 && |posStr| == 26 && hi <= 26
  {
    forall k :: lo <= k < hi ==>
      IsXgidChar(posStr[SourceSlot(turn, k)]) && points[k] == DecodeCheckerCount(posStr[SourceSlot(turn, k)], turn).value
  }

  /** The slots of a 26-character position field, or the error the first bad character raises. */
  function DecodeSlots(posStr: string, turn: JsNumber): (r: Result<Points>)
    requires |posStr| == 26
    ensures r.Ok? <==> forall i :: 0 <= i < 26 ==> IsXgidChar(posStr[i])
    ensures r.Ok? ==> DecodedSlots(r.value, posStr, turn, 0, 26)
  {
    if forall i :: 0 <= i < 26 ==> IsXgidChar(posStr[i]) then
      Ok(seq(26, i requires 0 <= i < 26 => DecodeCheckerCount(posStr[SourceSlot(turn, i)], turn).value))
    else Err(InvalidXgidChar)
  }

  /** Two slot sequences that both decode posStr are the same. */
  lemma DecodedSlotsUnique(a: Points, b: Points, posStr: string, turn: JsNumber)
    requires |posStr| == 26
    requires DecodedSlots(a, posStr, turn, 0, 26) && DecodedSlots(b, posStr, turn, 0, 26)
    ensures a == b
  {
    assert forall k :: 0 <= k < 26 ==> a[k] == b[k];
  }

  /** A character of posStr that is not a slot character makes the decoding fail. */
  lemma DecodeSlotsFails(posStr: string, turn: JsNumber, i: nat)
    requires |posStr| == 26 && i < 26 && !IsXgidChar(posStr[SourceSlot(turn, i)])
    ensures DecodeSlots(posStr, turn) == Err(InvalidXgidChar)
  {
  }

  /** All 26 characters of posStr are read, whichever turn. */
  lemma DecodedAll(points: seq<int>, posStr: string, turn: JsNumber)
    requires |points| == 26 && |posStr| == 26 && DecodedSlots(points, posStr, turn, 0, 26)
    ensures forall i :: 0 <= i < 26 ==> IsXgidChar(posStr[i])
  {
    forall i | 0 <= i < 26
      ensures IsXgidChar(posStr[i])
    {
      assert SourceSlot(turn, SourceSlot(turn, i)) == i;
    }
  }

  /** The position loops of `parseXGID`. */
  method DecodeXgidSlots(posStr: string, turn: JsNumber) returns (r: Result<Points>)
    requires |posStr| == 26
    ensures r == DecodeSlots(posStr, turn)
  {
    if turn == Int(1) {
      r := DecodeSlotsForward(posStr, turn);
    } else {
      r := DecodeSlotsReversed(posStr, turn);
    }
  }

  /** Turn 1: slot i from character i. */
  method DecodeSlotsForward(posStr: string, turn: JsNumber) returns (r: Result<Points>)
    requires |posStr| == 26 && turn == Int(1)
    ensures r == DecodeSlots(posStr, turn)
  {
    var points := new int[26](_ => 0);
    for i := 0 to 26
      invariant DecodedSlots(points[..], posStr, turn, 0, i)
    {
      var c := DecodeCheckerCount(posStr[i], turn);
      if c.Err? {
        DecodeSlotsFails(posStr, turn, i);
        return Err(c.error);
      }
      points[i] := c.value;
    }
    r := Ok(points[..]);
    DecodedSlotsOk(points[..], posStr, turn);
  }

  /** Any other turn: the bar slots first, then slot j from character 25 - j. */
  method DecodeSlotsReversed(posStr: string, turn: JsNumber) returns (r: Result<Points>)
    requires |posStr| == 26 && turn != Int(1)
    ensures r == DecodeSlots(posStr, turn)
  {
    var points := new int[26](_ => 0);
    var c0 := DecodeCheckerCount(posStr[25], turn);
    if c0.Err? {
      DecodeSlotsFails(posStr, turn, 0);
      return Err(c0.error);
    }
    points[0] := c0.value;
    var c25 := DecodeCheckerCount(posStr[0], turn);
    if c25.Err? {
      DecodeSlotsFails(posStr, turn, 25);
      return Err(c25.error);
    }
    points[25] := c25.value;
    for j := 1 to 25
      invariant DecodedSlots(points[..], posStr, turn, 0, 1)
      invariant DecodedSlots(points[..], posStr, turn, 25, 26)
      invariant DecodedSlots(points[..], posStr, turn, 1, j)
    {
      var c := DecodeCheckerCount(posStr[25 - j], turn);
      if c.Err? {
        DecodeSlotsFails(posStr, turn, j);
        return Err(c.error);
      }
      points[j] := c.value;
    }
    r := Ok(points[..]);
    DecodedSlotsOk(points[..], posStr, turn);
  }

  /** Slots that decode all of posStr are what DecodeSlots returns. */
  lemma DecodedSlotsOk(points: seq<int>, posStr: string, turn: JsNumber)
    requires |points| == 26 && |posStr| == 26 && DecodedSlots(points, posStr, turn, 0, 26)
    ensures DecodeSlots(posStr, turn) == Ok(points)
  {
    DecodedAll(points, posStr, turn);
    DecodedSlotsUnique(points, DecodeSlots(posStr, turn).value, posStr, turn);
  }

  // ── Metadata fields ────────────────────────────────────────────────

  /** `-n` for a number that may be NaN. */
  function Negate(n: JsNumber): JsNumber {
    match n
    case NaN => NaN
    case Int(v) => Int(-v)
  }

  /** 0 is centered, -1 is X's cube, anything else (NaN included) is O's. */
  function XgidCubeOwner(cubePos: JsNumber): CubeOwner {
    if cubePos == Int(0) then Centered else if cubePos == Int(-1) then XOwns else OOwns
  }

  /** The dice field: a pair only for exactly two digits (after upper case and trim), each 1..6. */
  function XgidDice(diceStr: string): Option<Dice> {
    DicePair(Trim(UpperString(diceStr)))
  }

  /** The dice of a trimmed, upper-cased dice field. */
  function DicePair(t: string): Option<Dice> {
    if t == "00" || t == "D" || t == "B" || t == "R" then None
    else if |t| == 2 && AllDigits(t) then
      var d1 := DigitValue(t[0]);
      var d2 := DigitValue(t[1]);
      if 1 <= d1 <= 6 && 1 <= d2 <= 6 then Some(Dice(d1, d2)) else None
    else None
  }

  /** Dice are read exactly when the trimmed field is two digits, each between 1 and 6. */
  lemma XgidDiceExactly(diceStr: string, a: int, b: int)
    ensures XgidDice(diceStr) == Some(Dice(a, b))
        <==> 1 <= a <= 6 && 1 <= b <= 6 && Trim(UpperString(diceStr)) == [DigitChar(a), DigitChar(b)]
  {
    DicePairExactly(Trim(UpperString(diceStr)), a, b);
  }

  lemma DicePairExactly(t: string, a: int, b: int)
    ensures DicePair(t) == Some(Dice(a, b)) <==> 1 <= a <= 6 && 1 <= b <= 6 && t == [DigitChar(a), DigitChar(b)]
  {
    if 1 <= a <= 6 && 1 <= b <= 6 && t == [DigitChar(a), DigitChar(b)] {
      assert t != "00";
      assert AllDigits(t);
      DigitRoundTrip(a);
      DigitRoundTrip(b);
    }
  }

  lemma DigitRoundTrip(d: int)
    requires 0 <= d < 10
    ensures DigitValue(DigitChar(d)) == d
  {
  }

  // ── parseXGID ──────────────────────────────────────────────────────

  /** The input with a leading "XGID=" (any case) removed. */
  function StripXgidPrefix(s: string): string {
    if StartsWithUpper(s, XgidPrefix) then s[5..] else s
  }

  /** The metadata `parseXGID` builds from the fields after the position. */
  function XgidMetadata(parts: seq<string>): Metadata
    requires |parts| >= 9
  {
    var cubeLog := ParseInt(parts[1]);
    var cubePos := ParseInt(parts[2]);
    var turn := ParseInt(parts[3]);
    var scoreO := ParseInt(parts[5]);
    var scoreX := ParseInt(parts[6]);
    var flipped := turn == Int(-1);
    Metadata(
      cubeValue := if cubeLog.Int? && cubeLog.v >= 0 then Int(Pow2(cubeLog.v)) else Int(1),
      cubeOwner := XgidCubeOwner(if flipped then Negate(cubePos) else cubePos),
      onRoll := Some(O),
      xgidTurn := Some(turn),
      dice := XgidDice(parts[4]),
      scoreX := if flipped then scoreO else scoreX,
      scoreO := if flipped then scoreX else scoreO,
      matchLength := ParseInt(parts[8]),
      crawford := ParseInt(parts[7]) == Int(1))
  }

  /** What `parseXGID` returns or throws for the colon-separated fields. */
  function XgidFromParts(parts: seq<string>): (r: Result<Parsed>)
    ensures |parts| < 9 ==> r == Err(XgidFieldCount)
    ensures |parts| >= 9 && |parts[0]| != 26 ==> r == Err(XgidPositionLength)
    ensures r.Ok? ==> r.value.metadata == XgidMetadata(parts) && r.value.metadata.onRoll == Some(O)
  {
    if |parts| < 9 then Err(XgidFieldCount)
    else if |parts[0]| != 26 then Err(XgidPositionLength)
    else
      var points :- DecodeSlots(parts[0], ParseInt(parts[3]));
      Ok(Parsed(WithBorneOff(Position(points, 0, 0)), XgidMetadata(parts)))
  }

  /** What `parseXGID` returns or throws. */
  function XgidDecoded(input: string): Result<Parsed> {
    XgidFromParts(Split(StripXgidPrefix(input), ':'))
  }

  /** `parseXGID`: strips the prefix and splits the fields. */
  method ParseXgid(input: string) returns (r: Result<Parsed>)
    ensures r == XgidDecoded(input)
  {
    var s := input;
    if StartsWithUpper(s, XgidPrefix) {
      s := s[5..];
    }
    var parts := Split(s, ':');
    r := ParseXgidFields(parts);
  }

  /** `parseXGID` from the field count check on. */
  method ParseXgidFields(parts: seq<string>) returns (r: Result<Parsed>)
    ensures r == XgidFromParts(parts)
  {
    if |parts| < 9 {
      return Err(XgidFieldCount);
    }
    var posStr := parts[0];
    if |posStr| != 26 {
      return Err(XgidPositionLength);
    }
    var turn := ParseInt(parts[3]);
    var points :- DecodeXgidSlots(posStr, turn);
    var pos := CalcBorneOff(Position(points, 0, 0));
    var meta := ReadXgidMetadata(parts);
    assert pos == WithBorneOff(Position(points, 0, 0));
    r := Ok(Parsed(pos, meta));
  }

  /**
   * The metadata part of `parseXGID`, kept as statements because the source
   * reads it that way: each field into a local, then the turn -1 swap of the
   * cube position and the scores. XgidMetadata is its specification.
   */
  method ReadXgidMetadata(parts: seq<string>) returns (meta: Metadata)
    requires |parts| >= 9
    ensures meta == XgidMetadata(parts)
  {
    var cubeLog := ParseInt(parts[1]);
    var cubePos := ParseInt(parts[2]);
    var turn := ParseInt(parts[3]);
    var diceStr := parts[4];
    var scoreO := ParseInt(parts[5]);
    var scoreX := ParseInt(parts[6]);
    var cj := ParseInt(parts[7]);
    var ml := ParseInt(parts[8]);
    if turn == Int(-1) {
      cubePos := Negate(cubePos);
      scoreX, scoreO := scoreO, scoreX;
    }
    meta := Metadata(
      cubeValue := if cubeLog.Int? && cubeLog.v >= 0 then Int(Pow2(cubeLog.v)) else Int(1),
      cubeOwner := XgidCubeOwner(cubePos),
      onRoll := Some(O),
      xgidTurn := Some(turn),
      dice := XgidDice(diceStr),
      scoreX := scoreX,
      scoreO := scoreO,
      matchLength := ml,
      crawford := cj == Int(1));
  }

  /** For turn -1 the slots are read from the far end, the cube position is negated and the scores swap. */
  lemma XgidReversed(input: string)
    requires XgidDecoded(input).Ok?
    requires ParseInt(Split(StripXgidPrefix(input), ':')[3]) == Int(-1)
    ensures var parts := Split(StripXgidPrefix(input), ':');
      var r := XgidDecoded(input).value;
      && (forall j :: 0 <= j < 26 ==> r.position.points[j] == DecodeCheckerCount(parts[0][25 - j], Int(-1)).value)
      && r.metadata.cubeOwner == XgidCubeOwner(Negate(ParseInt(parts[2])))
      && r.metadata.scoreX == ParseInt(parts[5])
      && r.metadata.scoreO == ParseInt(parts[6])
  {
    FromPartsReversed(Split(StripXgidPrefix(input), ':'));
  }

  lemma FromPartsReversed(parts: seq<string>)
    requires XgidFromParts(parts).Ok? && ParseInt(parts[3]) == Int(-1)
    ensures var r := XgidFromParts(parts).value;
      && (forall j :: 0 <= j < 26 ==> r.position.points[j] == DecodeCheckerCount(parts[0][25 - j], Int(-1)).value)
      && r.metadata.cubeOwner == XgidCubeOwner(Negate(ParseInt(parts[2])))
      && r.metadata.scoreX == ParseInt(parts[5])
      && r.metadata.scoreO == ParseInt(parts[6])
  {
    var points := DecodeSlots(parts[0], Int(-1)).value;
    assert XgidFromParts(parts).value.position.points == points;
    assert forall j :: 0 <= j < 26 ==> SourceSlot(Int(-1), j) == 25 - j;
  }

  // ── encodeXGID ─────────────────────────────────────────────────────

  /** The turn the encoder writes: the one parsed from an XGID if any, else 1 when O is on roll and -1 otherwise. */
  function XgidTurn(meta: Metadata): JsNumber {
    match meta.xgidTurn
    case Some(t) => t
    case None => if meta.onRoll == Some(O) then Int(1) else Int(-1)
  }

  function XgidChars(points: Points, turn: JsNumber): (s: string)
    ensures |s| == 26
  {
    seq(26, k requires 0 <= k < 26 => EncodeCheckerCount(points[SourceSlot(turn, k)], turn))
  }

  function XgidCubePos(owner: CubeOwner): int {
    match owner
    case Centered => 0
    case XOwns => -1
    case OOwns => 1
  }

  /** The cube position written for the turn: negated when the turn is -1. */
  function CubePosOut(owner: CubeOwner, turn: JsNumber): int {
    if turn == Int(-1) then -XgidCubePos(owner) else XgidCubePos(owner)
  }

  /** The parser undoes the negation the encoder applied. */
  lemma CubePosRead(owner: CubeOwner, turn: JsNumber)
    ensures var n := Int(CubePosOut(owner, turn));
      XgidCubeOwner(if turn == Int(-1) then Negate(n) else n) == owner
  {
  }

  /** The score written in O's field: X's when the turn is -1. */
  function ScoreOOut(meta: Metadata, turn: JsNumber): int {
    if turn == Int(-1) then OrZero(meta.scoreX) else OrZero(meta.scoreO)
  }

  /** The score written in X's field: O's when the turn is -1. */
  function ScoreXOut(meta: Metadata, turn: JsNumber): int {
    if turn == Int(-1) then OrZero(meta.scoreO) else OrZero(meta.scoreX)
  }

  function DiceString(dice: Option<Dice>): string {
    match dice
    case Some(d) => IntString(d.d1) + IntString(d.d2)
    case None => "00"
  }

  /** The ten colon-separated fields `encodeXGID` writes after the prefix. */
  function XgidFields(pos: Position, meta: Metadata): (fields: seq<string>)
    ensures |fields| == 10
  {
    var turn := XgidTurn(meta);
    [XgidChars(pos.points, turn),
     IntString(FloorLog2(OrOne(meta.cubeValue))),
     IntString(CubePosOut(meta.cubeOwner, turn)),
     NumberString(turn),
     DiceString(meta.dice),
     IntString(ScoreOOut(meta, turn)),
     IntString(ScoreXOut(meta, turn)),
     IntString(if meta.crawford then 1 else 0),
     IntString(OrZero(meta.matchLength)),
     IntString(FloorLog2(256))]
  }

  /** What `encodeXGID` returns. */
  function XgidEncoded(pos: Position, meta: Metadata): string {
    XgidPrefix + Join(XgidFields(pos, meta), ':')
  }

  /** The position loops of `encodeXGID`. */
  method EncodeXgidChars(points: Points, turn: JsNumber) returns (s: string)
    ensures s == XgidChars(points, turn)
  {
    var chars := new char[26](_ => '-');
    if turn == Int(1) {
      for i := 0 to 26
        invariant forall k :: 0 <= k < i ==> chars[k] == EncodeCheckerCount(points[k], turn)
      {
        chars[i] := EncodeCheckerCount(points[i], turn);
      }
    } else {
      chars[0] := EncodeCheckerCount(points[25], turn);
      chars[25] := EncodeCheckerCount(points[0], turn);
      for j := 1 to 25
        invariant chars[0] == EncodeCheckerCount(points[25], turn)
        invariant chars[25] == EncodeCheckerCount(points[0], turn)
        invariant forall k :: 1 <= k < j ==> chars[25 - k] == EncodeCheckerCount(points[k], turn)
      {
        chars[25 - j] := EncodeCheckerCount(points[j], turn);
      }
      forall k | 0 <= k < 26
        ensures chars[k] == EncodeCheckerCount(points[25 - k], turn)
      {
        if 0 < k < 25 {
          assert chars[25 - (25 - k)] == EncodeCheckerCount(points[25 - k], turn);
        }
      }
    }
    s := chars[..];
  }

  /** `encodeXGID` */
  method EncodeXgid(pos: Position, meta: Metadata) returns (s: string)
    ensures s == XgidEncoded(pos, meta)
  {
    var turn := XgidTurn(meta);
    var chars := EncodeXgidChars(pos.points, turn);
    var cubeLog := Log2(OrOne(meta.cubeValue));
    var cubePos := XgidCubePos(meta.cubeOwner);
    var diceStr := DiceString(meta.dice);
    var cj := if meta.crawford then 1 else 0;
    var scoreOOut := OrZero(meta.scoreO);
    var scoreXOut := OrZero(meta.scoreX);
    if turn == Int(-1) {
      cubePos := -cubePos;
      scoreOOut, scoreXOut := scoreXOut, scoreOOut;
    }
    var last := Log2(256);
    s := XgidPrefix + Join([chars, IntString(cubeLog), IntString(cubePos), NumberString(turn), diceStr,
      IntString(scoreOOut), IntString(scoreXOut), IntString(cj), IntString(OrZero(meta.matchLength)),
      IntString(last)], ':');
  }

  // ── Round trip ─────────────────────────────────────────────────────

  lemma ParseIntNumberString(n: JsNumber)
    ensures ParseInt(NumberString(n)) == n
  {
    if n.Int? {
      ParseIntString(n.v);
    } else {
      ParseIntNaN();
    }
  }

  lemma NoColonInIntString(n: int)
    ensures ':' !in IntString(n)
  {
    IntStringChars(n);
  }

  /** The encoder's fields come back out of the parser's prefix strip and split. */
  lemma XgidFieldsSplit(pos: Position, meta: Metadata)
    ensures StripXgidPrefix(XgidEncoded(pos, meta)) == Join(XgidFields(pos, meta), ':')
    ensures Split(StripXgidPrefix(XgidEncoded(pos, meta)), ':') == XgidFields(pos, meta)
  {
    var fields := XgidFields(pos, meta);
    var s := XgidEncoded(pos, meta);
    assert s[..5] == XgidPrefix;
    assert StartsWithUpper(s, XgidPrefix);
    assert s[5..] == Join(fields, ':');
    XgidFieldsNoSeparator(pos, meta);
    SplitJoin(fields, ':');
  }

  /** Every field the encoder writes is plain: letters, digits and '-'. */
  lemma XgidFieldsPlain(pos: Position, meta: Metadata)
    ensures forall i :: 0 <= i < 10 ==> Plain(XgidFields(pos, meta)[i])
  {
    var turn := XgidTurn(meta);
    PlainChars(pos.points, turn);
    PlainIntString(FloorLog2(OrOne(meta.cubeValue)));
    PlainIntString(CubePosOut(meta.cubeOwner, turn));
    PlainNumber(turn);
    PlainDice(meta.dice);
    PlainIntString(ScoreOOut(meta, turn));
    PlainIntString(ScoreXOut(meta, turn));
    PlainIntString(if meta.crawford then 1 else 0);
    PlainIntString(OrZero(meta.matchLength));
    PlainIntString(FloorLog2(256));
    TenPlain(XgidChars(pos.points, turn), IntString(FloorLog2(OrOne(meta.cubeValue))),
      IntString(CubePosOut(meta.cubeOwner, turn)), NumberString(turn), DiceString(meta.dice),
      IntString(ScoreOOut(meta, turn)), IntString(ScoreXOut(meta, turn)),
      IntString(if meta.crawford then 1 else 0), IntString(OrZero(meta.matchLength)), IntString(FloorLog2(256)));
  }

  lemma PlainChars(points: Points, turn: JsNumber)
    ensures Plain(XgidChars(points, turn))
  {
    var s := XgidChars(points, turn);
    forall k | 0 <= k < 26
      ensures PlainChar(s[k])
    {
      assert IsXgidChar(s[k]);
    }
  }

  lemma PlainNumber(n: JsNumber)
    ensures Plain(NumberString(n))
  {
    if n.Int? {
      PlainIntString(n.v);
    }
  }

  lemma PlainDice(dice: Option<Dice>)
    ensures Plain(DiceString(dice))
  {
    if dice.Some? {
      PlainIntString(dice.value.d1);
      PlainIntString(dice.value.d2);
      PlainConcat(IntString(dice.value.d1), IntString(dice.value.d2));
    }
  }

  lemma TenPlain(a0: string, a1: string, a2: string, a3: string, a4: string,
                 a5: string, a6: string, a7: string, a8: string, a9: string)
    requires Plain(a0) && Plain(a1) && Plain(a2) && Plain(a3) && Plain(a4)
    requires Plain(a5) && Plain(a6) && Plain(a7) && Plain(a8) && Plain(a9)
    ensures forall i :: 0 <= i < 10 ==> Plain([a0, a1, a2, a3, a4, a5, a6, a7, a8, a9][i])
  {
  }

  /** No field the encoder writes holds a colon or white space. */
  lemma XgidFieldsNoSeparator(pos: Position, meta: Metadata)
    ensures forall i :: 0 <= i < 10 ==> ':' !in XgidFields(pos, meta)[i] && NoSpace(XgidFields(pos, meta)[i])
  {
    var f := XgidFields(pos, meta);
    XgidFieldsPlain(pos, meta);
    forall i | 0 <= i < 10
      ensures ':' !in f[i] && NoSpace(f[i])
    {
      PlainFree(f[i]);
    }
  }

  /** The slots survive encoding and parsing when no slot holds more than 16 checkers. */
  lemma XgidSlotsRoundTrip(points: Points, turn: JsNumber)
    requires forall i :: 0 <= i < 26 ==> -16 <= points[i] <= 16
    ensures DecodeSlots(XgidChars(points, turn), turn) == Ok(points)
  {
    var chars := XgidChars(points, turn);
    forall i | 0 <= i < 26
      ensures IsXgidChar(chars[SourceSlot(turn, i)])
      ensures DecodeCheckerCount(chars[SourceSlot(turn, i)], turn) == Ok(points[i])
    {
      assert SourceSlot(turn, SourceSlot(turn, i)) == i;
      CountRoundTrip(points[i], turn);
    }
    assert DecodedSlots(points, chars, turn, 0, 26);
    DecodedSlotsOk(points, chars, turn);
  }

  lemma DiceStringRoundTrip(dice: Option<Dice>)
    requires dice.Some? ==> 1 <= dice.value.d1 <= 6 && 1 <= dice.value.d2 <= 6
    ensures XgidDice(DiceString(dice)) == dice
  {
    var s := DiceString(dice);
    if dice.Some? {
      var d := dice.value;
      assert s == [DigitChar(d.d1), DigitChar(d.d2)];
      UpperDigits(s);
      TrimNoSpace(s);
      DicePairExactly(s, d.d1, d.d2);
    } else {
      assert UpperString(s) == "00";
      TrimNoSpace("00");
    }
  }

  /** Upper case leaves digits alone. */
  lemma UpperDigits(s: string)
    requires AllDigits(s)
    ensures UpperString(s) == s
  {
  }

  /**
    * Parsing what `encodeXGID` wrote gives back the slots (when none holds
    * more than 16 checkers), recomputed borne-off counts, and the metadata:
    * the cube value when it is a power of two, the cube owner, the dice when
    * each is 1..6, the scores, match length and Crawford flag; O is reported
    * on roll and the turn that was written is kept.
    */
  lemma XgidRoundTrip(pos: Position, meta: Metadata, k: nat)
    requires forall i :: 0 <= i < 26 ==> -16 <= pos.points[i] <= 16
    requires meta.cubeValue == Int(Pow2(k))
    requires meta.dice.Some? ==> 1 <= meta.dice.value.d1 <= 6 && 1 <= meta.dice.value.d2 <= 6
    ensures XgidDecoded(XgidEncoded(pos, meta)) == Ok(Parsed(WithBorneOff(pos), XgidReadBack(meta)))
  {
    var fields := XgidFields(pos, meta);
    var turn := XgidTurn(meta);
    XgidFieldsSplit(pos, meta);
    ParseIntNumberString(turn);
    XgidSlotsRoundTrip(pos.points, turn);
    XgidMetadataRoundTrip(pos, meta, k);
    assert ParseInt(fields[3]) == turn;
    assert DecodeSlots(fields[0], ParseInt(fields[3])) == Ok(pos.points);
    BorneOffOfPoints(pos);
    FromPartsOk(fields, pos.points, XgidReadBack(meta));
    assert XgidFromParts(fields) == Ok(Parsed(WithBorneOff(pos), XgidReadBack(meta)));
  }

  lemma FromPartsOk(parts: seq<string>, points: Points, m: Metadata)
    requires |parts| >= 9 && |parts[0]| == 26
    requires DecodeSlots(parts[0], ParseInt(parts[3])) == Ok(points)
    requires XgidMetadata(parts) == m
    ensures XgidFromParts(parts) == Ok(Parsed(WithBorneOff(Position(points, 0, 0)), m))
  {
  }

  /** The borne-off counts depend on the slots alone. */
  lemma BorneOffOfPoints(pos: Position)
    ensures WithBorneOff(Position(pos.points, 0, 0)) == WithBorneOff(pos)
  {
  }

  /** The metadata as the parser reports it back: O on roll, the written turn kept, NaN numbers read as 0. */
  function XgidReadBack(meta: Metadata): Metadata {
    meta.(onRoll := Some(O), xgidTurn := Some(XgidTurn(meta)),
          scoreX := Int(OrZero(meta.scoreX)), scoreO := Int(OrZero(meta.scoreO)),
          matchLength := Int(OrZero(meta.matchLength)))
  }

  lemma XgidMetadataRoundTrip(pos: Position, meta: Metadata, k: nat)
    requires meta.cubeValue == Int(Pow2(k))
    requires meta.dice.Some? ==> 1 <= meta.dice.value.d1 <= 6 && 1 <= meta.dice.value.d2 <= 6
    ensures XgidMetadata(XgidFields(pos, meta)) == XgidReadBack(meta)
  {
    var fields := XgidFields(pos, meta);
    var turn := XgidTurn(meta);
    Log2OfPow2(k);
    assert fields[1] == IntString(k);
    ParseIntString(k);
    ParseIntString(CubePosOut(meta.cubeOwner, turn));
    ParseIntNumberString(turn);
    ParseIntString(ScoreOOut(meta, turn));
    ParseIntString(ScoreXOut(meta, turn));
    ParseIntString(if meta.crawford then 1 else 0);
    ParseIntString(OrZero(meta.matchLength));
    CubePosRead(meta.cubeOwner, turn);
    DiceStringRoundTrip(meta.dice);
    MetadataOfFields(fields, meta, k);
  }

  /** The parser's metadata from fields whose numbers are the ones the encoder wrote. */
  lemma MetadataOfFields(parts: seq<string>, meta: Metadata, k: nat)
    requires |parts| >= 9
    requires meta.cubeValue == Int(Pow2(k))
    requires ParseInt(parts[1]) == Int(k)
    requires ParseInt(parts[2]) == Int(CubePosOut(meta.cubeOwner, XgidTurn(meta)))
    requires ParseInt(parts[3]) == XgidTurn(meta)
    requires XgidDice(parts[4]) == meta.dice
    requires ParseInt(parts[5]) == Int(ScoreOOut(meta, XgidTurn(meta)))
    requires ParseInt(parts[6]) == Int(ScoreXOut(meta, XgidTurn(meta)))
    requires ParseInt(parts[7]) == Int(if meta.crawford then 1 else 0)
    requires ParseInt(parts[8]) == Int(OrZero(meta.matchLength))
    ensures XgidMetadata(parts) == XgidReadBack(meta)
  {
    CubePosRead(meta.cubeOwner, XgidTurn(meta));
  }
}
