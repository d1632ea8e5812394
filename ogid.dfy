/**
  * OGID: X's checkers and O's checkers as one character per checker naming
  * its slot ('0'..'9' for 0..9, 'a'..'p' for 10..25), then the cube as
  * owner, log2 of the value and a state letter, then optional dice, turn,
  * game state, scores, match length with a Crawford mark, and a move id,
  * all separated by colons.
  */
module Ogid {
  import opened Common
  import opened Board

  const OgidPrefix := "OGID="

  // ── Slot characters ────────────────────────────────────────────────

  predicate IsOgidChar(ch: char) {
    '0' <= ch <= '9' || 'a' <= ch <= 'p'
  }

  /** The character for slot pt: a digit for 0..9, a letter from 'a' for 10..25. */
  function SlotChar(pt: nat): (ch: char)
    requires pt < Slots
    ensures IsOgidChar(ch)
  {
    if pt <= 9 then (48 + pt) as char else (97 + pt - 10) as char
  }

  /** `charToPoint` */
  function CharToPoint(ch: char): (r: Result<nat>)
    ensures r.Ok? <==> IsOgidChar(ch)
    ensures r.Ok? ==> r.value < Slots && SlotChar(r.value) == ch
  {
    var code := ch as int;
    if 48 <= code <= 57 then Ok(code - 48)
    else if 97 <= code <= 112 then Ok(code - 97 + 10)
    else Err(InvalidOgidChar)
  }

  /** `pointToChar` */
  function PointToChar(pt: int): (r: Result<char>)
    ensures r.Ok? <==> 0 <= pt < Slots
    ensures r.Ok? ==> CharToPoint(r.value) == Ok(pt)
  {
    if 0 <= pt <= 9 then Ok(SlotChar(pt))
    else if 10 <= pt <= 25 then Ok(SlotChar(pt))
    else Err(InvalidPoint)
  }

  /** Reading a slot character and writing it back gives the character. */
  lemma CharPointRoundTrip(ch: char)
    requires IsOgidChar(ch)
    ensures PointToChar(CharToPoint(ch).value) == Ok(ch)
  {
  }

  /** Characters are ordered as the slots they name. */
  lemma SlotCharOrder(p: nat, q: nat)
    requires p < Slots && q < Slots
    ensures SlotChar(p) <= SlotChar(q) <==> p <= q
  {
  }

  // ── Tallying the checkers ──────────────────────────────────────────

  predicate AllOgid(s: string) {
    forall i :: 0 <= i < |s| ==> IsOgidChar(s[i])
  }

  /** How many characters of s name slot pt. */
  function CountOf(s: string, pt: nat): nat {
    if s == [] then 0
    else CountOf(s[..|s| - 1], pt) + (if CharToPoint(s[|s| - 1]) == Ok(pt) then 1 else 0)
  }

  /** The slots after tallying: one X checker per character of white, one O checker per character of black. */
  function Tally(white: string, black: string): Points {
    seq(26, pt requires 0 <= pt < 26 => CountOf(white, pt) - CountOf(black, pt))
  }

  /** What the two tally loops of `parseOGID` produce or throw. */
  function OgidPoints(white: string, black: string): Result<Points> {
    if AllOgid(white) && AllOgid(black) then Ok(Tally(white, black)) else Err(InvalidOgidChar)
  }

  /** One more character adds one checker to the slot it names. */
  lemma CountStep(s: string, i: nat, pt: nat)
    requires i < |s|
    ensures CountOf(s[..i + 1], pt) == CountOf(s[..i], pt) + (if CharToPoint(s[i]) == Ok(pt) then 1 else 0)
  {
    assert s[..i + 1][..i] == s[..i];
  }

  /** The two tally loops of `parseOGID`, on the array `makePosition` starts from. */
  method TallyOgid(white: string, black: string) returns (r: Result<Points>)
    ensures r == OgidPoints(white, black)
  {
    var points := new int[26](_ => 0);
    var ok := TallyLoop(points, white, 1);
    if !ok {
      return Err(InvalidOgidChar);
    }
    ok := TallyLoop(points, black, -1);
    if !ok {
      return Err(InvalidOgidChar);
    }
    assert points[..] == Tally(white, black);
    r := Ok(points[..]);
  }

  /** One tally loop: each character of s adds delta to the slot it names, until a bad character. */
  method TallyLoop(points: array<int>, s: string, delta: int) returns (ok: bool)
    requires points.Length == 26
    modifies points
    ensures ok == AllOgid(s)
    ensures ok ==> forall pt :: 0 <= pt < 26 ==> points[pt] == old(points[pt]) + delta * CountOf(s, pt)
  {
    for i := 0 to |s|
      invariant AllOgid(s[..i])
      invariant forall pt :: 0 <= pt < 26 ==> points[pt] == old(points[pt]) + delta * CountOf(s[..i], pt)
    {
      var pt := CharToPoint(s[i]);
      if pt.Err? {
        assert !AllOgid(s) by {
          assert !IsOgidChar(s[i]);
        }
        return false;
      }
      var k := pt.value;
      points[k] := points[k] + delta;
      forall q | 0 <= q < 26
        ensures points[q] == old(points[q]) + delta * CountOf(s[..i + 1], q)
      {
        CountStep(s, i, q);
        if q == k {
          MulStep(delta, CountOf(s[..i], q));
        }
      }
    }
    assert s[..|s|] == s;
    ok := true;
  }

  lemma MulStep(d: int, n: nat)
    ensures d * (n + 1) == d * n + d
  {
  }

  // ── Metadata ───────────────────────────────────────────────────────

  /** `parseInt` of one character: the digit's value, or NaN for anything else. */
  lemma ParseIntOneChar(c: char)
    ensures ParseInt([c]) == if IsDigit(c) then Int(DigitValue(c)) else NaN
  {
    if IsDigit(c) {
      ParseIntDigit(c);
    } else if IsJsSpace(c) {
      ParseIntBlank(c);
    } else {
      ParseIntNonDigit(c);
    }
  }

  lemma ParseIntDigit(c: char)
    requires IsDigit(c)
    ensures ParseInt([c]) == Int(DigitValue(c))
  {
    var d := [c];
    assert AllDigits(d);
    ParseIntUnsigned(d);
    assert d[..0] == [];
    assert DigitsValue(d) == DigitValue(c);
  }

  lemma ParseIntBlank(c: char)
    requires IsJsSpace(c)
    ensures ParseInt([c]) == NaN
  {
    assert [c][1..] == [];
    assert TrimStart([c]) == [];
    DigitRunEmpty(false);
  }

  lemma ParseIntNonDigit(c: char)
    requires !IsJsSpace(c) && !IsDigit(c)
    ensures ParseInt([c]) == NaN
  {
    TrimOneChar(c);
    if c == '-' || c == '+' {
      ParseIntSign(c);
    } else {
      ParseIntLetter(c);
    }
  }

  lemma TrimOneChar(c: char)
    requires !IsJsSpace(c)
    ensures TrimStart([c]) == [c]
  {
  }

  lemma DigitRunEmpty(negative: bool)
    ensures DigitRunNumber([], negative) == NaN
  {
    assert DigitPrefixLength([]) == 0;
  }

  lemma ParseIntSign(c: char)
    requires c == '-' || c == '+'
    requires TrimStart([c]) == [c]
    ensures ParseInt([c]) == NaN
  {
    assert [c][1..] == [];
    DigitRunEmpty(c == '-');
  }

  lemma ParseIntLetter(c: char)
    requires !IsDigit(c) && c != '-' && c != '+'
    requires TrimStart([c]) == [c]
    ensures ParseInt([c]) == NaN
  {
  }

  /** `Math.pow(2, parseInt(c, 10))`: NaN when c is not a digit. */
  function OgidCubeValue(c: char): JsNumber {
    if IsDigit(c) then Int(Pow2(DigitValue(c))) else NaN
  }

  /** 'W' is X's cube, 'B' is O's, anything else centered. */
  function OgidOwner(c: char): CubeOwner {
    if c == 'W' then XOwns else if c == 'B' then OOwns else Centered
  }

  /** The dice field: a pair only for exactly two digits, each 1..6. */
  function OgidDice(ds: string): (r: Option<Dice>)
    ensures r.Some? ==> 1 <= r.value.d1 <= 6 && 1 <= r.value.d2 <= 6
  {
    if |ds| == 2 && IsDigit(ds[0]) && IsDigit(ds[1])
      && 1 <= DigitValue(ds[0]) <= 6 && 1 <= DigitValue(ds[1]) <= 6
    then Some(Dice(DigitValue(ds[0]), DigitValue(ds[1])))
    else None
  }

  /** The turn field after upper-casing: "W" is X, "B" is O, anything else nobody. */
  function OgidTurn(t: string): Option<Player> {
    var u := UpperString(t);
    if u == "W" then Some(X) else if u == "B" then Some(O) else None
  }

  /** The match length: the leading run of digits, when there is one. */
  function OgidMatchLength(f: string): JsNumber {
    var k := DigitPrefixLength(f);
    if k > 0 then ParseInt(f[..k]) else Int(0)
  }

  /** Field i when it is present and not empty. */
  function Field(parts: seq<string>, i: nat): string {
    if i < |parts| then parts[i] else ""
  }

  /** The cube value the cube field gives: 2 to the power of its middle character when it has three characters. */
  function CubeValueOf(cubeStr: string): JsNumber {
    if |cubeStr| == 3 then OgidCubeValue(cubeStr[1]) else Int(1)
  }

  function CubeOwnerOf(cubeStr: string): CubeOwner {
    if |cubeStr| == 3 then OgidOwner(cubeStr[0]) else Centered
  }

  /** Each optional field, with the default an empty or missing field leaves. */
  function DiceOf(f: string): Option<Dice> {
    if f != "" then OgidDice(f) else None
  }

  function OnRollOf(f: string): Option<Player> {
    if f != "" then OgidTurn(f) else None
  }

  function ScoreOf(f: string): JsNumber {
    if f != "" then Int(OrZero(ParseInt(f))) else Int(0)
  }

  function MatchLengthOf(f: string): JsNumber {
    if f != "" then OgidMatchLength(f) else Int(0)
  }

  function CrawfordOf(f: string): bool {
    f != "" && 'C' in f
  }

  /** The metadata `parseOGID` builds from the fields after the two checker strings. */
  function OgidMetadata(parts: seq<string>): Metadata
    requires |parts| >= 3
  {
    Metadata(
      cubeValue := CubeValueOf(parts[2]),
      cubeOwner := CubeOwnerOf(parts[2]),
      onRoll := OnRollOf(Field(parts, 4)),
      xgidTurn := None,
      dice := DiceOf(Field(parts, 3)),
      scoreX := ScoreOf(Field(parts, 6)),
      scoreO := ScoreOf(Field(parts, 7)),
      matchLength := MatchLengthOf(Field(parts, 8)),
      crawford := CrawfordOf(Field(parts, 8)))
  }

  function OgidFromParts(parts: seq<string>): Result<Parsed> {
    if |parts| < 3 then Err(OgidFieldCount)
    else
      var points :- OgidPoints(parts[0], parts[1]);
      Ok(Parsed(WithBorneOff(Position(points, 0, 0)), OgidMetadata(parts)))
  }

  /** Drops a leading `OGID=` in any case. */
  function StripOgidPrefix(s: string): string {
    if StartsWithUpper(s, OgidPrefix) then s[5..] else s
  }

  /** What `parseOGID` returns or throws. */
  function OgidDecoded(input: string): Result<Parsed> {
    OgidFromParts(Split(StripOgidPrefix(input), ':'))
  }

  /** `parseOGID` */
  method ParseOgid(input: string) returns (r: Result<Parsed>)
    ensures r == OgidDecoded(input)
  {
    var s := input;
    if StartsWithUpper(s, OgidPrefix) {
      s := s[5..];
    }
    var parts := Split(s, ':');
    if |parts| < 3 {
      return Err(OgidFieldCount);
    }
    var points := TallyOgid(parts[0], parts[1]);
    if points.Err? {
      return Err(points.error);
    }
    var pos := CalcBorneOff(Position(points.value, 0, 0));
    var meta := ReadOgidMetadata(parts);
    assert pos == WithBorneOff(Position(points.value, 0, 0));
    r := Ok(Parsed(pos, meta));
  }

  /**
   * The metadata part of `parseOGID`: defaults, then each field that is
   * present. It is kept as statements because the source updates its result
   * object field by field; OgidMetadata is its specification.
   */
  method ReadOgidMetadata(parts: seq<string>) returns (meta: Metadata)
    requires |parts| >= 3
    ensures meta == OgidMetadata(parts)
  {
    meta := Metadata(Int(1), Centered, None, None, None, Int(0), Int(0), Int(0), false);
    var cubeValue, cubeOwner := ReadOgidCube(parts[2]);
    meta := meta.(cubeValue := cubeValue, cubeOwner := cubeOwner);
    if |parts| > 3 && parts[3] != "" {
      meta := meta.(dice := OgidDice(parts[3]));
    }
    assert meta.dice == DiceOf(Field(parts, 3));
    if |parts| > 4 && parts[4] != "" {
      var onRoll := ReadOgidTurn(parts[4]);
      meta := meta.(onRoll := onRoll);
    }
    assert meta.onRoll == OnRollOf(Field(parts, 4));
    if |parts| > 6 && parts[6] != "" {
      meta := meta.(scoreX := Int(OrZero(ParseInt(parts[6]))));
    }
    assert meta.scoreX == ScoreOf(Field(parts, 6));
    if |parts| > 7 && parts[7] != "" {
      meta := meta.(scoreO := Int(OrZero(ParseInt(parts[7]))));
    }
    assert meta.scoreO == ScoreOf(Field(parts, 7));
    if |parts| > 8 && parts[8] != "" {
      var ml, crawford := ReadOgidMatch(parts[8]);
      meta := meta.(matchLength := ml, crawford := crawford);
    }
    assert meta.matchLength == MatchLengthOf(Field(parts, 8));
    assert meta.crawford == CrawfordOf(Field(parts, 8));
  }

  /** The turn part of `parseOGID`: "W" or "B" in any case names the player on roll. */
  method ReadOgidTurn(f: string) returns (onRoll: Option<Player>)
    ensures onRoll == OgidTurn(f)
  {
    onRoll := None;
    var t := UpperString(f);
    if t == "W" {
      onRoll := Some(X);
    } else if t == "B" {
      onRoll := Some(O);
    }
  }

  /** The match part of `parseOGID`: the leading digits, and 'C' anywhere for Crawford. */
  method ReadOgidMatch(f: string) returns (matchLength: JsNumber, crawford: bool)
    requires f != ""
    ensures matchLength == MatchLengthOf(f) && crawford == CrawfordOf(f)
  {
    matchLength, crawford := Int(0), false;
    var k := DigitPrefixLength(f);
    if k > 0 {
      matchLength := ParseInt(f[..k]);
    }
    if 'C' in f {
      crawford := true;
    }
  }

  /** The cube part of `parseOGID`: owner letter and log2 digit of a three-character cube field. */
  method ReadOgidCube(cubeStr: string) returns (value: JsNumber, owner: CubeOwner)
    ensures value == CubeValueOf(cubeStr) && owner == CubeOwnerOf(cubeStr)
  {
    value, owner := Int(1), Centered;
    if |cubeStr| == 3 {
      var ownerCh := cubeStr[0];
      var valLog := ParseInt([cubeStr[1]]);
      ParseIntOneChar(cubeStr[1]);
      value := if valLog.Int? then Int(Pow2(valLog.v)) else NaN;
      owner := if ownerCh == 'W' then XOwns else if ownerCh == 'B' then OOwns else Centered;
    }
  }

  // ── encodeOGID ─────────────────────────────────────────────────────

  /** n copies of c. */
  function Repeat(c: char, n: nat): (s: string)
    ensures |s| == n && forall i :: 0 <= i < n ==> s[i] == c
  {
    seq(n, _ => c)
  }

  /** The checkers one side has on a slot: the positive count for X, the negated negative count for O. */
  function SideCount(v: int, side: Player): nat {
    match side
    case X => Max(v, 0)
    case O => Max(-v, 0)
  }

  /** One character per checker of side on slots 0 .. n-1, slot by slot. */
  function SideChars(points: Points, side: Player, n: nat): (s: string)
    requires n <= Slots
    ensures forall i :: 0 <= i < |s| ==> IsOgidChar(s[i]) && CharToPoint(s[i]).value < n
  {
    if n == 0 then ""
    else SideChars(points, side, n - 1) + Repeat(SlotChar(n - 1), SideCount(points[n - 1], side))
  }

  /** All of one side's characters, slot 0 first. */
  function SideString(points: Points, side: Player): (s: string)
    ensures forall i :: 0 <= i < |s| ==> IsOgidChar(s[i])
  {
    SideChars(points, side, |points|)
  }

  function OwnerChar(owner: CubeOwner): char {
    match owner
    case XOwns => 'W'
    case OOwns => 'B'
    case Centered => 'N'
  }

  /** The cube field: owner letter, log2 of the value, and 'N'. */
  function CubeString(meta: Metadata): string {
    [OwnerChar(meta.cubeOwner)] + NatString(FloorLog2(OrOne(meta.cubeValue))) + "N"
  }

  function DiceField(dice: Option<Dice>): string {
    match dice
    case Some(d) => IntString(d.d1) + IntString(d.d2)
    case None => ""
  }

  function TurnField(onRoll: Option<Player>): string {
    match onRoll
    case Some(X) => "W"
    case Some(O) => "B"
    case None => ""
  }

  /** The match length, with 'C' appended in a Crawford game. */
  function MatchField(meta: Metadata): string {
    IntString(OrZero(meta.matchLength)) + (if meta.crawford then "C" else "")
  }

  /** The ten fields `encodeOGID` joins with colons. */
  function OgidFields(points: Points, meta: Metadata): (fields: seq<string>)
    ensures |fields| == 10
  {
    [SideString(points, X), SideString(points, O), CubeString(meta),
     DiceField(meta.dice), TurnField(meta.onRoll), "",
     IntString(OrZero(meta.scoreX)), IntString(OrZero(meta.scoreO)), MatchField(meta), ""]
  }

  /** What `encodeOGID` returns. */
  function OgidEncoded(points: Points, meta: Metadata): string {
    Join(OgidFields(points, meta), ':')
  }

  /**
    * `encodeOGID`. The source sorts each side's characters before joining
    * them; they are pushed in slot order, which is character order, so
    * the sort leaves them as they are (SideCharsSorted, SortedUnique).
    */
  method EncodeOgid(pos: Position, meta: Metadata) returns (s: string)
    ensures s == OgidEncoded(pos.points, meta)
  {
    var whiteCh: string, blackCh: string := [], [];
    for i := 0 to 26
      invariant whiteCh == SideChars(pos.points, X, i) && blackCh == SideChars(pos.points, O, i)
    {
      var c := pos.points[i];
      var ch := PointToChar(i).value;
      if c > 0 {
        for w := 0 to c
          invariant whiteCh == SideChars(pos.points, X, i) + Repeat(ch, w)
        {
          whiteCh := whiteCh + [ch];
        }
      } else if c < 0 {
        for b := 0 to Abs(c)
          invariant blackCh == SideChars(pos.points, O, i) + Repeat(ch, b)
        {
          blackCh := blackCh + [ch];
        }
      }
    }
    var cubeLog := Log2(OrOne(meta.cubeValue));
    var cubeStr := [OwnerChar(meta.cubeOwner)] + NatString(cubeLog) + "N";
    s := Join([whiteCh, blackCh, cubeStr, DiceField(meta.dice), TurnField(meta.onRoll), "",
      IntString(OrZero(meta.scoreX)), IntString(OrZero(meta.scoreO)), MatchField(meta), ""], ':');
  }

  // ── Sorting ────────────────────────────────────────────────────────

  predicate Sorted(s: string) {
    forall i, j :: 0 <= i < j < |s| ==> s[i] <= s[j]
  }

  /** Each side's characters come out in ascending order. */
  lemma {:induction false} SideCharsSorted(points: Points, side: Player, n: nat)
    requires n <= Slots
    ensures Sorted(SideChars(points, side, n))
  {
    if n > 0 {
      SideCharsSorted(points, side, n - 1);
      var a := SideChars(points, side, n - 1);
      var c := SlotChar(n - 1);
      forall i | 0 <= i < |a|
        ensures a[i] < c
      {
        SlotCharOrder(n - 1, CharToPoint(a[i]).value);
      }
    }
  }

  /** The first element of a sorted sequence is its least. */
  lemma SortedHeadLeast(s: string, x: char)
    requires Sorted(s) && |s| > 0 && x in multiset(s)
    ensures s[0] <= x
  {
    var i :| 0 <= i < |s| && s[i] == x;
  }

  lemma TailMultiset(s: string)
    requires |s| > 0
    ensures multiset(s) == multiset{s[0]} + multiset(s[1..])
  {
    assert s == [s[0]] + s[1..];
  }

  /** A sorted sequence is the only sorted arrangement of its elements, so sorting it changes nothing. */
  lemma {:induction false} SortedUnique(a: string, b: string)
    requires Sorted(a) && Sorted(b) && multiset(a) == multiset(b)
    ensures a == b
    decreases |a|
  {
    assert |a| == |multiset(a)| == |multiset(b)| == |b|;
    if |a| > 0 {
      SortedHeads(a, b);
      SortedTails(a, b);
      SortedUnique(a[1..], b[1..]);
      assert a == [a[0]] + a[1..] && b == [b[0]] + b[1..];
    }
  }

  /** Two sorted arrangements of the same elements start alike. */
  lemma SortedHeads(a: string, b: string)
    requires Sorted(a) && Sorted(b) && multiset(a) == multiset(b) && |a| > 0 && |b| > 0
    ensures a[0] == b[0]
  {
    assert a[0] in multiset(a) && b[0] in multiset(b);
    SortedHeadLeast(b, a[0]);
    SortedHeadLeast(a, b[0]);
  }

  /** ... and what follows the first element is again two sorted arrangements of the same elements. */
  lemma SortedTails(a: string, b: string)
    requires Sorted(a) && Sorted(b) && multiset(a) == multiset(b) && |a| > 0 && |b| > 0 && a[0] == b[0]
    ensures Sorted(a[1..]) && Sorted(b[1..]) && multiset(a[1..]) == multiset(b[1..])
  {
    TailMultiset(a);
    TailMultiset(b);
    assert multiset(a[1..]) == multiset(a) - multiset{a[0]};
    assert multiset(b[1..]) == multiset(b) - multiset{b[0]};
  }

  // ── Round trip ─────────────────────────────────────────────────────

  lemma {:induction false} CountOfAppend(a: string, b: string, pt: nat)
    ensures CountOf(a + b, pt) == CountOf(a, pt) + CountOf(b, pt)
    decreases |b|
  {
    if b != [] {
      assert (a + b)[..|a + b| - 1] == a + b[..|b| - 1];
      CountOfAppend(a, b[..|b| - 1], pt);
    } else {
      assert a + b == a;
    }
  }

  lemma {:induction false} CountOfRepeat(c: char, n: nat, pt: nat)
    ensures CountOf(Repeat(c, n), pt) == if CharToPoint(c) == Ok(pt) then n else 0
  {
    if n > 0 {
      assert Repeat(c, n)[..n - 1] == Repeat(c, n - 1);
      CountOfRepeat(c, n - 1, pt);
    }
  }

  /** Slot pt gets one character per checker of side on it, and none from any other slot. */
  lemma {:induction false} SideCharsCount(points: Points, side: Player, n: nat, pt: nat)
    requires n <= Slots && pt < Slots
    ensures CountOf(SideChars(points, side, n), pt) == if pt < n then SideCount(points[pt], side) else 0
  {
    if n > 0 {
      SideCharsCount(points, side, n - 1, pt);
      CountOfAppend(SideChars(points, side, n - 1), Repeat(SlotChar(n - 1), SideCount(points[n - 1], side)), pt);
      CountOfRepeat(SlotChar(n - 1), SideCount(points[n - 1], side), pt);
    }
  }

  /** Tallying the two sides' characters gives the slots back, for any counts. */
  lemma TallyRoundTrip(points: Points)
    ensures OgidPoints(SideString(points, X), SideString(points, O)) == Ok(points)
  {
    var white, black := SideString(points, X), SideString(points, O);
    forall pt | 0 <= pt < 26
      ensures Tally(white, black)[pt] == points[pt]
    {
      SideCharsCount(points, X, |points|, pt);
      SideCharsCount(points, O, |points|, pt);
    }
    assert Tally(white, black) == points;
    assert AllOgid(white) && AllOgid(black);
  }

  lemma NatStringOneDigit(k: nat)
    requires k < 10
    ensures NatString(k) == [DigitChar(k)] && DigitValue(DigitChar(k)) == k
  {
  }

  lemma CubeStringRead(meta: Metadata, k: nat)
    requires meta.cubeValue == Int(Pow2(k)) && k <= 9
    ensures var c := CubeString(meta);
      |c| == 3 && OgidCubeValue(c[1]) == meta.cubeValue && OgidOwner(c[0]) == meta.cubeOwner
  {
    assert OrOne(meta.cubeValue) == Pow2(k);
    Log2OfPow2(k);
    NatStringOneDigit(k);
  }

  lemma DiceFieldRead(dice: Option<Dice>)
    requires dice.Some? ==> 1 <= dice.value.d1 <= 6 && 1 <= dice.value.d2 <= 6
    ensures DiceField(dice) == "" <==> dice.None?
    ensures dice.Some? ==> OgidDice(DiceField(dice)) == dice
  {
    if dice.Some? {
      NatStringOneDigit(dice.value.d1);
      NatStringOneDigit(dice.value.d2);
    }
  }

  lemma ScoreRead(n: int)
    ensures IntString(n) != "" && Int(OrZero(ParseInt(IntString(n)))) == Int(n)
  {
    ParseIntString(n);
  }

  lemma MatchFieldRead(meta: Metadata)
    requires OrZero(meta.matchLength) >= 0
    ensures var f := MatchField(meta);
      f != "" && OgidMatchLength(f) == Int(OrZero(meta.matchLength)) && ('C' in f <==> meta.crawford)
  {
    var n: nat := OrZero(meta.matchLength);
    var d := NatString(n);
    var tail := if meta.crawford then "C" else "";
    var f := MatchField(meta);
    assert f == d + tail;
    DigitPrefixOfDigits(d, tail);
    assert f[..|d|] == d;
    ParseIntUnsigned(d);
    NatStringValue(n);
    assert 'C' in f <==> 'C' in tail by {
      if 'C' in f {
        var i :| 0 <= i < |f| && f[i] == 'C';
        assert i >= |d|;
        assert tail[i - |d|] == 'C';
      }
      if meta.crawford {
        assert f[|d|] == 'C';
      }
    }
  }

  lemma PlainSideChars(points: Points, side: Player)
    ensures Plain(SideString(points, side))
  {
    var s := SideString(points, side);
    forall i | 0 <= i < |s|
      ensures PlainChar(s[i])
    {
      assert IsOgidChar(s[i]);
    }
  }

  lemma PlainCube(meta: Metadata)
    ensures Plain(CubeString(meta))
  {
    var d := NatString(FloorLog2(OrOne(meta.cubeValue)));
    var c := CubeString(meta);
    assert c == [OwnerChar(meta.cubeOwner)] + d + "N";
    forall i | 0 <= i < |c|
      ensures PlainChar(c[i])
    {
      if 0 < i < |c| - 1 {
        assert c[i] == d[i - 1];
      }
    }
  }

  lemma PlainDice(dice: Option<Dice>)
    ensures Plain(DiceField(dice))
  {
    if dice.Some? {
      PlainIntString(dice.value.d1);
      PlainIntString(dice.value.d2);
      PlainConcat(IntString(dice.value.d1), IntString(dice.value.d2));
    }
  }

  lemma PlainMatch(meta: Metadata)
    ensures Plain(MatchField(meta))
  {
    PlainIntString(OrZero(meta.matchLength));
    PlainConcat(IntString(OrZero(meta.matchLength)), if meta.crawford then "C" else "");
  }

  /** Every field `encodeOGID` writes is plain. */
  lemma OgidFieldsPlain(points: Points, meta: Metadata)
    ensures forall i :: 0 <= i < 10 ==> Plain(OgidFields(points, meta)[i])
  {
    PlainSideChars(points, X);
    PlainSideChars(points, O);
    PlainCube(meta);
    PlainDice(meta.dice);
    PlainTurn(meta.onRoll);
    PlainIntString(OrZero(meta.scoreX));
    PlainIntString(OrZero(meta.scoreO));
    PlainMatch(meta);
    AllPlain(SideString(points, X), SideString(points, O), CubeString(meta), DiceField(meta.dice),
      TurnField(meta.onRoll), IntString(OrZero(meta.scoreX)), IntString(OrZero(meta.scoreO)), MatchField(meta));
  }

  lemma PlainTurn(onRoll: Option<Player>)
    ensures Plain(TurnField(onRoll))
  {
  }

  /** Ten plain fields, the sixth and the last empty, as `encodeOGID` lays them out. */
  lemma AllPlain(a: string, b: string, c: string, d: string, e: string, g: string, h: string, m: string)
    requires Plain(a) && Plain(b) && Plain(c) && Plain(d) && Plain(e) && Plain(g) && Plain(h) && Plain(m)
    ensures forall i :: 0 <= i < 10 ==> Plain([a, b, c, d, e, "", g, h, m, ""][i])
  {
  }

  /** The fields of an OGID carry no colon, no '=' and no white space. */
  lemma OgidFieldsNoSeparator(points: Points, meta: Metadata)
    ensures forall i :: 0 <= i < 10 ==>
      ':' !in OgidFields(points, meta)[i] && '=' !in OgidFields(points, meta)[i] && NoSpace(OgidFields(points, meta)[i])
  {
    var f := OgidFields(points, meta);
    OgidFieldsPlain(points, meta);
    forall i | 0 <= i < 10
      ensures ':' !in f[i] && '=' !in f[i] && NoSpace(f[i])
    {
      PlainFree(f[i]);
    }
  }

  /** An encoded OGID has no prefix to strip and splits back into its fields. */
  lemma OgidFieldsSplit(points: Points, meta: Metadata)
    ensures Split(StripOgidPrefix(OgidEncoded(points, meta)), ':') == OgidFields(points, meta)
  {
    var fields := OgidFields(points, meta);
    var s := OgidEncoded(points, meta);
    OgidFieldsNoSeparator(points, meta);
    JoinAvoids(fields, ':', '=');
    assert !StartsWithUpper(s, OgidPrefix) by {
      if |s| >= 5 {
        assert s[4] != '=';
      }
    }
    SplitJoin(fields, ':');
  }

  /** The metadata comes back as the OGID carries it: no XGID turn, NaN numbers as 0. */
  function OgidReadBack(meta: Metadata): Metadata {
    meta.(xgidTurn := None, scoreX := Int(OrZero(meta.scoreX)), scoreO := Int(OrZero(meta.scoreO)),
          matchLength := Int(OrZero(meta.matchLength)))
  }

  lemma ReadCubeField(meta: Metadata, k: nat)
    requires meta.cubeValue == Int(Pow2(k)) && k <= 9
    ensures CubeValueOf(CubeString(meta)) == meta.cubeValue
    ensures CubeOwnerOf(CubeString(meta)) == meta.cubeOwner
  {
    CubeStringRead(meta, k);
  }

  lemma ReadDiceField(dice: Option<Dice>)
    requires dice.Some? ==> 1 <= dice.value.d1 <= 6 && 1 <= dice.value.d2 <= 6
    ensures DiceOf(DiceField(dice)) == dice
  {
    DiceFieldRead(dice);
  }

  lemma ReadTurnField(onRoll: Option<Player>)
    ensures OnRollOf(TurnField(onRoll)) == onRoll
  {
    assert UpperString("W") == "W" && UpperString("B") == "B";
  }

  lemma ReadScoreField(n: JsNumber)
    ensures ScoreOf(IntString(OrZero(n))) == Int(OrZero(n))
  {
    ScoreRead(OrZero(n));
  }

  lemma ReadMatchField(meta: Metadata)
    requires OrZero(meta.matchLength) >= 0
    ensures MatchLengthOf(MatchField(meta)) == Int(OrZero(meta.matchLength))
    ensures CrawfordOf(MatchField(meta)) == meta.crawford
  {
    MatchFieldRead(meta);
  }

  lemma OgidMetadataRoundTrip(points: Points, meta: Metadata, k: nat)
    requires meta.cubeValue == Int(Pow2(k)) && k <= 9
    requires meta.dice.Some? ==> 1 <= meta.dice.value.d1 <= 6 && 1 <= meta.dice.value.d2 <= 6
    requires OrZero(meta.matchLength) >= 0
    ensures OgidMetadata(OgidFields(points, meta)) == OgidReadBack(meta)
  {
    MetadataOfFields(OgidFields(points, meta), meta, k);
  }

  /** The metadata read from fields that hold what the encoder writes for meta. */
  lemma MetadataOfFields(parts: seq<string>, meta: Metadata, k: nat)
    requires meta.cubeValue == Int(Pow2(k)) && k <= 9
    requires meta.dice.Some? ==> 1 <= meta.dice.value.d1 <= 6 && 1 <= meta.dice.value.d2 <= 6
    requires OrZero(meta.matchLength) >= 0
    requires |parts| == 10 && parts[2] == CubeString(meta) && parts[3] == DiceField(meta.dice)
    requires parts[4] == TurnField(meta.onRoll) && parts[8] == MatchField(meta)
    requires parts[6] == IntString(OrZero(meta.scoreX)) && parts[7] == IntString(OrZero(meta.scoreO))
    ensures OgidMetadata(parts) == OgidReadBack(meta)
  {
    ReadCubeField(meta, k);
    ReadDiceField(meta.dice);
    ReadTurnField(meta.onRoll);
    ReadScoreField(meta.scoreX);
    ReadScoreField(meta.scoreO);
    ReadMatchField(meta);
  }

  /**
    * An OGID round trip: parsing what `encodeOGID` writes gives back every
    * slot, whatever the counts, with the borne-off counts recomputed, and
    * the metadata when the cube is 2^k with k <= 9 (one digit), the dice
    * are 1..6 and the match length is not negative.
    */
  lemma OgidRoundTrip(points: Points, meta: Metadata, k: nat)
    requires meta.cubeValue == Int(Pow2(k)) && k <= 9
    requires meta.dice.Some? ==> 1 <= meta.dice.value.d1 <= 6 && 1 <= meta.dice.value.d2 <= 6
    requires OrZero(meta.matchLength) >= 0
    ensures OgidDecoded(OgidEncoded(points, meta))
      == Ok(Parsed(WithBorneOff(Position(points, 0, 0)), OgidReadBack(meta)))
  {
    OgidFieldsSplit(points, meta);
    TallyRoundTrip(points);
    OgidMetadataRoundTrip(points, meta, k);
  }

  /** X's characters number exactly X's checkers on the board. */
  lemma {:induction false} SideCharsLength(points: Points, n: nat)
    requires n <= Slots
    ensures |SideChars(points, X, n)| == XOnBoard(points[..n])
  {
    if n > 0 {
      SideCharsLength(points, n - 1);
      assert points[..n][..n - 1] == points[..n - 1];
    }
  }
}
