/**
  * The public entry points of the position parser: `detect`, which tells
  * the three position-ID formats apart by an explicit prefix or else by the
  * shape of the colon-separated fields, and `parse`, which hands the trimmed
  * input to that format's parser and makes O the player on roll when the
  * format did not say.
  */
module PositionParser {
  import opened Common
  import opened Board
  import opened Base64
  import opened Bits
  import opened Xgid
  import opened Gnuid
  import opened Ogid

  datatype Format = XgidFormat | GnuidFormat | OgidFormat

  /** `[a-pA-P\-]{26}` */
  predicate XgidShape(s: string) {
    |s| == 26 && forall i :: 0 <= i < |s| ==> IsXgidChar(s[i])
  }

  /** `[WBN][0-8][NOTP]` */
  predicate OgidCubeShape(s: string) {
    |s| == 3 && (s[0] == 'W' || s[0] == 'B' || s[0] == 'N') && '0' <= s[1] <= '8'
    && (s[2] == 'N' || s[2] == 'O' || s[2] == 'T' || s[2] == 'P')
  }

  /** A 14-character position ID, alone or with a 12-character match ID. */
  predicate GnuidShape(parts: seq<string>)
    requires |parts| >= 1
  {
    |parts[0]| == PositionIdLength && AllB64(parts[0])
    && (|parts| == 1 || (|parts| == 2 && |parts[1]| == 12 && AllB64(parts[1])))
  }

  predicate GnuidPrefixed(s: string) {
    StartsWithUpper(s, "GNUID=") || StartsWithUpper(s, "GNUBGID=") || StartsWithUpper(s, "GNUBGID ")
  }

  /** `detect`'s checks of the field shapes, in its order. */
  function DetectShape(parts: seq<string>): Result<Format>
    requires |parts| >= 1
  {
    if XgidShape(parts[0]) then Ok(XgidFormat)
    else if GnuidShape(parts) then Ok(GnuidFormat)
    else if |parts| >= 3 && OgidCubeShape(parts[2]) then Ok(OgidFormat)
    else Err(UnrecognizedFormat)
  }

  /** `detect` */
  function Detect(input: string): Result<Format> {
    var s := Trim(input);
    if StartsWithUpper(s, XgidPrefix) then Ok(XgidFormat)
    else if GnuidPrefixed(s) then Ok(GnuidFormat)
    else if StartsWithUpper(s, OgidPrefix) then Ok(OgidFormat)
    else DetectShape(Split(s, ':'))
  }

  /** `parse`'s result: the position, the metadata and the format that was detected. */
  datatype ParseResult = ParseResult(position: Position, metadata: Metadata, format: Format)

  /** The format's own parser on the trimmed input. */
  function ParseAs(fmt: Format, s: string): Result<Parsed> {
    match fmt
    case XgidFormat => XgidDecoded(s)
    case GnuidFormat => GnuidDecoded(s)
    case OgidFormat => OgidDecoded(s)
  }

  /** O is on roll when the format left the player on roll unset. */
  function DefaultOnRoll(meta: Metadata): (r: Metadata)
    ensures r.onRoll.Some?
    ensures meta.onRoll.Some? ==> r == meta
    ensures meta.onRoll.None? ==> r == meta.(onRoll := Some(O))
  {
    if meta.onRoll.None? then meta.(onRoll := Some(O)) else meta
  }

  /** What `parse` returns or throws. */
  function ParseDecoded(input: string): (r: Result<ParseResult>)
    ensures r.Ok? ==> r.value.metadata.onRoll.Some?
    ensures r.Ok? ==> Detect(input) == Ok(r.value.format)
  {
    var fmt :- Detect(input);
    var parsed :- ParseAs(fmt, Trim(input));
    Ok(ParseResult(parsed.position, DefaultOnRoll(parsed.metadata), fmt))
  }

  /** `parse` */
  method Parse(input: string) returns (r: Result<ParseResult>)
    ensures r == ParseDecoded(input)
  {
    var fmt := Detect(input);
    if fmt.Err? {
      return Err(fmt.error);
    }
    var result: Result<Parsed>;
    if fmt.value == XgidFormat {
      result := ParseXgid(Trim(input));
    } else if fmt.value == GnuidFormat {
      result := ParseGnuid(Trim(input));
    } else {
      result := ParseOgid(Trim(input));
    }
    if result.Err? {
      return Err(result.error);
    }
    var meta := result.value.metadata;
    if meta.onRoll.None? {
      meta := meta.(onRoll := Some(O));
    }
    r := Ok(ParseResult(result.value.position, meta, fmt.value));
  }

  // ── What detect makes of each encoder's output ─────────────────────

  /** No character of s is '=' or a space, so none of the prefixes is there. */
  lemma NoPrefixes(s: string)
    requires '=' !in s && ' ' !in s
    ensures !StartsWithUpper(s, XgidPrefix) && !GnuidPrefixed(s) && !StartsWithUpper(s, OgidPrefix)
  {
    if |s| >= 5 {
      assert s[4] != '=';
    }
    if |s| >= 6 {
      assert s[5] != '=';
    }
    if |s| >= 8 {
      assert s[7] != '=' && s[7] != ' ';
    }
  }

  /** An XGID as `encodeXGID` writes it has nothing for trim to remove. */
  lemma XgidEncodedNoSpace(pos: Position, meta: Metadata)
    ensures NoSpace(XgidEncoded(pos, meta))
    ensures Trim(XgidEncoded(pos, meta)) == XgidEncoded(pos, meta)
  {
    var fields := XgidFields(pos, meta);
    XgidFieldsNoSeparator(pos, meta);
    JoinNoSpace(fields, ':');
    var s := XgidEncoded(pos, meta);
    var j := Join(fields, ':');
    assert s == XgidPrefix + j;
    forall i | 0 <= i < |s|
      ensures !IsJsSpace(s[i])
    {
      if i >= 5 {
        assert s[i] == j[i - 5];
      }
    }
    TrimNoSpace(s);
  }

  lemma XgidPrefixUpper(j: string)
    ensures StartsWithUpper(XgidPrefix + j, XgidPrefix)
  {
    var s := XgidPrefix + j;
    assert s[0] == 'X' && s[1] == 'G' && s[2] == 'I' && s[3] == 'D' && s[4] == '=';
  }

  /** Text without white space that starts with `XGID=` is detected as an XGID. */
  lemma DetectXgidPrefixed(j: string)
    requires NoSpace(XgidPrefix + j)
    ensures Detect(XgidPrefix + j) == Ok(XgidFormat)
  {
    XgidPrefixUpper(j);
    TrimNoSpace(XgidPrefix + j);
  }

  /** `detect` recognises what `encodeXGID` writes by its prefix. */
  lemma DetectXgidEncoded(pos: Position, meta: Metadata)
    ensures Detect(XgidEncoded(pos, meta)) == Ok(XgidFormat)
  {
    XgidEncodedNoSpace(pos, meta);
    var j := Join(XgidFields(pos, meta), ':');
    assert XgidEncoded(pos, meta) == XgidPrefix + j;
    assert NoSpace(XgidPrefix + j);
    DetectXgidPrefixed(j);
  }

  /** Text with nothing to trim and none of the prefixes is detected by its fields' shapes. */
  lemma DetectUnprefixed(s: string)
    requires Trim(s) == s
    requires !StartsWithUpper(s, XgidPrefix) && !GnuidPrefixed(s) && !StartsWithUpper(s, OgidPrefix)
    ensures Detect(s) == DetectShape(Split(s, ':'))
  {
  }

  /** A 14-character and a 12-character base64 string joined by a colon are detected as a GNUID. */
  lemma DetectB64Pair(p: string, m: string)
    requires AllB64(p) && AllB64(m) && |p| == PositionIdLength && |m| == 12
    ensures Detect(p + ":" + m) == Ok(GnuidFormat)
  {
    ShapeB64Pair(p, m);
    TrimJoined(p, m);
    B64JoinedNoPrefix(p, m);
    DetectUnprefixed(p + ":" + m);
    SplitPair(p, m);
  }

  lemma ShapeB64Pair(p: string, m: string)
    requires AllB64(p) && AllB64(m) && |p| == PositionIdLength && |m| == 12
    ensures DetectShape([p, m]) == Ok(GnuidFormat)
  {
    assert !XgidShape([p, m][0]);
    assert GnuidShape([p, m]);
  }

  /** `detect` recognises what `encodeGNUID` writes by its shape. */
  lemma DetectGnuidEncoded(points: Points, meta: Metadata)
    requires TanBoardCheckers(PositionTanBoard(points)) <= 30
    ensures Detect(GnuidEncoded(points, meta)) == Ok(GnuidFormat)
  {
    var p, m := PositionIdEncoded(points), MatchIdEncoded(meta);
    PositionIdRoundTrip(points);
    EncodedLength(PackedBytes(MatchBits(meta), MatchIdBytes));
    DetectB64Pair(p, m);
  }

  lemma B64JoinedNoPrefix(p: string, m: string)
    requires AllB64(p) && AllB64(m)
    ensures var s := p + ":" + m;
      !StartsWithUpper(s, XgidPrefix) && !GnuidPrefixed(s) && !StartsWithUpper(s, OgidPrefix)
  {
    var s := p + ":" + m;
    forall i | 0 <= i < |s|
      ensures s[i] != '=' && s[i] != ' '
    {
      if i < |p| {
        assert s[i] == p[i];
      } else if i > |p| {
        assert s[i] == m[i - |p| - 1];
      }
    }
    NoPrefixes(s);
  }

  lemma NoSpaceNoBlank(s: string)
    requires NoSpace(s)
    ensures ' ' !in s
  {
  }

  /**
    * Fields without white space, colons or '=' whose first field is not an
    * XGID position, which are too many for a GNUID and whose third field
    * looks like an OGID cube, are detected as an OGID.
    */
  lemma DetectOgidFields(fields: seq<string>)
    requires |fields| >= 3
    requires forall i :: 0 <= i < |fields| ==> NoSpace(fields[i]) && ':' !in fields[i] && '=' !in fields[i]
    requires !XgidShape(fields[0]) && OgidCubeShape(fields[2])
    ensures Detect(Join(fields, ':')) == Ok(OgidFormat)
  {
    var s := Join(fields, ':');
    JoinedUnprefixed(fields);
    ShapeOgidFields(fields);
    SplitJoin(fields, ':');
    DetectUnprefixed(s);
  }

  /** Fields without white space or '=' joined by colons have nothing to trim and no prefix. */
  lemma JoinedUnprefixed(fields: seq<string>)
    requires forall i :: 0 <= i < |fields| ==> NoSpace(fields[i]) && '=' !in fields[i]
    ensures var s := Join(fields, ':');
      Trim(s) == s && !StartsWithUpper(s, XgidPrefix) && !GnuidPrefixed(s) && !StartsWithUpper(s, OgidPrefix)
  {
    var s := Join(fields, ':');
    JoinNoSpace(fields, ':');
    TrimNoSpace(s);
    JoinAvoids(fields, ':', '=');
    NoSpaceNoBlank(s);
    NoPrefixes(s);
  }

  lemma ShapeOgidFields(fields: seq<string>)
    requires |fields| >= 3
    requires !XgidShape(fields[0]) && OgidCubeShape(fields[2])
    ensures DetectShape(fields) == Ok(OgidFormat)
  {
    assert !GnuidShape(fields);
  }

  /**
    * `detect` recognises what `encodeOGID` writes by its cube field, when
    * X has at most 15 checkers on the board (26 of them could pass for an
    * XGID) and the cube is at most 2^8 (the shape allows the digits 0..8).
    */
  lemma DetectOgidEncoded(points: Points, meta: Metadata, k: nat)
    requires XOnBoard(points) <= CheckersPerSide
    requires meta.cubeValue == Int(Pow2(k)) && k <= 8
    ensures Detect(OgidEncoded(points, meta)) == Ok(OgidFormat)
  {
    OgidFieldsNoSeparator(points, meta);
    SideStringNotXgid(points);
    CubeStringShape(meta, k);
    DetectOgidFields(OgidFields(points, meta));
  }

  /** X's characters are too few to pass for an XGID position. */
  lemma SideStringNotXgid(points: Points)
    requires XOnBoard(points) <= CheckersPerSide
    ensures !XgidShape(SideString(points, X))
  {
    SideCharsLength(points, |points|);
    assert points[..|points|] == points;
  }

  /** The cube field of a cube of at most 2^8 has the shape `detect` looks for. */
  lemma CubeStringShape(meta: Metadata, k: nat)
    requires meta.cubeValue == Int(Pow2(k)) && k <= 8
    ensures OgidCubeShape(CubeString(meta))
  {
    CubeStringRead(meta, k);
    NatStringOneDigit(k);
    assert OrOne(meta.cubeValue) == Pow2(k);
    Log2OfPow2(k);
  }

  // ── parse after encode ─────────────────────────────────────────────

  /** `parse` reads back what `encodeXGID` wrote, as `parseXGID` does. */
  lemma ParseXgidEncoded(pos: Position, meta: Metadata, k: nat)
    requires forall i :: 0 <= i < 26 ==> -16 <= pos.points[i] <= 16
    requires meta.cubeValue == Int(Pow2(k))
    requires meta.dice.Some? ==> 1 <= meta.dice.value.d1 <= 6 && 1 <= meta.dice.value.d2 <= 6
    ensures ParseDecoded(XgidEncoded(pos, meta)) == Ok(ParseResult(WithBorneOff(pos), XgidReadBack(meta), XgidFormat))
  {
    DetectXgidEncoded(pos, meta);
    XgidEncodedNoSpace(pos, meta);
    XgidRoundTrip(pos, meta, k);
  }

  /**
    * Once the format is detected and the trimmed text parses with a player
    * on roll, `parse` returns that parse unchanged.
    */
  lemma ParseDetected(input: string, fmt: Format, parsed: Parsed)
    requires Detect(input) == Ok(fmt)
    requires ParseAs(fmt, Trim(input)) == Ok(parsed)
    requires parsed.metadata.onRoll.Some?
    ensures ParseDecoded(input) == Ok(ParseResult(parsed.position, parsed.metadata, fmt))
  {
  }

  /** `parse` reads back what `encodeGNUID` wrote, as `parseGNUID` does. */
  lemma ParseGnuidEncoded(points: Points, meta: Metadata, k: nat)
    requires TanBoardCheckers(PositionTanBoard(points)) <= 30
    requires meta.cubeValue == Int(Pow2(k)) && k < 15
    requires meta.dice.Some? ==> 1 <= meta.dice.value.d1 < 8 && 1 <= meta.dice.value.d2 < 8
    requires 0 <= OrZero(meta.matchLength) < 32768
    requires 0 <= OrZero(meta.scoreO) < 32768 && 0 <= OrZero(meta.scoreX) < 32768
    ensures ParseDecoded(GnuidEncoded(points, meta))
      == Ok(ParseResult(WithBorneOff(Position(GnuidNormalized(points), 0, 0)), MatchReadBack(meta), GnuidFormat))
  {
    var s := GnuidEncoded(points, meta);
    var parsed := Parsed(WithBorneOff(Position(GnuidNormalized(points), 0, 0)), MatchReadBack(meta));
    DetectGnuidEncoded(points, meta);
    GnuidParsedAs(points, meta, k);
    ParseAsGnuid(Trim(s), parsed);
    ParseDetected(s, GnuidFormat, parsed);
  }

  lemma ParseAsGnuid(s: string, parsed: Parsed)
    requires GnuidDecoded(s) == Ok(parsed)
    ensures ParseAs(GnuidFormat, s) == Ok(parsed)
  {
  }

  lemma GnuidParsedAs(points: Points, meta: Metadata, k: nat)
    requires TanBoardCheckers(PositionTanBoard(points)) <= 30
    requires meta.cubeValue == Int(Pow2(k)) && k < 15
    requires meta.dice.Some? ==> 1 <= meta.dice.value.d1 < 8 && 1 <= meta.dice.value.d2 < 8
    requires 0 <= OrZero(meta.matchLength) < 32768
    requires 0 <= OrZero(meta.scoreO) < 32768 && 0 <= OrZero(meta.scoreX) < 32768
    ensures GnuidDecoded(Trim(GnuidEncoded(points, meta)))
      == Ok(Parsed(WithBorneOff(Position(GnuidNormalized(points), 0, 0)), MatchReadBack(meta)))
  {
    GnuidEncodedTrimmed(points, meta);
    GnuidRoundTrip(points, meta, k);
  }

  lemma GnuidEncodedTrimmed(points: Points, meta: Metadata)
    requires TanBoardCheckers(PositionTanBoard(points)) <= 30
    ensures Trim(GnuidEncoded(points, meta)) == GnuidEncoded(points, meta)
  {
    PositionIdRoundTrip(points);
    EncodedLength(PackedBytes(MatchBits(meta), MatchIdBytes));
    TrimJoined(PositionIdEncoded(points), MatchIdEncoded(meta));
  }

  /** `parse` reads back what `encodeOGID` wrote, with O on roll when the OGID named nobody. */
  lemma ParseOgidEncoded(points: Points, meta: Metadata, k: nat)
    requires XOnBoard(points) <= CheckersPerSide
    requires meta.cubeValue == Int(Pow2(k)) && k <= 8
    requires meta.dice.Some? ==> 1 <= meta.dice.value.d1 <= 6 && 1 <= meta.dice.value.d2 <= 6
    requires OrZero(meta.matchLength) >= 0
    ensures ParseDecoded(OgidEncoded(points, meta))
      == Ok(ParseResult(WithBorneOff(Position(points, 0, 0)), DefaultOnRoll(OgidReadBack(meta)), OgidFormat))
  {
    var s := OgidEncoded(points, meta);
    var parsed := Parsed(WithBorneOff(Position(points, 0, 0)), OgidReadBack(meta));
    DetectOgidEncoded(points, meta, k);
    OgidParsedAs(points, meta, k);
    ParseAsOgid(Trim(s), parsed);
    ParseDetectedDefault(s, OgidFormat, parsed);
  }

  lemma OgidParsedAs(points: Points, meta: Metadata, k: nat)
    requires meta.cubeValue == Int(Pow2(k)) && k <= 8
    requires meta.dice.Some? ==> 1 <= meta.dice.value.d1 <= 6 && 1 <= meta.dice.value.d2 <= 6
    requires OrZero(meta.matchLength) >= 0
    ensures OgidDecoded(Trim(OgidEncoded(points, meta)))
      == Ok(Parsed(WithBorneOff(Position(points, 0, 0)), OgidReadBack(meta)))
  {
    OgidEncodedTrimmed(points, meta);
    OgidRoundTrip(points, meta, k);
  }

  lemma ParseAsOgid(s: string, parsed: Parsed)
    requires OgidDecoded(s) == Ok(parsed)
    ensures ParseAs(OgidFormat, s) == Ok(parsed)
  {
  }

  lemma OgidEncodedTrimmed(points: Points, meta: Metadata)
    ensures Trim(OgidEncoded(points, meta)) == OgidEncoded(points, meta)
  {
    OgidFieldsNoSeparator(points, meta);
    JoinNoSpace(OgidFields(points, meta), ':');
    TrimNoSpace(OgidEncoded(points, meta));
  }

  lemma ParseDetectedDefault(input: string, fmt: Format, parsed: Parsed)
    requires Detect(input) == Ok(fmt)
    requires ParseAs(fmt, Trim(input)) == Ok(parsed)
    ensures ParseDecoded(input) == Ok(ParseResult(parsed.position, DefaultOnRoll(parsed.metadata), fmt))
  {
  }

  // ── What detection guarantees the parsers ──────────────────────────

  /** A 14-character position ID never fails `parseGNUID` on its length. */
  lemma FromIdsLength(posId: string, matchIdStr: string)
    requires |posId| == PositionIdLength
    ensures GnuidFromIds(posId, matchIdStr) != Err(GnuidPositionLength)
  {
  }

  /** Detection by shape as a GNUID means a 14-character base64 first field. */
  lemma ShapeGnuidFirst(parts: seq<string>)
    requires |parts| >= 1 && DetectShape(parts) == Ok(GnuidFormat)
    ensures |parts[0]| == PositionIdLength && AllB64(parts[0])
  {
  }

  /** Without a prefix and with nothing to trim, `parseGNUID` splits the text itself. */
  lemma GnuidDecodedUnprefixed(s: string)
    requires Trim(s) == s && !GnuidPrefixed(s)
    ensures var parts := Split(s, ':');
      GnuidDecoded(s) == GnuidFromIds(Trim(parts[0]), if |parts| > 1 then Trim(parts[1]) else "")
  {
    assert StripGnuidPrefix(s) == s;
  }

  /** When `detect` picks GNUID by shape, `parseGNUID` never fails on the position ID's length. */
  lemma GnuidShapeHasLength(input: string)
    requires var s := Trim(input);
      !StartsWithUpper(s, XgidPrefix) && !GnuidPrefixed(s) && !StartsWithUpper(s, OgidPrefix)
    requires Detect(input) == Ok(GnuidFormat)
    ensures GnuidDecoded(Trim(input)) != Err(GnuidPositionLength)
  {
    var s := Trim(input);
    DetectByShape(input);
    ShapeGnuidFirst(Split(s, ':'));
    TrimTwice(input);
    GnuidFirstFieldOk(s);
  }

  /** Without a prefix, `detect` goes by the shapes of the fields. */
  lemma DetectByShape(input: string)
    requires var s := Trim(input);
      !StartsWithUpper(s, XgidPrefix) && !GnuidPrefixed(s) && !StartsWithUpper(s, OgidPrefix)
    ensures Detect(input) == DetectShape(Split(Trim(input), ':'))
  {
  }

  /** Unprefixed text whose first field is a 14-character base64 string gets past the length check. */
  lemma GnuidFirstFieldOk(s: string)
    requires Trim(s) == s && !GnuidPrefixed(s)
    requires |Split(s, ':')[0]| == PositionIdLength && AllB64(Split(s, ':')[0])
    ensures GnuidDecoded(s) != Err(GnuidPositionLength)
  {
    var parts := Split(s, ':');
    GnuidDecodedUnprefixed(s);
    FirstIdLength(parts[0], if |parts| > 1 then Trim(parts[1]) else "");
  }

  lemma FirstIdLength(p: string, m: string)
    requires |p| == PositionIdLength && AllB64(p)
    ensures GnuidFromIds(Trim(p), m) != Err(GnuidPositionLength)
  {
    TrimB64(p);
    FromIdsLength(p, m);
  }
}
