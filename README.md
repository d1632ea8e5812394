# Backgammon position IDs, XG match files and .mat export

This project models the three parsing and writing components of the AnkiGammon
website's converters, in Dafny, and proves properties of the model:

- **Position parser** (`position-parser.js`): reads and writes a backgammon
  position with its match state in three text formats. These are XGID (eXtreme
  Gammon), GNUID (GNU Backgammon: a Base64 Position ID and a Base64 Match ID over
  bit fields) and OGID (OpenGammon: checker letters plus colon-separated fields).
  It also holds the format auto-detection, the public `parse` entry point, the
  borne-off counts and the pip counts.
- **XG parser** (`xg-parser.js`): opens an eXtreme Gammon `.xg` file. The file is
  a GDF archive with an `HMGR` magic and a 36-byte trailer record. The parser
  reads the trailer, the registry (possibly deflated) and its 532-byte file
  index, finds `temp.xg` (in any letter case), extracts it and checks its `DMLI`
  magic. It then scans the 2560-byte records into the match header and the list
  of finished games with their moves and doubles.
- **MAT writer** (`mat-writer.js`): turns that parsed match into the text of a
  `.mat` file: a match-length header, then per game a title line, a two-column
  score line, the moves and cube actions paired into numbered two-column
  lines, and the result line.

Modules, one per file:

| module | models |
|---|---|
| `Common` | results and error kinds, JavaScript's `parseInt`, `String(n)`, `split`/`join`, `trim`, `toUpperCase`, prefix tests |
| `Base64` | `atob` (forgiving Base64 decode) and `btoa` with the trailing `=` removed, as RFC 4648 section 4 defines the alphabet |
| `Bits` | the GNUID bit helpers `bytesToBits`, `bitsToBytes`, `extractBits`, `setBits` |
| `Board` | the position and metadata records, `makePosition`, `calcBorneOff`, `log2`, `calculatePipCounts` |
| `Xgid`, `Gnuid`, `Ogid` | the parse and encode functions of each format |
| `PositionParser` | `detect` and the public `parse` |
| `XgRecords` | little-endian field reads, Delphi and UTF-16 strings, the record readers, the record scan |
| `XgArchive` | the archive layer and the top-level `parse` of an `.xg` file |
| `MatWriter` | `write` and its helpers |

Each source function that loops is a method whose loop is proved against a
specification function. The `ensures` of every such method equates its result
with that function. The properties the converters rely on are proved as lemmas
about those functions:

- every format's parse undoes its encode;
- detection picks the format an encoder produced;
- a one-file archive parses back to its payload;
- the record scan keeps only finished games and doubles;
- the `.mat` text splits back into its lines.

A thrown `Error` becomes an `Err` value carrying the kind of error. JavaScript
numbers that may be `NaN` (results of `parseInt`) are the datatype `JsNumber`.

Two behaviours of the code worth noting:

- When a GNUID has no Match ID, `parseGNUID` defaults `onRoll` to `'X'`
  (`position-parser.js:397-400`), not to O. `Gnuid.GnuidPositionOnly` states this.
- `detect` accepts an OGID cube field whose middle character is `0`-`8`
  (`position-parser.js:549`). `parseOGID` itself takes any cube field of three
  characters (`position-parser.js:454-460`). The model keeps both as written.

## Model

| member | source | states |
|---|---|---|
| Common.ParseIntUnsigned | website/public/js/position-parser.js:94-101 | `parseInt` of a run of decimal digits is the number they spell |
| Common.ParseIntNegative | website/public/js/position-parser.js:94-101 | `parseInt` of a minus sign followed by digits is the negated number |
| Common.ParseIntString | website/public/js/position-parser.js:184-187 | `parseInt` reads back `String(n)` for every integer n, so numbers written into an ID are read back unchanged |
| Common.DigitPrefixLength | website/public/js/position-parser.js:478 | the leading digit run matched by `^(\d+)` is a digit prefix, and the character after it is not a digit |
| Common.SplitJoin | website/public/js/position-parser.js:86 | splitting a joined list at a separator that no part contains gives the parts back |
| Common.JoinAvoids | website/public/js/mat-writer.js:41 | joining parts that avoid a character, with a different separator, gives a text that avoids it |
| Common.TrimTwice | website/public/js/position-parser.js:577-579 | trimming an already trimmed input changes nothing, so `parse` trimming before the per-format parser trims again is harmless |
| Common.TrimNoSpace | website/public/js/position-parser.js:384 | a text with no white space is its own trim |
| Base64.PadTo4 | website/public/js/position-parser.js:196 | the loop appends `=` until the length is a multiple of four: exactly `(4 - n % 4) % 4` of them |
| Base64.PaddingFills | website/public/js/position-parser.js:196 | the padded length is a multiple of four |
| Base64.DecodeB64 | website/public/js/position-parser.js:194-201 | `b64ToBytes` pads its input and returns what `atob` decodes, or fails where `atob` throws |
| Base64.BytesToB64 | website/public/js/position-parser.js:203-207 | `bytesToB64` is the unpadded Base64 encoding, three bytes to four characters |
| Base64.SextetRoundTrip | website/public/js/position-parser.js:192 | the alphabet's character for a 6-bit value decodes back to that value |
| Base64.StripPadding | website/public/js/position-parser.js:206 | `replace(/=+$/, '')` removes exactly the trailing `=` run |
| Base64.EncodedLength | website/public/js/position-parser.js:203-207 | n bytes encode to `4(n/3)` characters plus `n%3+1` for a partial group |
| Base64.DecodeEncode | website/public/js/position-parser.js:197-206 | decoding the characters `btoa` produced gives the bytes back |
| Base64.AtobPadded | website/public/js/position-parser.js:196-197 | `atob` of an encoding padded to four decodes its characters |
| Base64.B64RoundTrip | website/public/js/position-parser.js:194-207 | `b64ToBytes(bytesToB64(bytes))` returns the same bytes, for every byte sequence |
| Bits.BytesToBits | website/public/js/position-parser.js:209-217 | the bits are each byte's bits, least significant first; eight per byte |
| Bits.ExtractBits | website/public/js/position-parser.js:229-235 | the value ORs bit `start+i` into place i, and bits past the end count as 0 |
| Bits.ExtractBound | website/public/js/position-parser.js:229-235 | an extracted field of `count` bits is below `2^count` |
| Bits.ExtractPastEnd | website/public/js/position-parser.js:232 | bits beyond the array contribute nothing |
| Bits.BitsToBytes | website/public/js/position-parser.js:219-227 | byte j ORs bits `8j`..`8j+7` (those that exist) into place; exactly `numBytes` bytes |
| Bits.PackBitsOf | website/public/js/position-parser.js:209-227 | packing the bits of some bytes gives the bytes back |
| Bits.BitsOfPacked | website/public/js/position-parser.js:209-227 | unpacking `8n` packed bits gives the bits back |
| Bits.PackedByteValue | website/public/js/position-parser.js:219-235 | a packed byte is the 8-bit field extracted at its offset |
| Bits.SetBits | website/public/js/position-parser.js:237-241 | the array afterwards holds bit i of value at `start+i` for i < count, and is unchanged elsewhere |
| Bits.ExtractAfterSet | website/public/js/position-parser.js:229-241 | extracting a field just set gives the value modulo `2^count`, and the value itself when it fits |
| Bits.ExtractDisjoint | website/public/js/position-parser.js:237-241 | setting one field leaves every disjoint field's value unchanged |
| Bits.ExtractModPrefix | website/public/js/position-parser.js:229-235 | the low m bits of a field are the m-bit field at the same start |
| Board.MakePosition | website/public/js/position-parser.js:21-27 | 26 empty slots and nothing borne off |
| Board.CalcBorneOff | website/public/js/position-parser.js:29-37 | slots unchanged; `xOff` is 15 minus X's checkers on board, `oOff` 15 minus O's |
| Board.CheckersSplit | website/public/js/position-parser.js:29-37 | the two per-side totals add up to the total of absolute slot counts |
| Board.Log2 | website/public/js/position-parser.js:39-44 | the loop computes the floor of log2 (0 for values at most 1) |
| Board.Log2Bounds | website/public/js/position-parser.js:39-44 | for v ≥ 1 the result n satisfies `2^n <= v < 2^(n+1)` |
| Board.Log2OfPow2 | website/public/js/position-parser.js:39-44 | `log2(2^k) == k`, so a cube value written as its exponent reads back |
| Board.CalculatePipCounts | website/public/js/position-parser.js:558-567 | X's pips weight point p by 25-p and the bar by 25; O's weight p by p and its bar by 25; both non-negative |
| Board.MirrorPips | website/public/js/position-parser.js:558-567 | mirroring the board swaps the two counts: X's pips of the mirror are O's pips |
| Xgid.DecodeCheckerCount | website/public/js/position-parser.js:48-66 | defined exactly on `-`, `a`-`p`, `A`-`P` (other characters are an error); the result is in -16..16 and is 0 only for `-` |
| Xgid.EncodeCheckerCount | website/public/js/position-parser.js:68-80 | always a valid XGID character, `-` exactly for an empty slot |
| Xgid.CountRoundTrip | website/public/js/position-parser.js:48-80 | decoding the encoding of a count in -16..16 gives the count, for either turn |
| Xgid.CountClamped | website/public/js/position-parser.js:70 | counts beyond 16 come back as ±16 |
| Xgid.CharRoundTrip | website/public/js/position-parser.js:48-80 | encoding a decoded character gives the character |
| Xgid.SourceSlot | website/public/js/position-parser.js:105-117 | turn 1 reads slot i from character i; any other turn reads it from character 25-i |
| Xgid.DecodeSlots | website/public/js/position-parser.js:104-117 | succeeds exactly when all 26 characters are valid; each slot is the decode of its source character |
| Xgid.DecodedSlotsUnique | website/public/js/position-parser.js:104-117 | the decoded slots are determined by the text and the turn |
| Xgid.DecodeSlotsFails | website/public/js/position-parser.js:59 | one invalid character anywhere makes the decode fail |
| Xgid.DecodeXgidSlots | website/public/js/position-parser.js:104-117 | the decoding loops compute `DecodeSlots` |
| Xgid.DecodeSlotsForward | website/public/js/position-parser.js:105-109 | the turn-1 loop computes `DecodeSlots` |
| Xgid.DecodeSlotsReversed | website/public/js/position-parser.js:110-117 | the reversed loop, with the two bar slots handled first, computes `DecodeSlots` |
| Xgid.XgidDiceExactly | website/public/js/position-parser.js:140-149 | dice are set exactly when the upper-cased trimmed field is two digits each 1-6 |
| Xgid.DicePairExactly | website/public/js/position-parser.js:142-147 | the two-digit test and the 1-6 range check, both directions |
| Xgid.XgidFromParts | website/public/js/position-parser.js:86-151 | fewer than 9 fields or a position that is not 26 characters is an error; on success the metadata is read from the fields, with O on roll |
| Xgid.ParseXgid | website/public/js/position-parser.js:82-152 | `parseXGID` strips `XGID=` in any case, splits at colons and decodes |
| Xgid.ParseXgidFields | website/public/js/position-parser.js:86-151 | the field checks and decoding steps compute `XgidFromParts` |
| Xgid.ReadXgidMetadata | website/public/js/position-parser.js:94-149 | cube, owner, scores, Crawford, match length and dice are read as the function specifies |
| Xgid.XgidReversed | website/public/js/position-parser.js:110-125 | for turn -1 slot j comes from character 25-j, the cube position is negated and the two scores are swapped |
| Xgid.CubePosRead | website/public/js/position-parser.js:171-182 | the cube position written for an owner, negated for turn -1, reads back as that owner |
| Xgid.EncodeXgidChars | website/public/js/position-parser.js:156-168 | the encoding loops compute 26 characters, reversed when the turn is not 1 |
| Xgid.EncodeXgid | website/public/js/position-parser.js:154-188 | `encodeXGID` builds `XGID=` followed by the ten colon-joined fields |
| Xgid.ParseIntNumberString | website/public/js/position-parser.js:177-187 | a number (or `NaN`) written into a field reads back with `parseInt` |
| Xgid.XgidFieldsSplit | website/public/js/position-parser.js:184-187 | after the prefix, splitting the ID at colons gives back the ten fields |
| Xgid.XgidSlotsRoundTrip | website/public/js/position-parser.js:104-168 | decoding the encoded 26 characters gives back every slot count in -16..16 |
| Xgid.DiceStringRoundTrip | website/public/js/position-parser.js:140-173 | written dice (or `00`) read back as the same dice (or none) |
| Xgid.XgidMetadataRoundTrip | website/public/js/position-parser.js:128-187 | reading the written fields gives the metadata back: turn kept, O on roll, missing numbers as 0 |
| Xgid.XgidRoundTrip | website/public/js/position-parser.js:82-188 | `parseXGID(encodeXGID(pos, meta))` succeeds with the same slots, recomputed borne-off counts and the read-back metadata, for a power-of-two cube and valid dice |
| Gnuid.CountRun | website/public/js/position-parser.js:259-262 | counts the run of 1 bits from a start; the run stops at a 0 or the end |
| Gnuid.RunStartNext | website/public/js/position-parser.js:256-267 | each TanBoard entry's run starts right after the previous run and its 0 separator |
| Gnuid.DecodeTanBoard | website/public/js/position-parser.js:251-267 | the nested loops fill the 50 entries with the run lengths; entries after the bits run out stay 0 |
| Gnuid.TanBoardToPoints | website/public/js/position-parser.js:269-283 | X's entries map to points 24..1 and X's bar, O's to points 1..24 (negated) and O's bar |
| Gnuid.DecodePositionId | website/public/js/position-parser.js:243-285 | a Position ID that does not decode to 10 bytes is an error; otherwise the position of its TanBoard with borne-off counts |
| Gnuid.EncodeTanBoard | website/public/js/position-parser.js:288-304 | the loops build the 50-entry TanBoard specified by `PositionTanBoard` |
| Gnuid.TanBoardBits | website/public/js/position-parser.js:306-313 | each entry becomes that many 1 bits and a 0 separator |
| Gnuid.RunBitsLength | website/public/js/position-parser.js:306-313 | the bit string is one bit per entry plus one per checker |
| Gnuid.PadBits | website/public/js/position-parser.js:314 | padding keeps the bits and appends zeros up to the length |
| Gnuid.PadTo80 | website/public/js/position-parser.js:314 | the loop pads with 0 bits up to 80 |
| Gnuid.EncodePositionId | website/public/js/position-parser.js:287-318 | `encodePositionId` packs the TanBoard bits into 10 bytes of unpadded Base64 |
| Gnuid.TanBoardOfRunBits | website/public/js/position-parser.js:251-313 | reading runs from the encoded bits gives back each entry (negative entries as 0) |
| Gnuid.TanBoardPointsRoundTrip | website/public/js/position-parser.js:269-304 | mapping the TanBoard back gives the slots, except that a negative X bar and a positive O bar become 0 |
| Gnuid.PositionIdRoundTrip | website/public/js/position-parser.js:243-318 | with at most 30 checkers the ID has 14 characters and decodes to the normalized position |
| Gnuid.EncodeMatchId | website/public/js/position-parser.js:353-381 | `encodeMatchId` sets the fields of 72 zero bits and packs them into 9 bytes of unpadded Base64 |
| Gnuid.MatchBitsFields | website/public/js/position-parser.js:353-378 | the 72 bits hold cube log, owner, Crawford, game state, turn, dice, match length and both scores at their offsets |
| Gnuid.DecodeMatchId | website/public/js/position-parser.js:320-351 | a Match ID that does not decode to 9 bytes is an error; otherwise the metadata read from the fields |
| Gnuid.MatchBitsReadBack | website/public/js/position-parser.js:320-378 | reading back the written fields gives the metadata back (none on roll becomes X) |
| Gnuid.MatchIdRoundTrip | website/public/js/position-parser.js:320-381 | the Match ID has 12 characters and decodes to the read-back metadata, for a power-of-two cube below 2^15, dice below 8 and counts below 2^15 |
| Gnuid.ParseGnuid | website/public/js/position-parser.js:383-403 | `parseGNUID` trims, strips `GNUID=`, `GNUBGID=` or `GNUBGID ` in any case, checks the 14-character Position ID and decodes both IDs |
| Gnuid.EncodeGnuid | website/public/js/position-parser.js:405-409 | the Position ID, a colon and the Match ID |
| Gnuid.GnuidCut | website/public/js/position-parser.js:383-391 | a colon-joined pair of Base64 IDs is cut back into the two IDs |
| Gnuid.GnuidRoundTrip | website/public/js/position-parser.js:383-409 | `parseGNUID(encodeGNUID(pos, meta))` gives the normalized position and the read-back metadata |
| Gnuid.GnuidPositionOnly | website/public/js/position-parser.js:396-400 | a Position ID alone gives the default metadata, with X on roll |
| Ogid.CharToPoint | website/public/js/position-parser.js:413-418 | defined exactly on `0`-`9` and `a`-`p`, giving slots 0-25; other characters are an error |
| Ogid.PointToChar | website/public/js/position-parser.js:420-424 | defined exactly on slots 0-25, and `charToPoint` inverts it |
| Ogid.CharPointRoundTrip | website/public/js/position-parser.js:413-424 | `pointToChar(charToPoint(c)) == c` for every OGID character |
| Ogid.SlotCharOrder | website/public/js/position-parser.js:502 | slot characters sort in slot order, so `sort()` orders them by slot |
| Ogid.TallyLoop | website/public/js/position-parser.js:440-445 | the loop adds delta to the slot of each character, or stops on an invalid one |
| Ogid.TallyOgid | website/public/js/position-parser.js:439-445 | white characters count +1 and black -1 per slot; any invalid character is an error |
| Ogid.OgidDice | website/public/js/position-parser.js:463-469 | dice read from the field are each 1-6 |
| Ogid.ParseIntOneChar | website/public/js/position-parser.js:456 | `parseInt` of one character is its digit or `NaN` |
| Ogid.ReadOgidCube | website/public/js/position-parser.js:454-460 | a three-character cube field sets value `2^digit` and owner W→X, B→O, else centered |
| Ogid.ReadOgidTurn | website/public/js/position-parser.js:470-474 | `W` (any case) puts X on roll, `B` O, anything else leaves it unset |
| Ogid.ReadOgidMatch | website/public/js/position-parser.js:477-481 | the match length is the leading digit run, and Crawford is set by any `C` |
| Ogid.ReadOgidMetadata | website/public/js/position-parser.js:448-481 | the optional fields are read only when present and non-empty |
| Ogid.ParseOgid | website/public/js/position-parser.js:426-484 | `parseOGID` strips `OGID=` in any case, needs three fields and tallies the checkers |
| Ogid.SideChars | website/public/js/position-parser.js:487-495 | every character written is a valid OGID character for a slot below the bound |
| Ogid.EncodeOgid | website/public/js/position-parser.js:486-521 | `encodeOGID` writes ten colon-joined fields: both sides' characters, cube, dice, turn, an empty state, scores, match length with `C`, an empty move ID |
| Ogid.SideCharsSorted | website/public/js/position-parser.js:487-502 | the characters are emitted already sorted |
| Ogid.SortedUnique | website/public/js/position-parser.js:502 | two sorted texts with the same characters are equal, so the model's identity stands for `sort()` |
| Ogid.SideCharsCount | website/public/js/position-parser.js:487-495 | each slot's character appears as often as that side's checkers on it |
| Ogid.TallyRoundTrip | website/public/js/position-parser.js:439-502 | tallying both written sides gives the slot counts back |
| Ogid.OgidFieldsSplit | website/public/js/position-parser.js:502-520 | splitting the encoding at colons gives the ten fields back |
| Ogid.CubeStringRead | website/public/js/position-parser.js:454-500 | the written cube field reads back as the cube value and owner |
| Ogid.DiceFieldRead | website/public/js/position-parser.js:463-505 | the dice field is empty exactly without dice, and otherwise reads back as the dice |
| Ogid.MatchFieldRead | website/public/js/position-parser.js:477-516 | the match field reads back as the length, and contains `C` exactly for Crawford |
| Ogid.OgidMetadataRoundTrip | website/public/js/position-parser.js:448-520 | reading the written fields gives the metadata back, missing numbers as 0 |
| Ogid.OgidRoundTrip | website/public/js/position-parser.js:426-521 | `parseOGID(encodeOGID(pos, meta))` gives the slots with borne-off counts and the read-back metadata, for a cube of `2^k` with k ≤ 9 |
| PositionParser.DefaultOnRoll | website/public/js/position-parser.js:581-582 | a set player on roll is kept; an unset one becomes O |
| PositionParser.ParseDecoded | website/public/js/position-parser.js:574-586 | a successful parse always has someone on roll, and its format is what `detect` reports |
| PositionParser.Parse | website/public/js/position-parser.js:574-586 | `parse` detects, trims, runs that format's parser and defaults `onRoll` |
| PositionParser.NoPrefixes | website/public/js/position-parser.js:528-532 | a text with no `=` and no space carries none of the explicit prefixes |
| PositionParser.DetectXgidPrefixed | website/public/js/position-parser.js:530 | anything starting `XGID=` is detected as XGID |
| PositionParser.DetectUnprefixed | website/public/js/position-parser.js:534-553 | without a prefix, detection looks only at the shape of the colon-separated fields |
| PositionParser.DetectB64Pair | website/public/js/position-parser.js:541-546 | a 14-character and a 12-character Base64 ID joined by a colon are detected as GNUID |
| PositionParser.DetectOgidFields | website/public/js/position-parser.js:548-551 | fields whose third is a cube field, and whose first is not XGID-shaped, are detected as OGID |
| PositionParser.DetectXgidEncoded | website/public/js/position-parser.js:154-188 | what `encodeXGID` writes is detected as XGID |
| PositionParser.DetectGnuidEncoded | website/public/js/position-parser.js:405-409 | what `encodeGNUID` writes is detected as GNUID |
| PositionParser.DetectOgidEncoded | website/public/js/position-parser.js:486-521 | what `encodeOGID` writes is detected as OGID, for at most 15 X checkers and a cube of `2^k` with k ≤ 8 |
| PositionParser.ParseDetected | website/public/js/position-parser.js:574-586 | when the detected format's parser succeeds with someone on roll, `parse` returns that result tagged with the format |
| PositionParser.ParseDetectedDefault | website/public/js/position-parser.js:574-586 | the same, with O filled in when no one is on roll |
| PositionParser.ParseXgidEncoded | website/public/js/position-parser.js:82-188 | `parse` of an encoded XGID gives the position and metadata back, as XGID |
| PositionParser.ParseGnuidEncoded | website/public/js/position-parser.js:383-409 | `parse` of an encoded GNUID gives the normalized position and metadata back, as GNUID |
| PositionParser.ParseOgidEncoded | website/public/js/position-parser.js:426-521 | `parse` of an encoded OGID gives the position and metadata back, O on roll if none, as OGID |
| PositionParser.GnuidShapeHasLength | website/public/js/position-parser.js:541-546 | when detection picks GNUID by shape, `parseGNUID` never rejects the Position ID's length |
| PositionParser.DetectByShape | website/public/js/position-parser.js:534-553 | an unprefixed input is detected by the shape of its trimmed fields |
| XgRecords.Uint16At | website/public/js/xg-parser.js:44 | a little-endian 16-bit read is below 2^16 |
| XgRecords.Uint32At | website/public/js/xg-parser.js:52 | a little-endian unsigned 32-bit read is below 2^32 |
| XgRecords.ToInt32 | website/public/js/xg-parser.js:51 | the signed read lies in -2^31..2^31-1 and agrees with the unsigned one modulo 2^32 |
| XgRecords.Int32RoundTrip | website/public/js/xg-parser.js:51 | reading back a written 32-bit integer gives it back |
| XgRecords.ReadPutInts | website/public/js/xg-parser.js:51 | each integer of a written run reads back at its offset |
| XgRecords.PutIntsOther | website/public/js/xg-parser.js:51 | writing a run leaves every disjoint field unchanged |
| XgRecords.DelphiString | website/public/js/xg-parser.js:31-38 | a Delphi string is as long as its length byte says |
| XgRecords.ReadDelphiString | website/public/js/xg-parser.js:31-38 | the loop reads the length byte's count of Latin-1 characters (missing bytes read as NUL) |
| XgRecords.DelphiRoundTrip | website/public/js/xg-parser.js:31-38 | a Latin-1 name under 256 characters, written with its length byte, reads back |
| XgRecords.Utf16StringUnits | website/public/js/xg-parser.js:41-49 | the text holds the code units up to the first 0 or maxChars, each as its character |
| XgRecords.ReadUtf16String | website/public/js/xg-parser.js:41-49 | the loop computes `Utf16String` |
| XgRecords.PreferUnicode | website/public/js/xg-parser.js:218-219 | a non-empty Unicode name wins over the Delphi name |
| XgRecords.PlayerNames | website/public/js/xg-parser.js:199-219 | before version 24 the names are the Delphi strings at offsets 9 and 50 |
| XgRecords.HeaderMatchAt | website/public/js/xg-parser.js:142-226 | the match length is 0 exactly when stored as 0 or 99999 (unlimited), and never 99999 |
| XgRecords.ReadMoves | website/public/js/xg-parser.js:256-260 | the loop reads the eight 32-bit moves from offset 68 |
| XgRecords.ReadMoveEntry | website/public/js/xg-parser.js:251-274 | active player, moves, dice and cube read as specified |
| XgRecords.MoveEntryRoundTrip | website/public/js/xg-parser.js:251-274 | a move entry written at offsets 64-108 reads back |
| XgRecords.CubeEntryRoundTrip | website/public/js/xg-parser.js:282-292 | a cube entry written at offsets 12-32 reads back |
| XgRecords.FooterGameRoundTrip | website/public/js/xg-parser.js:301-308 | a game footer written at offsets 24-32 reads back |
| XgRecords.HeaderGameRoundTrip | website/public/js/xg-parser.js:235-243 | scores and game number written at 12, 16 and 48 read back |
| XgRecords.RecordAt | website/public/js/xg-parser.js:383-433 | a record is a match header exactly when its type byte is 0, a game footer exactly when it is 4 |
| XgRecords.Records | website/public/js/xg-parser.js:374-380 | one record per whole 2560 bytes |
| XgRecords.AppendKeepsDoubles | website/public/js/xg-parser.js:408-419 | only cube entries with `double == 1` are kept among the actions |
| XgRecords.ApplyWellFormed | website/public/js/xg-parser.js:385-433 | each record keeps the invariant: finished games have footers, and every kept cube action is a double |
| XgRecords.ScanWellFormed | website/public/js/xg-parser.js:380-434 | the whole scan keeps the invariant |
| XgRecords.GamesOnlyGrow | website/public/js/xg-parser.js:422-428 | games are only ever appended: the games after a prefix are a prefix of the final games |
| XgRecords.GamesAtMostFooters | website/public/js/xg-parser.js:422-428 | there are no more games than game footers |
| XgRecords.ScanMatchNone | website/public/js/xg-parser.js:386-389 | no match header is found exactly when no record is one |
| XgRecords.ScanMatchLast | website/public/js/xg-parser.js:386-389 | the match header kept is the last one in the file |
| XgRecords.RecordsParsed | website/public/js/xg-parser.js:373-440 | every returned game has a footer, and its cube actions are all doubles |
| XgRecords.RecordsParsedSpec | website/public/js/xg-parser.js:373-440 | the scan fails, and only with "no match header", exactly when no record is a match header; otherwise the match is the last header, and there are at most as many games as footers |
| XgRecords.HandleRecord | website/public/js/xg-parser.js:383-433 | the switch applies one record to the scan state |
| XgRecords.ScanRecords | website/public/js/xg-parser.js:373-440 | the record loop computes `RecordsParsed` |
| XgArchive.SubView | website/public/js/xg-parser.js:339 | a byte view exists exactly when offset and length are non-negative and fit; otherwise a range error |
| XgArchive.OwnBuffer | website/public/js/xg-parser.js:342 | decompressed bytes are a view of their own buffer |
| XgArchive.Decompress | website/public/js/xg-parser.js:57-67 | zlib inflate is tried first, then raw inflate; failure only when both fail |
| XgArchive.ArchiveRecordFields | website/public/js/xg-parser.js:75-85 | the trailer fields are read at offsets 0-20 of the last 36 bytes |
| XgArchive.ArchiveRecordRoundTrip | website/public/js/xg-parser.js:75-85 | a trailer written after any prefix reads back |
| XgArchive.FileEntryAt | website/public/js/xg-parser.js:93-112 | entry i reads when its bytes up to the flag fit in the buffer; otherwise a range error |
| XgArchive.FileIndex | website/public/js/xg-parser.js:91-115 | the index holds exactly `filecount` entries, entry i read at `i*532` |
| XgArchive.FileIndexOk | website/public/js/xg-parser.js:91-115 | the index reads exactly when the last entry fits |
| XgArchive.ParseFileIndex | website/public/js/xg-parser.js:91-115 | the loop computes `FileIndex` |
| XgArchive.EntryBytesNumbers | website/public/js/xg-parser.js:98-111 | sizes, start and CRC are at 512-524, and flag byte 0 means compressed |
| XgArchive.EntryBytesName | website/public/js/xg-parser.js:95 | the name is the Delphi string at the entry's start |
| XgArchive.FileEntryRoundTrip | website/public/js/xg-parser.js:91-115 | an entry written at slot i of the registry reads back |
| XgArchive.TempXgAnyCase | website/public/js/xg-parser.js:352 | a name matches exactly when it is `temp.xg` with each letter in either case |
| XgArchive.TempXgIndex | website/public/js/xg-parser.js:350-359 | the first file named `temp.xg`, or none when no file is |
| XgArchive.FindTempXg | website/public/js/xg-parser.js:350-356 | the search loop computes `TempXgIndex` |
| XgArchive.FirstMatchUnique | website/public/js/xg-parser.js:350-356 | any index that is a match with no earlier match is the one found |
| XgArchive.CompressedSlice | website/public/js/xg-parser.js:127-131 | a RangeError exactly when the start or the length is negative; otherwise exactly `min(available, max(csize, 2*osize))` bytes of the buffer from the start, where `available` runs up to the trailer |
| XgArchive.ExtractArchiveFile | website/public/js/xg-parser.js:120-133 | a stored file is its `osize` bytes at its start; a compressed one is the decompressed slice |
| XgArchive.Registry | website/public/js/xg-parser.js:334-345 | an uncompressed registry is the view of `registrysize` bytes before the trailer |
| XgArchive.ArchiveFiles | website/public/js/xg-parser.js:339-347 | the file list has `filecount` entries |
| XgArchive.ReadArchiveFiles | website/public/js/xg-parser.js:339-347 | the registry and index steps compute `ArchiveFiles` |
| XgArchive.TempXgPayload | website/public/js/xg-parser.js:350-371 | no `temp.xg` is an error; a returned payload passes the `DMLI` check |
| XgArchive.ExtractTempXg | website/public/js/xg-parser.js:349-371 | the find, extract and magic-check steps compute `TempXgPayload` |
| XgArchive.Payload | website/public/js/xg-parser.js:312-371 | too small and missing `HMGR` are errors; a payload comes only from an archive with files |
| XgArchive.XgParsed | website/public/js/xg-parser.js:312-441 | a parsed match is the record scan of the payload |
| XgArchive.Parse | website/public/js/xg-parser.js:312-441 | `parse` computes `XgParsed` |
| XgArchive.OneFileRegistry | website/public/js/xg-parser.js:334-345 | in a one-file archive the registry is the single entry's bytes |
| XgArchive.SingleEntryIndex | website/public/js/xg-parser.js:91-115 | a one-entry registry gives a one-file index |
| XgArchive.OneFileExtract | website/public/js/xg-parser.js:120-125 | the stored `temp.xg` is extracted unchanged |
| XgArchive.OneFilePayload | website/public/js/xg-parser.js:312-371 | the payload of a one-file archive is the stored `temp.xg` |
| XgArchive.OneFileRoundTrip | website/public/js/xg-parser.js:312-441 | parsing a one-file archive of `temp.xg` data is the record scan of that data |
| MatWriter.PointStr | website/public/js/mat-writer.js:20-24 | the decimal of `xgPoint + 1`, clamped at 0 |
| MatWriter.SubMovePartsClean | website/public/js/mat-writer.js:39 | no sub-move text holds a space or a newline |
| MatWriter.FormatSubMoves | website/public/js/mat-writer.js:30-42 | the loop stops at a -1, skips `from == to` pairs and joins the rest with spaces |
| MatWriter.SubMovesSplit | website/public/js/mat-writer.js:30-42 | at most four sub-moves; no sub-moves give the empty text, and otherwise splitting at spaces gives them back |
| MatWriter.SubMovesStopAtEnd | website/public/js/mat-writer.js:36 | moves after a -1 end marker never change the text |
| MatWriter.DiceLargerFirst | website/public/js/mat-writer.js:47-51 | the larger die is written first, so the order of the dice does not matter |
| MatWriter.PadRight | website/public/js/mat-writer.js:56-60 | the loop computes `Padded`: the text followed by spaces up to the width |
| MatWriter.PaddedShape | website/public/js/mat-writer.js:56-59 | the padded text keeps the text as a prefix, is `max(len, width)` long and is spaces after it |
| MatWriter.Columns | website/public/js/mat-writer.js:110-111 | a left part that fits gives a line whose right column starts at 42 |
| MatWriter.FormatMoveNum | website/public/js/mat-writer.js:64-68 | the loop computes `MoveNumber` |
| MatWriter.MoveNumberShape | website/public/js/mat-writer.js:64-68 | a space, the number with `)` right-aligned in three columns, a space |
| MatWriter.MoveNumberWidth | website/public/js/mat-writer.js:64-68 | move numbers below 100 take five characters |
| MatWriter.DoubleCubeValue | website/public/js/mat-writer.js:73-77 | the new cube is `2^(abs(cubeB)+1)`, which is 2 for a centered cube |
| MatWriter.ResponseText | website/public/js/mat-writer.js:131-138 | a response is written exactly for take 0, 1 or 2 |
| MatWriter.CubeTurn | website/public/js/mat-writer.js:122-165 | a cube action updates the lines, pending left text and move number as `Step` specifies |
| MatWriter.MoveTurn | website/public/js/mat-writer.js:167-189 | a move updates them as `Step` specifies |
| MatWriter.PairActions | website/public/js/mat-writer.js:115-190 | the action loop computes the fold of `Step` |
| MatWriter.MoveTurnEffect | website/public/js/mat-writer.js:174-188 | a left move only sets the pending text; a right move emits one line starting with the pending text (or the move number) and advances the number |
| MatWriter.LeftMoveOverwritten | website/public/js/mat-writer.js:174-176 | two left moves in a row: the first is lost |
| MatWriter.NonDoubleIgnored | website/public/js/mat-writer.js:128-164 | a cube entry that is not a double changes nothing |
| MatWriter.TurnEmitted | website/public/js/mat-writer.js:140-188 | each action emits a fixed number of lines, each at least 42 characters wide |
| MatWriter.StepsAppend | website/public/js/mat-writer.js:119-190 | the loop only appends lines, all at least 42 wide |
| MatWriter.ActionLinesWide | website/public/js/mat-writer.js:119-196 | the game's action lines (with the flushed pending line) are all at least 42 wide, and counted |
| MatWriter.BuildResult | website/public/js/mat-writer.js:200-205 | the result text is three spaces and the result words |
| MatWriter.ResultWordsPlural | website/public/js/mat-writer.js:202-205 | "point" takes an `s` exactly when the points differ from 1; " and the match" ends it exactly on the last game of a match |
| MatWriter.ResultLineColumns | website/public/js/mat-writer.js:199-212 | the left player's result starts the line; the right player's is preceded by exactly 42 spaces; both trim to the words |
| MatWriter.WriteHead | website/public/js/mat-writer.js:106-112 | appends the game line and the score line |
| MatWriter.ScoreLineColumns | website/public/js/mat-writer.js:108-112 | the left player and score2 start the line, the right player and score1 start column 42 |
| MatWriter.WriteActions | website/public/js/mat-writer.js:114-196 | appends the paired action lines and the flushed pending line |
| MatWriter.WriteFooter | website/public/js/mat-writer.js:198-212 | appends the result line (left or right column by winner) when the game has a footer, and nothing otherwise |
| MatWriter.WriteGame | website/public/js/mat-writer.js:101-215 | appends the game's lines |
| MatWriter.GameLinesShape | website/public/js/mat-writer.js:105-214 | a game is its title, its score line, its action lines, its result if any and an empty line |
| MatWriter.GamesLinesNext | website/public/js/mat-writer.js:101-215 | each game's lines follow the previous games' lines |
| MatWriter.Write | website/public/js/mat-writer.js:82-218 | `write` computes `MatText`: the header, an empty line and every game's lines joined with newlines |
| MatWriter.HeaderLineReadBack | website/public/js/mat-writer.js:88-92 | `parseInt` of the header gives the match length, or `NaN` for "Unlimited game" |
| MatWriter.FullMoveOneLine | website/public/js/mat-writer.js:169-171 | a move's text holds no newline |
| MatWriter.StepOneLine | website/public/js/mat-writer.js:119-190 | no action adds a line holding a newline |
| MatWriter.GamesOneLine | website/public/js/mat-writer.js:101-215 | with one-line player names, no game line holds a newline |
| MatWriter.MatTextSplit | website/public/js/mat-writer.js:82-218 | with one-line player names, splitting the `.mat` text at newlines gives back exactly the lines written |

## Left out

- Error messages: an `Err` carries the kind of error only. The text of each message is not modelled.
- `pako`: zlib and raw inflate are a `Pako` parameter of the archive functions. Inflation itself is not part of the model.
- XgArchive.CompressedSlice: a `Uint8Array` view shares its buffer with the file. The model copies the bytes. A decompressed registry or payload is treated as a buffer of its own, so aliasing between views is not captured.
- XgRecords.ReadUtf16String: Dafny characters cannot hold lone UTF-16 surrogates, so a surrogate code unit becomes U+FFFD. Surrogate pairs are not combined.
- XgArchive.LowerString: `toLowerCase` is modelled for ASCII and Latin-1 letters only. Archive names are read as Latin-1 Delphi strings.
- Common.UpperString: `toUpperCase` is modelled character by character. It upper-cases ASCII letters and the two non-ASCII letters whose upper case is ASCII (dotless `ı` and long `ſ`), which are the only ones that can make an input match an ASCII prefix. Every other character is left unchanged.
- Ogid.EncodeOgid: `Array.prototype.sort` is modelled as the identity. The characters are emitted already sorted (`Ogid.SideCharsSorted`), and a sorted text is the only sorted permutation of itself (`Ogid.SortedUnique`).
- String length: a Dafny `string` counts Unicode scalar values, while JavaScript's `.length` counts UTF-16 code units, so a character outside the Basic Multilingual Plane counts 1 here and 2 in the source. The length tests below take such input down a different branch than the source does.
- Ogid.ReadOgidCube: the three-character test on the cube field counts scalar values. A field such as `W` followed by one astral character has length 3 in the source, which then sets `2^NaN` and owner X; the model keeps cube 1, centred.
- Xgid.XgidFromParts: the 26-character test on the position field counts scalar values. A 25-scalar field holding one astral character passes the length test in the source and fails on an invalid character; the model reports a position-length error instead.
- Gnuid.ParseGnuid: the 14-character test on the Position ID counts scalar values. An ID with an astral character is rejected either way, but the model may name the length rather than the Base64 decode as the reason.
- Floating point: JavaScript numbers are doubles, while the model's `JsNumber` holds exact unbounded integers. Cube values, `Math.pow` and `Math.abs` are exact, and a huge exponent that overflows a double to `Infinity` is not modelled. The model and the source agree on integers of magnitude below 2^53; beyond that they part in three ways, listed below.
- Common.ParseIntString, Common.ParseIntUnsigned, Common.ParseIntNegative: `parseInt` of a digit run longer than 2^53 rounds to the nearest double in the source. The model reads its exact value.
- Xgid.XgidRoundTrip, Ogid.OgidRoundTrip, Xgid.ParseIntNumberString: `String(n)` switches to exponent form from 1e21 up, so a score or match length of 1e21 is written as `1e+21` and reads back as 1. The model writes every digit, so these round trips hold for every integer, where the source's hold only below 1e21 (and exactly only below 2^53).
- MatWriter.CubeTurn: `'Doubles => ' + newCubeVal` prints a rounded exponent form once `2^(|cubeB|+1)` reaches 1e21 (|cubeB| = 69 gives `1.1805916207174113e+21`). The value from `DoubleCubeValue` is a power of two and so exact as a double; only its text differs, because the model writes every decimal digit.
- Xgid.XgidRoundTrip, Gnuid.GnuidRoundTrip, Ogid.OgidRoundTrip: each requires a power-of-two cube, dice in range and (for GNUID) values that fit their bit fields. Outside these ranges the encoders lose information, and the round trip does not hold as stated.
- Integer width: JavaScript's 32-bit shifts and ORs in the bit helpers are exact integer arithmetic on bits 0/1. All values involved are far below 2^31.
- The public API objects (`window.PositionParser`, `window.XGParser`, `window.MATWriter`) and the re-exported functions are not modelled. Only the functions they expose are.
- `calculatePipCounts` and `encode*` read `meta` fields that may be `undefined`. The model's metadata always has every field, with `JsNumber` standing for possibly-`NaN` numbers and `OrZero`/`OrOne` for `|| 0` and `|| 1`.
