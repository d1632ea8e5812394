/**
  * Base64 with the standard alphabet of section 4 of RFC 4648, as the
  * browser's btoa and atob (the "forgiving-base64" decode of the HTML
  * standard) apply it, and the two wrappers the GNUID codec puts around them:
  * padding is stripped on output and restored before decoding.
  */
module Base64 {
  import opened Common

  type byte = bv8

  /** The byte holding a value below 256. */
  function ToByte(n: nat): (b: byte)
    requires n < 0x100
    ensures b as int == n
  {
    if n == 0 then 0 else ToByte(n - 1) + 1
  }

  predicate IsB64Char(c: char) {
    'A' <= c <= 'Z' || 'a' <= c <= 'z' || '0' <= c <= '9' || c == '+' || c == '/'
  }

  predicate AllB64(s: string) {
    forall i :: 0 <= i < |s| ==> IsB64Char(s[i])
  }

  /** The alphabet character for a 6-bit value. */
  function SextetChar(v: byte): (c: char)
    requires v < 64
    ensures IsB64Char(c)
  {
    var k := v as int;
    if k < 26 then ('A' as int + k) as char
    else if k < 52 then ('a' as int + k - 26) as char
    else if k < 62 then ('0' as int + k - 52) as char
    else if k == 62 then '+'
    else '/'
  }

  /** The position of an alphabet character in the alphabet. */
  function SextetIndex(c: char): (k: nat)
    requires IsB64Char(c)
    ensures k < 64
  {
    if 'A' <= c <= 'Z' then c as int - 'A' as int
    else if 'a' <= c <= 'z' then c as int - 'a' as int + 26
    else if '0' <= c <= '9' then c as int - '0' as int + 52
    else if c == '+' then 62
    else 63
  }

  /** The 6-bit value of an alphabet character. */
  function SextetValue(c: char): (v: byte)
    requires IsB64Char(c)
    ensures v < 64
  {
    SextetIndex(c) as byte
  }

  lemma SextetRoundTrip(v: byte)
    requires v < 64
    ensures SextetValue(SextetChar(v)) == v
  {
    assert SextetIndex(SextetChar(v)) == v as int;
    ByteOfInt(v);
  }

  lemma ByteOfInt(v: byte)
    ensures (v as int) as byte == v
  {
  }

  // ── Encoding (btoa) ────────────────────────────────────────────────

  /** The four characters of three bytes. */
  function Group3(a: byte, b: byte, c: byte): (s: string)
    ensures |s| == 4 && AllB64(s)
  {
    [SextetChar(a >> 2), SextetChar(((a & 3) << 4) | (b >> 4)),
     SextetChar(((b & 15) << 2) | (c >> 6)), SextetChar(c & 63)]
  }

  /** The characters of the base64 text of `bytes`, without '=' padding. */
  function EncodeUnpadded(bytes: seq<byte>): (s: string)
    ensures AllB64(s) && |s| % 4 != 1
  {
    if |bytes| == 0 then ""
    else if |bytes| == 1 then Group3(bytes[0], 0, 0)[..2]
    else if |bytes| == 2 then Group3(bytes[0], bytes[1], 0)[..3]
    else Group3(bytes[0], bytes[1], bytes[2]) + EncodeUnpadded(bytes[3..])
  }

  /** `btoa`: the encoding padded with '=' to a multiple of four characters. */
  function Btoa(bytes: seq<byte>): string {
    EncodeUnpadded(bytes) + (if |bytes| % 3 == 1 then "==" else if |bytes| % 3 == 2 then "=" else "")
  }

  /** `s.replace(/=+$/, '')` */
  function StripTrailingEquals(s: string): (r: string)
    ensures |r| <= |s| && r == s[..|r|]
  {
    if s != [] && s[|s| - 1] == '=' then StripTrailingEquals(s[..|s| - 1]) else s
  }

  lemma {:induction false} StripPadding(e: string, pad: string)
    requires e == [] || e[|e| - 1] != '='
    requires forall i :: 0 <= i < |pad| ==> pad[i] == '='
    ensures StripTrailingEquals(e + pad) == e
    decreases |pad|
  {
    if pad == [] {
      assert e + pad == e;
    } else {
      assert (e + pad)[..|e + pad| - 1] == e + pad[..|pad| - 1];
      StripPadding(e, pad[..|pad| - 1]);
    }
  }

  /** `bytesToB64`: btoa with the padding removed. */
  function BytesToB64(bytes: seq<byte>): (s: string)
    ensures s == EncodeUnpadded(bytes)
  {
    var e := EncodeUnpadded(bytes);
    StripPadding(e, Btoa(bytes)[|e|..]);
    assert Btoa(bytes) == e + Btoa(bytes)[|e|..];
    StripTrailingEquals(Btoa(bytes))
  }

  // ── Decoding (atob) ────────────────────────────────────────────────

  predicate IsAsciiWhitespace(c: char) {
    c == '\t' || c == '\n' || c as int == 12 || c == '\r' || c == ' '
  }

  function RemoveAsciiWhitespace(s: string): (r: string)
    ensures |r| <= |s|
  {
    if s == [] then ""
    else if IsAsciiWhitespace(s[0]) then RemoveAsciiWhitespace(s[1..])
    else [s[0]] + RemoveAsciiWhitespace(s[1..])
  }

  /** The bytes carried by consecutive 6-bit values. */
  function Byte0(v0: byte, v1: byte): byte { (v0 << 2) | (v1 >> 4) }
  function Byte1(v1: byte, v2: byte): byte { ((v1 & 15) << 4) | (v2 >> 2) }
  function Byte2(v2: byte, v3: byte): byte { ((v2 & 3) << 6) | v3 }

  /** Bytes of a run of alphabet characters whose length is not 1 modulo 4; leftover bits are dropped. */
  function DecodeChars(t: string): seq<byte>
    requires AllB64(t) && |t| % 4 != 1
  {
    if |t| == 0 then []
    else
      var v0, v1 := SextetValue(t[0]), SextetValue(t[1]);
      if |t| == 2 then [Byte0(v0, v1)]
      else
        var v2 := SextetValue(t[2]);
        if |t| == 3 then [Byte0(v0, v1), Byte1(v1, v2)]
        else
          var v3 := SextetValue(t[3]);
          [Byte0(v0, v1), Byte1(v1, v2), Byte2(v2, v3)] + DecodeChars(t[4..])
  }

  /** When the length is a multiple of four, one or two trailing '=' are dropped. */
  function DropPadding(w: string): (t: string)
    ensures |t| <= |w| && t == w[..|t|]
  {
    if |w| % 4 == 0 && |w| >= 2 && w[|w| - 1] == '=' && w[|w| - 2] == '=' then w[..|w| - 2]
    else if |w| % 4 == 0 && |w| >= 1 && w[|w| - 1] == '=' then w[..|w| - 1]
    else w
  }

  /**
    * `atob`: ASCII white space is removed; when the length is a multiple of
    * four, one or two trailing '=' are removed; then a length of 1 modulo 4
    * or any character outside the alphabet fails.
    */
  function Atob(s: string): Option<seq<byte>> {
    var t := DropPadding(RemoveAsciiWhitespace(s));
    if |t| % 4 == 1 || !AllB64(t) then None
    else Some(DecodeChars(t))
  }

  /** The '=' characters that bring a text of length n up to a multiple of four. */
  function Padding(n: nat): (pad: string)
    ensures |pad| == (4 - n % 4) % 4
    ensures forall i :: 0 <= i < |pad| ==> pad[i] == '='
  {
    if n % 4 == 0 then "" else if n % 4 == 2 then "==" else if n % 4 == 3 then "=" else "==="
  }

  lemma PaddingFills(n: nat)
    ensures (n + |Padding(n)|) % 4 == 0
  {
    var q := n / 4;
    assert n == 4 * q + n % 4;
    assert n + |Padding(n)| == 4 * q + (if n % 4 == 0 then 0 else 4);
  }

  lemma NextMultipleOf4(n: nat, m: nat)
    requires m % 4 == 0 && n <= m <= n + 3
    ensures m == n + (4 - n % 4) % 4
  {
    var q := n / 4;
    assert n == 4 * q + n % 4;
    assert m == 4 * (m / 4);
  }

  /** The padding loop of `b64ToBytes`: '=' is appended until the length is a multiple of four. */
  method PadTo4(s: string) returns (r: string)
    ensures r == s + Padding(|s|)
  {
    ghost var pad := Padding(|s|);
    PaddingFills(|s|);
    r := s;
    while |r| % 4 != 0
      invariant |s| <= |r| <= |s| + |pad|
      invariant r == s + pad[..|r| - |s|]
      decreases |s| + |pad| - |r|
    {
      assert pad[..|r| - |s| + 1] == pad[..|r| - |s|] + "=";
      r := r + "=";
    }
    NextMultipleOf4(|s|, |r|);
    assert pad[..|r| - |s|] == pad;
  }

  /** `b64ToBytes`: restore the padding, then atob; None where atob throws. */
  function B64ToBytes(s: string): Option<seq<byte>> {
    Atob(s + Padding(|s|))
  }

  /** `b64ToBytes`: the padding loop, then atob. */
  method DecodeB64(s: string) returns (r: Option<seq<byte>>)
    ensures r == B64ToBytes(s)
  {
    var padded := PadTo4(s);
    r := Atob(padded);
  }

  // ── Round trip ─────────────────────────────────────────────────────

  lemma GroupRoundTrip(a: byte, b: byte, c: byte)
    ensures Byte0(a >> 2, ((a & 3) << 4) | (b >> 4)) == a
    ensures Byte1(((a & 3) << 4) | (b >> 4), ((b & 15) << 2) | (c >> 6)) == b
    ensures Byte2(((b & 15) << 2) | (c >> 6), c & 63) == c
  {
  }

  lemma GroupValues(a: byte, b: byte, c: byte)
    ensures var g := Group3(a, b, c);
      && SextetValue(g[0]) == a >> 2
      && SextetValue(g[1]) == ((a & 3) << 4) | (b >> 4)
      && SextetValue(g[2]) == ((b & 15) << 2) | (c >> 6)
      && SextetValue(g[3]) == c & 63
  {
    SextetRoundTrip(a >> 2);
    SextetRoundTrip(((a & 3) << 4) | (b >> 4));
    SextetRoundTrip(((b & 15) << 2) | (c >> 6));
    SextetRoundTrip(c & 63);
  }

  lemma AllB64Concat(x: string, y: string)
    requires AllB64(x) && AllB64(y)
    ensures AllB64(x + y)
  {
    forall i | 0 <= i < |x + y|
      ensures IsB64Char((x + y)[i])
    {
      if i < |x| {
        assert (x + y)[i] == x[i];
      } else {
        assert (x + y)[i] == y[i - |x|];
      }
    }
  }

  lemma DecodeGroup(a: byte, b: byte, c: byte, rest: string)
    requires AllB64(rest) && |rest| % 4 != 1
    ensures DecodeChars(Group3(a, b, c) + rest) == [a, b, c] + DecodeChars(rest)
  {
    var g := Group3(a, b, c);
    var t := g + rest;
    AllB64Concat(g, rest);
    Mod4Shift(|rest|);
    assert t[0] == g[0] && t[1] == g[1] && t[2] == g[2] && t[3] == g[3];
    assert t[4..] == rest;
    DecodeFirstGroup(t);
    GroupValues(a, b, c);
    GroupRoundTrip(a, b, c);
  }

  lemma Mod4Shift(n: nat)
    ensures (n + 4) % 4 == n % 4
  {
  }

  /** A text of four or more characters decodes its first four into three bytes, then the rest. */
  lemma DecodeFirstGroup(t: string)
    requires AllB64(t) && |t| % 4 != 1 && |t| >= 4
    ensures DecodeChars(t) == [Byte0(SextetValue(t[0]), SextetValue(t[1])), Byte1(SextetValue(t[1]), SextetValue(t[2])),
      Byte2(SextetValue(t[2]), SextetValue(t[3]))] + DecodeChars(t[4..])
  {
  }

  lemma DecodeShortGroups(a: byte, b: byte)
    ensures DecodeChars(Group3(a, b, 0)[..3]) == [a, b]
    ensures DecodeChars(Group3(a, 0, 0)[..2]) == [a]
  {
    GroupValues(a, b, 0);
    GroupValues(a, 0, 0);
    GroupRoundTrip(a, b, 0);
    GroupRoundTrip(a, 0, 0);
  }

  lemma DecodeEncodeShort(bytes: seq<byte>)
    requires 1 <= |bytes| <= 2
    ensures DecodeChars(EncodeUnpadded(bytes)) == bytes
  {
    if |bytes| == 1 {
      assert EncodeUnpadded(bytes) == Group3(bytes[0], 0, 0)[..2];
      DecodeShortGroups(bytes[0], 0);
    } else {
      assert EncodeUnpadded(bytes) == Group3(bytes[0], bytes[1], 0)[..3];
      DecodeShortGroups(bytes[0], bytes[1]);
    }
  }

  lemma EncodeUnfold(bytes: seq<byte>)
    requires |bytes| >= 3
    ensures EncodeUnpadded(bytes) == Group3(bytes[0], bytes[1], bytes[2]) + EncodeUnpadded(bytes[3..])
  {
  }

  lemma SplitThree(bytes: seq<byte>)
    requires |bytes| >= 3
    ensures bytes == [bytes[0], bytes[1], bytes[2]] + bytes[3..]
  {
  }

  lemma {:induction false} DecodeEncode(bytes: seq<byte>)
    ensures DecodeChars(EncodeUnpadded(bytes)) == bytes
    decreases |bytes|
  {
    if 1 <= |bytes| <= 2 {
      DecodeEncodeShort(bytes);
    } else if |bytes| >= 3 {
      var rest := EncodeUnpadded(bytes[3..]);
      DecodeEncode(bytes[3..]);
      EncodeUnfold(bytes);
      DecodeGroup(bytes[0], bytes[1], bytes[2], rest);
      SplitThree(bytes);
    }
  }

  lemma {:induction false} NoWhitespaceKept(s: string)
    requires forall i :: 0 <= i < |s| ==> !IsAsciiWhitespace(s[i])
    ensures RemoveAsciiWhitespace(s) == s
    decreases |s|
  {
    if s != [] {
      NoWhitespaceKept(s[1..]);
      assert s == [s[0]] + s[1..];
    }
  }

  lemma {:induction false} NoWhitespaceInPadded(e: string)
    requires AllB64(e)
    ensures forall i :: 0 <= i < |e + Padding(|e|)| ==> !IsAsciiWhitespace((e + Padding(|e|))[i])
  {
    var p := e + Padding(|e|);
    forall i | 0 <= i < |p| ensures !IsAsciiWhitespace(p[i]) {
      if i < |e| {
        assert p[i] == e[i];
      } else {
        assert p[i] == Padding(|e|)[i - |e|];
      }
    }
  }

  lemma DropPaddingOf(e: string)
    requires AllB64(e) && |e| % 4 != 1
    ensures DropPadding(e + Padding(|e|)) == e
  {
    var p := e + Padding(|e|);
    PaddingFills(|e|);
    if |e| % 4 == 0 {
      assert p == e;
      assert |e| >= 1 ==> IsB64Char(e[|e| - 1]);
    } else if |e| % 4 == 3 {
      assert p[|p| - 1] == '=';
      assert p[|p| - 2] == e[|e| - 1];
      assert p[..|p| - 1] == e;
    } else {
      assert p[|p| - 1] == '=' && p[|p| - 2] == '=';
      assert p[..|p| - 2] == e;
    }
  }

  /** atob of a padded alphabet text: the padding comes off and the characters decode. */
  lemma AtobPadded(e: string)
    requires AllB64(e) && |e| % 4 != 1
    ensures Atob(e + Padding(|e|)) == Some(DecodeChars(e))
  {
    NoWhitespaceInPadded(e);
    NoWhitespaceKept(e + Padding(|e|));
    DropPaddingOf(e);
  }

  /** Decoding what bytesToB64 produced gives the same bytes back. */
  lemma B64RoundTrip(bytes: seq<byte>)
    ensures B64ToBytes(BytesToB64(bytes)) == Some(bytes)
  {
    var e := EncodeUnpadded(bytes);
    AtobPadded(e);
    DecodeEncode(bytes);
  }

  lemma {:induction false} EncodedLength(bytes: seq<byte>)
    ensures |EncodeUnpadded(bytes)| == 4 * (|bytes| / 3) + (if |bytes| % 3 == 0 then 0 else |bytes| % 3 + 1)
    decreases |bytes|
  {
    if |bytes| >= 3 {
      EncodedLength(bytes[3..]);
    }
  }
}
