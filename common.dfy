/**
  * Shared vocabulary of the three codecs: results and error kinds, and the
  * pieces of JavaScript number and string behaviour the codecs rely on
  * (parseInt, String(n), split/join on one character, trim, upper case).
  */
module Common {

  datatype Option<+T> = None | Some(value: T)

  /** The error kinds the codecs throw; the text of the thrown message is not modelled. */
  datatype Error =
    | InvalidXgidChar | XgidFieldCount | XgidPositionLength
    | Base64Invalid | GnuidPositionLength | GnuidPositionBytes | GnuidMatchBytes
    | InvalidOgidChar | OgidFieldCount | InvalidPoint
    | UnrecognizedFormat
    | FileTooSmall | NotAnArchive | EmptyArchive | RangeError | DecompressionFailed
    | PayloadNotFound | BadGameMagic | NoMatchHeader

  /** A value or the error the source would have thrown. */
  datatype Result<+T> = Ok(value: T) | Err(error: Error) {
    predicate IsFailure() { Err? }
    function PropagateFailure<U>(): Result<U> requires Err? { Err(error) }
    function Extract(): T requires Ok? { value }
  }

  /** A number as `parseInt` yields it: NaN or an integer. */
  datatype JsNumber = NaN | Int(v: int)

  /** `n || 0`: NaN and 0 are both falsy. */
  function OrZero(n: JsNumber): int {
    if n.Int? then n.v else 0
  }

  /** `n || 1` */
  function OrOne(n: JsNumber): int {
    if n.Int? && n.v != 0 then n.v else 1
  }

  function Pow2(n: nat): (r: nat)
    ensures r >= 1
  {
    if n == 0 then 1 else 2 * Pow2(n - 1)
  }

  function Abs(x: int): nat {
    if x < 0 then -x else x
  }

  function Max(a: int, b: int): int {
    if a < b then b else a
  }

  function Min(a: int, b: int): int {
    if a < b then a else b
  }

  // ── Decimal digits ─────────────────────────────────────────────────

  predicate IsDigit(c: char) {
    '0' <= c <= '9'
  }

  predicate AllDigits(s: string) {
    forall i :: 0 <= i < |s| ==> IsDigit(s[i])
  }

  function DigitChar(d: int): (c: char)
    requires 0 <= d < 10
    ensures IsDigit(c)
  {
    ('0' as int + d) as char
  }

  function DigitValue(c: char): (d: int)
    requires IsDigit(c)
    ensures 0 <= d < 10 && DigitChar(d) == c
  {
    c as int - '0' as int
  }

  /** `String(n)` for n >= 0. */
  function NatString(n: nat): (s: string)
    ensures |s| >= 1 && AllDigits(s)
    decreases n
  {
    if n < 10 then [DigitChar(n)] else NatString(n / 10) + [DigitChar(n % 10)]
  }

  /** `String(n)` for an integer n. */
  function IntString(n: int): (s: string)
    ensures |s| >= 1
  {
    if n < 0 then "-" + NatString(-n) else NatString(n)
  }

  /** `'' + n` for a number that may be NaN. */
  function NumberString(n: JsNumber): string {
    match n
    case NaN => "NaN"
    case Int(v) => IntString(v)
  }

  /** The value of a string of decimal digits. */
  function DigitsValue(s: string): nat
    requires AllDigits(s)
  {
    if s == [] then 0 else DigitsValue(s[..|s| - 1]) * 10 + DigitValue(s[|s| - 1])
  }

  lemma {:induction false} NatStringValue(n: nat)
    ensures DigitsValue(NatString(n)) == n
    decreases n
  {
    var s := NatString(n);
    if n >= 10 {
      NatStringValue(n / 10);
      assert s[..|s| - 1] == NatString(n / 10);
    }
  }

  /** Number of leading decimal digits of s. */
  function DigitPrefixLength(s: string): (k: nat)
    ensures k <= |s| && AllDigits(s[..k])
    ensures k < |s| ==> !IsDigit(s[k])
  {
    if s == [] || !IsDigit(s[0]) then 0 else 1 + DigitPrefixLength(s[1..])
  }

  lemma {:induction false} DigitPrefixOfDigits(s: string, t: string)
    requires AllDigits(s)
    requires t == [] || !IsDigit(t[0])
    ensures DigitPrefixLength(s + t) == |s|
    decreases |s|
  {
    if s != [] {
      assert (s + t)[1..] == s[1..] + t;
      DigitPrefixOfDigits(s[1..], t);
    } else {
      assert s + t == t;
    }
  }

  // ── Whitespace, trim, upper case ───────────────────────────────────

  /** The characters JavaScript's trim() and parseInt() treat as white space or line terminators. */
  predicate IsJsSpace(c: char) {
    var k := c as int;
    k == 9 || k == 10 || k == 11 || k == 12 || k == 13 || k == 32 || k == 0xA0 || k == 0x1680
    || (0x2000 <= k <= 0x200A) || k == 0x2028 || k == 0x2029 || k == 0x202F || k == 0x205F
    || k == 0x3000 || k == 0xFEFF
  }

  function TrimStart(s: string): (r: string)
    ensures |r| <= |s| && r == s[|s| - |r|..]
    ensures r == [] || !IsJsSpace(r[0])
  {
    if s != [] && IsJsSpace(s[0]) then TrimStart(s[1..]) else s
  }

  function TrimEnd(s: string): (r: string)
    ensures |r| <= |s| && r == s[..|r|]
    ensures r == [] || !IsJsSpace(r[|r| - 1])
  {
    if s != [] && IsJsSpace(s[|s| - 1]) then TrimEnd(s[..|s| - 1]) else s
  }

  /** `s.trim()` */
  function Trim(s: string): string {
    TrimEnd(TrimStart(s))
  }

  lemma {:induction false} TrimNoSpace(s: string)
    requires forall i :: 0 <= i < |s| ==> !IsJsSpace(s[i])
    ensures Trim(s) == s
  {
    assert TrimStart(s) == s;
  }

  /**
    * Upper case of one character, as far as the prefixes "XGID=", "GNUID=",
    * "GNUBGID", "OGID=" and the single letters "W", "B" are concerned: ASCII
    * letters, and the two non-ASCII letters whose upper case is ASCII
    * (dotless i and long s).
    */
  function Upper(c: char): char {
    if 'a' <= c <= 'z' then (c as int - 32) as char
    else if c as int == 0x131 then 'I'
    else if c as int == 0x17F then 'S'
    else c
  }

  /** `s.toUpperCase()`, one character at a time. */
  function UpperString(s: string): (r: string)
    ensures |r| == |s|
  {
    seq(|s|, i requires 0 <= i < |s| => Upper(s[i]))
  }

  /** `s.toUpperCase().indexOf(p) === 0` for an upper-case ASCII p. */
  predicate StartsWithUpper(s: string, p: string) {
    |p| <= |s| && forall i :: 0 <= i < |p| ==> Upper(s[i]) == p[i]
  }

  // ── parseInt(s, 10) ────────────────────────────────────────────────

  /**
    * `parseInt(s, 10)`: leading white space is skipped, an optional sign is
    * read, then the longest run of decimal digits; no digits gives NaN.
    */
  function ParseInt(s: string): JsNumber {
    var t := TrimStart(s);
    var signed := |t| > 0 && (t[0] == '-' || t[0] == '+');
    DigitRunNumber(if signed then t[1..] else t, signed && t[0] == '-')
  }

  /** The number of the longest leading run of digits of u, negated when a minus sign preceded it. */
  function DigitRunNumber(u: string, negative: bool): JsNumber {
    var k := DigitPrefixLength(u);
    if k == 0 then NaN
    else if negative then Int(0 - DigitsValue(u[..k]) as int)
    else Int(DigitsValue(u[..k]))
  }

  lemma DigitRunAll(d: string, negative: bool)
    requires |d| >= 1 && AllDigits(d)
    ensures DigitRunNumber(d, negative) == Int(if negative then 0 - DigitsValue(d) else DigitsValue(d))
  {
    DigitPrefixOfDigits(d, []);
    assert d + [] == d;
    assert d[..|d|] == d;
  }

  lemma ParseIntUnsigned(d: string)
    requires |d| >= 1 && AllDigits(d)
    ensures ParseInt(d) == Int(DigitsValue(d))
  {
    assert !IsJsSpace(d[0]);
    assert TrimStart(d) == d;
    DigitRunAll(d, false);
  }

  lemma ParseIntNegative(d: string)
    requires |d| >= 1 && AllDigits(d)
    ensures ParseInt("-" + d) == Int(0 - DigitsValue(d))
  {
    var s := "-" + d;
    assert TrimStart(s) == s;
    assert s[1..] == d;
    DigitRunAll(d, true);
  }

  /** "NaN", which `String(NaN)` writes, reads back as NaN. */
  lemma ParseIntNaN()
    ensures ParseInt("NaN") == NaN
  {
    var s := "NaN";
    assert !IsJsSpace(s[0]);
    assert TrimStart(s) == s;
    assert DigitPrefixLength(s) == 0;
  }

  /** parseInt reads back what String(n) wrote. */
  lemma ParseIntString(n: int)
    ensures ParseInt(IntString(n)) == Int(n)
  {
    var m := if n < 0 then -n else n;
    NatStringValue(m);
    if n < 0 {
      ParseIntNegative(NatString(m));
    } else {
      ParseIntUnsigned(NatString(m));
    }
  }

  /** Every character of String(n) is a digit or the leading minus sign. */
  lemma IntStringChars(n: int)
    ensures forall i :: 0 <= i < |IntString(n)| ==> IsDigit(IntString(n)[i]) || (i == 0 && n < 0 && IntString(n)[i] == '-')
  {
  }

  // ── split and join on one character ────────────────────────────────

  /** `parts.join(sep)` */
  function Join(parts: seq<string>, sep: char): string {
    if |parts| == 0 then ""
    else if |parts| == 1 then parts[0]
    else parts[0] + ([sep] + Join(parts[1..], sep))
  }

  /** `s.split(sep)` for a one-character separator. */
  function Split(s: string, sep: char): (parts: seq<string>)
    ensures |parts| >= 1
    ensures forall i :: 0 <= i < |parts| ==> sep !in parts[i]
    ensures Join(parts, sep) == s
  {
    if s == [] then [""]
    else
      var rest := Split(s[1..], sep);
      if s[0] == sep then
        assert ([""] + rest)[1..] == rest;
        [""] + rest
      else
        var parts := [[s[0]] + rest[0]] + rest[1..];
        assert parts[1..] == rest[1..];
        assert forall i :: 1 <= i < |parts| ==> parts[i] == rest[i];
        parts
  }

  lemma {:induction false} SplitWordPrefix(w: string, t: string, sep: char)
    requires sep !in w
    ensures Split(w + t, sep) == [w + Split(t, sep)[0]] + Split(t, sep)[1..]
    decreases |w|
  {
    if w == [] {
      assert w + t == t;
      var p := Split(t, sep);
      assert w + p[0] == p[0];
      assert p == [p[0]] + p[1..];
    } else {
      assert (w + t)[1..] == w[1..] + t;
      assert (w + t)[0] == w[0];
      SplitWordPrefix(w[1..], t, sep);
      assert [w[0]] + (w[1..] + Split(t, sep)[0]) == w + Split(t, sep)[0];
    }
  }

  /** Splitting what join produced gives the parts back when none holds the separator. */
  lemma {:induction false} SplitJoin(parts: seq<string>, sep: char)
    requires |parts| >= 1
    requires forall i :: 0 <= i < |parts| ==> sep !in parts[i]
    ensures Split(Join(parts, sep), sep) == parts
    decreases |parts|
  {
    if |parts| == 1 {
      SplitWordPrefix(parts[0], [], sep);
      assert parts[0] + [] == parts[0];
    } else {
      SplitJoin(parts[1..], sep);
      SplitJoinStep(parts[0], parts[1..], sep);
      assert parts == [parts[0]] + parts[1..];
    }
  }

  /** One more part in front of a join that splits back. */
  lemma SplitJoinStep(w: string, rest: seq<string>, sep: char)
    requires sep !in w && |rest| >= 1
    requires Split(Join(rest, sep), sep) == rest
    ensures Split(w + ([sep] + Join(rest, sep)), sep) == [w] + rest
  {
    var tail := [sep] + Join(rest, sep);
    SplitAtSep(Join(rest, sep), sep);
    SplitWordPrefix(w, tail, sep);
    assert w + "" == w;
  }

  lemma SplitAtSep(rest: string, sep: char)
    ensures Split([sep] + rest, sep) == [""] + Split(rest, sep)
  {
    assert ([sep] + rest)[1..] == rest;
  }

  /** A character that is not the separator and in none of the parts is not in their join. */
  lemma {:induction false} JoinAvoids(parts: seq<string>, sep: char, c: char)
    requires c != sep
    requires forall i :: 0 <= i < |parts| ==> c !in parts[i]
    ensures c !in Join(parts, sep)
    decreases |parts|
  {
    if |parts| > 1 {
      JoinAvoids(parts[1..], sep, c);
    }
  }

  predicate NoSpace(s: string) {
    forall i :: 0 <= i < |s| ==> !IsJsSpace(s[i])
  }

  /** Joining parts free of white space with a separator that is not white space gives no white space. */
  lemma {:induction false} JoinNoSpace(parts: seq<string>, sep: char)
    requires !IsJsSpace(sep)
    requires forall i :: 0 <= i < |parts| ==> NoSpace(parts[i])
    ensures NoSpace(Join(parts, sep))
    decreases |parts|
  {
    if |parts| > 1 {
      JoinNoSpace(parts[1..], sep);
      var rest := Join(parts[1..], sep);
      var s := Join(parts, sep);
      assert s == parts[0] + [sep] + rest;
      forall i | 0 <= i < |s|
        ensures !IsJsSpace(s[i])
      {
        if i < |parts[0]| {
          assert s[i] == parts[0][i];
        } else if i > |parts[0]| {
          assert s[i] == rest[i - |parts[0]| - 1];
        }
      }
    } else if |parts| == 1 {
      assert NoSpace(parts[0]);
    }
  }

  /** Letters, digits and '-': what the fields of the position IDs are made of. */
  predicate PlainChar(c: char) {
    IsDigit(c) || 'a' <= c <= 'z' || 'A' <= c <= 'Z' || c == '-'
  }

  predicate Plain(s: string) {
    forall i :: 0 <= i < |s| ==> PlainChar(s[i])
  }

  /** A plain field holds no separator and no white space. */
  lemma PlainFree(s: string)
    requires Plain(s)
    ensures ':' !in s && '=' !in s && ' ' !in s && NoSpace(s)
  {
    forall i | 0 <= i < |s|
      ensures !IsJsSpace(s[i])
    {
      assert PlainChar(s[i]);
    }
  }

  lemma PlainIntString(n: int)
    ensures Plain(IntString(n))
  {
    IntStringChars(n);
  }

  lemma PlainConcat(a: string, b: string)
    requires Plain(a) && Plain(b)
    ensures Plain(a + b)
  {
    forall i | 0 <= i < |a + b|
      ensures PlainChar((a + b)[i])
    {
      if i >= |a| {
        assert (a + b)[i] == b[i - |a|];
      }
    }
  }

  /** Trimming twice is trimming once. */
  lemma TrimTwice(s: string)
    ensures Trim(Trim(s)) == Trim(s)
  {
    var t := Trim(s);
    assert TrimStart(t) == t;
    assert TrimEnd(t) == t;
  }
}
