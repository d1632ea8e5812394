/**
  * The internal position model shared by the three position-ID codecs:
  * 26 signed slots (0 is X's bar, 1..24 the points with 1 in O's home and
  * 24 in X's home, 25 is O's bar; positive counts are X's checkers, negative
  * counts O's) and the number of checkers each side has borne off, together
  * with the helpers every codec uses: borne-off counts, log2 and pip counts.
  */
module Board {
  import opened Common

  const Slots: nat := 26
  const CheckersPerSide: int := 15

  type Points = s: seq<int> | |s| == 26 witness seq(26, _ => 0)

  datatype Position = Position(points: Points, xOff: int, oOff: int)

  datatype Player = X | O

  datatype CubeOwner = Centered | XOwns | OOwns

  datatype Dice = Dice(d1: int, d2: int)

  /**
    * The metadata object the codecs fill in. Numbers read with parseInt may
    * be NaN; `xgidTurn` is present only after an XGID was parsed.
    */
  datatype Metadata = Metadata(
    cubeValue: JsNumber,
    cubeOwner: CubeOwner,
    onRoll: Option<Player>,
    xgidTurn: Option<JsNumber>,
    dice: Option<Dice>,
    scoreX: JsNumber,
    scoreO: JsNumber,
    matchLength: JsNumber,
    crawford: bool)

  /** `{ position, metadata }` as the parsers return it. */
  datatype Parsed = Parsed(position: Position, metadata: Metadata)

  /** `makePosition`: every slot empty, nothing borne off. */
  function MakePosition(): (pos: Position)
    ensures forall i :: 0 <= i < Slots ==> pos.points[i] == 0
    ensures pos.xOff == 0 && pos.oOff == 0
  {
    Position(seq(26, _ => 0), 0, 0)
  }

  // ── Borne-off counts ───────────────────────────────────────────────

  /** X's checkers on the slots of s: the sum of the positive counts. */
  function XOnBoard(s: seq<int>): nat {
    if s == [] then 0 else XOnBoard(s[..|s| - 1]) + Max(s[|s| - 1], 0)
  }

  /** O's checkers on the slots of s: the sum of the absolute values of the negative counts. */
  function OOnBoard(s: seq<int>): nat {
    if s == [] then 0 else OOnBoard(s[..|s| - 1]) + Max(-s[|s| - 1], 0)
  }

  /** The position `calcBorneOff` leaves behind. */
  function WithBorneOff(pos: Position): Position {
    pos.(xOff := CheckersPerSide - XOnBoard(pos.points), oOff := CheckersPerSide - OOnBoard(pos.points))
  }

  /**
    * `calcBorneOff`: totals both sides' checkers and sets the borne-off
    * counts to 15 minus those totals; the slots are not changed.
    */
  method CalcBorneOff(pos: Position) returns (r: Position)
    ensures r.points == pos.points
    ensures r.xOff == CheckersPerSide - XOnBoard(pos.points)
    ensures r.oOff == CheckersPerSide - OOnBoard(pos.points)
  {
    var totalX, totalO := 0, 0;
    var i := 0;
    while i < 26
      invariant 0 <= i <= 26
      invariant totalX == XOnBoard(pos.points[..i])
      invariant totalO == OOnBoard(pos.points[..i])
    {
      assert pos.points[..i + 1][..i] == pos.points[..i];
      if pos.points[i] > 0 {
        totalX := totalX + pos.points[i];
      }
      if pos.points[i] < 0 {
        totalO := totalO + Abs(pos.points[i]);
      }
      i := i + 1;
    }
    assert pos.points[..26] == pos.points;
    r := pos.(xOff := CheckersPerSide - totalX, oOff := CheckersPerSide - totalO);
  }

  /** The number of checkers on s, both sides together. */
  function CheckerCount(s: seq<int>): nat {
    if s == [] then 0 else CheckerCount(s[..|s| - 1]) + Abs(s[|s| - 1])
  }

  /** Every checker on the board belongs to exactly one side. */
  lemma {:induction false} CheckersSplit(s: seq<int>)
    ensures XOnBoard(s) + OOnBoard(s) == CheckerCount(s)
  {
    if s != [] {
      CheckersSplit(s[..|s| - 1]);
    }
  }

  // ── log2 ───────────────────────────────────────────────────────────

  /** The number of halvings (rounding down) that bring v to 1 or below. */
  function FloorLog2(v: int): nat
    decreases if v > 1 then v else 0
  {
    if v <= 1 then 0 else 1 + FloorLog2(v / 2)
  }

  /** `log2`: halves t (rounding down) while it exceeds 1, counting the steps. */
  method Log2(v: int) returns (n: nat)
    ensures n == FloorLog2(v)
  {
    n := 0;
    var t := v;
    while t > 1
      invariant n + FloorLog2(t) == FloorLog2(v)
      decreases if t > 1 then t else 0
    {
      t := t / 2;
      n := n + 1;
    }
  }

  /** log2 undoes raising 2 to a power. */
  lemma {:induction false} Log2OfPow2(k: nat)
    ensures FloorLog2(Pow2(k)) == k
  {
    if k > 0 {
      Log2OfPow2(k - 1);
      assert Pow2(k) / 2 == Pow2(k - 1);
    }
  }

  /** For v >= 1, log2 gives the n with 2^n <= v < 2^(n+1). */
  lemma {:induction false} Log2Bounds(v: int)
    requires v >= 1
    ensures Pow2(FloorLog2(v)) <= v < Pow2(FloorLog2(v) + 1)
    decreases v
  {
    if v > 1 {
      Log2Bounds(v / 2);
    }
  }

  // ── Pip counts ─────────────────────────────────────────────────────

  /** X's pips on point pt: 25 - pt for each of X's checkers there. */
  function XPipsAt(points: Points, pt: nat): nat
    requires pt < Slots
  {
    if points[pt] > 0 then (25 - pt) * points[pt] else 0
  }

  /** O's pips on point pt: pt for each of O's checkers there. */
  function OPipsAt(points: Points, pt: nat): nat
    requires pt < Slots
  {
    if points[pt] < 0 then pt * -points[pt] else 0
  }

  /** X's pips on the points lo .. hi-1. */
  function XPipRange(points: Points, lo: nat, hi: nat): nat
    requires lo <= hi <= Slots
    decreases hi - lo
  {
    if lo == hi then 0 else XPipRange(points, lo, hi - 1) + XPipsAt(points, hi - 1)
  }

  /** O's pips on the points lo .. hi-1. */
  function OPipRange(points: Points, lo: nat, hi: nat): nat
    requires lo <= hi <= Slots
    decreases hi - lo
  {
    if lo == hi then 0 else OPipRange(points, lo, hi - 1) + OPipsAt(points, hi - 1)
  }

  /** X's pip count: points 1..24, and 25 for each checker on X's bar (slot 0). */
  function XPips(points: Points): nat {
    XPipRange(points, 1, 25) + (if points[0] > 0 then 25 * points[0] else 0)
  }

  /** O's pip count: points 1..24, and 25 for each checker on O's bar (slot 25). */
  function OPips(points: Points): nat {
    OPipRange(points, 1, 25) + (if points[25] < 0 then 25 * -points[25] else 0)
  }

  /** `calculatePipCounts` */
  method CalculatePipCounts(pos: Position) returns (x: int, o: int)
    ensures x == XPips(pos.points) && o == OPips(pos.points)
    ensures x >= 0 && o >= 0
  {
    x, o := 0, 0;
    var pt := 1;
    while pt < 25
      invariant 1 <= pt <= 25
      invariant x == XPipRange(pos.points, 1, pt) && o == OPipRange(pos.points, 1, pt)
    {
      ghost var x0, o0 := x, o;
      if pos.points[pt] > 0 {
        x := x + (25 - pt) * pos.points[pt];
      }
      if pos.points[pt] < 0 {
        o := o + pt * Abs(pos.points[pt]);
      }
      assert x == x0 + XPipsAt(pos.points, pt) && o == o0 + OPipsAt(pos.points, pt);
      pt := pt + 1;
    }
    if pos.points[0] > 0 {
      x := x + 25 * pos.points[0];
    }
    if pos.points[25] < 0 {
      o := o + 25 * Abs(pos.points[25]);
    }
  }

  /** The same position seen from the other side: slot i holds the other colour's slot 25 - i. */
  function Mirror(points: Points): Points {
    seq(26, i requires 0 <= i < 26 => -points[25 - i])
  }

  lemma {:induction false} OPipRangeFront(points: Points, lo: nat, hi: nat)
    requires lo < hi <= Slots
    ensures OPipRange(points, lo, hi) == OPipsAt(points, lo) + OPipRange(points, lo + 1, hi)
    decreases hi - lo
  {
    if hi - 1 > lo {
      OPipRangeFront(points, lo, hi - 1);
    }
  }

  lemma {:induction false} MirrorPipRange(points: Points, lo: nat, hi: nat)
    requires 1 <= lo <= hi <= 25
    ensures XPipRange(Mirror(points), lo, hi) == OPipRange(points, 26 - hi, 26 - lo)
    decreases hi - lo
  {
    if lo < hi {
      MirrorPipRange(points, lo, hi - 1);
      OPipRangeFront(points, 26 - hi, 26 - lo);
      assert XPipsAt(Mirror(points), hi - 1) == OPipsAt(points, 26 - hi);
    }
  }

  /** Seen from the other side, X's pip count is O's. */
  lemma MirrorPips(points: Points)
    ensures XPips(Mirror(points)) == OPips(points)
  {
    MirrorPipRange(points, 1, 25);
  }
}
