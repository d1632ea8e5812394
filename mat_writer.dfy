/**
  * The Jellyfish .mat writer: a parsed XG match rendered as plain text in
  * two columns. XG's second player takes the left column and its first
  * player the right one; a left move waits in a single pending slot until
  * the right player's move or double completes the line.
  */
module MatWriter {
  import opened Common
  import opened XgRecords

  /** Width of the left column: the right column starts at this index. */
  const LeftColWidth: nat := 42

  // ── Points, sub-moves and dice ─────────────────────────────────────

  /** `pointToStr`: XG's 0-based point (24 the bar, -1 off) as a 1-based .mat point, clamped below at 0 (off). */
  function PointStr(xgPoint: int): (s: string)
    ensures |s| >= 1 && AllDigits(s) && DigitsValue(s) == Max(xgPoint + 1, 0)
  {
    var p := if xgPoint + 1 < 0 then 0 else xgPoint + 1;
    NatStringValue(p);
    IntString(p)
  }

  /** One "from/to" part of a move. */
  function SubMove(from: int, to: int): string {
    PointStr(from) + "/" + PointStr(to)
  }

  /** A part holds neither a space nor a newline, so joining with either separator can be undone. */
  predicate Clean(parts: seq<string>) {
    forall k :: 0 <= k < |parts| ==> ' ' !in parts[k] && '\n' !in parts[k]
  }

  lemma SubMoveClean(from: int, to: int)
    ensures Clean([SubMove(from, to)])
  {
    DigitsAvoid(PointStr(from), ' ');
    DigitsAvoid(PointStr(from), '\n');
    DigitsAvoid(PointStr(to), ' ');
    DigitsAvoid(PointStr(to), '\n');
  }

  /** A character that is no digit does not occur in a string of digits. */
  lemma DigitsAvoid(s: string, c: char)
    requires AllDigits(s) && !IsDigit(c)
    ensures c !in s
  {
  }

  /**
    * The parts `formatSubMoves` collects from the pair at index i on: the pairs
    * (i, i+1), (i+2, i+3), … up to index 7, stopping at the first whose `from`
    * is -1 and skipping those whose `from` equals their `to`.
    */
  function SubMoveParts(moves: MoveList, i: nat): (parts: seq<string>)
    requires i % 2 == 0 && i <= 8
    ensures |parts| <= (8 - i) / 2
    decreases 8 - i
  {
    if i == 8 || moves[i] == -1 then []
    else if moves[i] == moves[i + 1] then SubMoveParts(moves, i + 2)
    else [SubMove(moves[i], moves[i + 1])] + SubMoveParts(moves, i + 2)
  }

  lemma {:induction false} SubMovePartsClean(moves: MoveList, i: nat)
    requires i % 2 == 0 && i <= 8
    ensures Clean(SubMoveParts(moves, i))
    decreases 8 - i
  {
    if i < 8 && moves[i] != -1 {
      SubMovePartsClean(moves, i + 2);
      if moves[i] != moves[i + 1] {
        SubMoveClean(moves[i], moves[i + 1]);
        var rest := SubMoveParts(moves, i + 2);
        var parts := [SubMove(moves[i], moves[i + 1])] + rest;
        forall k | 0 <= k < |parts|
          ensures ' ' !in parts[k] && '\n' !in parts[k]
        {
          if k > 0 {
            assert parts[k] == rest[k - 1];
          }
        }
      }
    }
  }

  /** The text `formatSubMoves` returns: the parts joined with single spaces. */
  function SubMovesText(moves: MoveList): string {
    Join(SubMoveParts(moves, 0), ' ')
  }

  /** `formatSubMoves` */
  method FormatSubMoves(moves: MoveList) returns (s: string)
    ensures s == SubMovesText(moves)
  {
    var parts: seq<string> := [];
    var i := 0;
    while i < 8
      invariant i % 2 == 0 && i <= 8
      invariant parts + SubMoveParts(moves, i) == SubMoveParts(moves, 0)
    {
      var from, to := moves[i], moves[i + 1];
      if from == -1 {
        break;
      }
      ghost var rest := SubMoveParts(moves, i + 2);
      if from != to {
        var part := PointStr(from) + "/" + PointStr(to);
        assert SubMoveParts(moves, i) == [part] + rest;
        Associate(parts, [part], rest);
        parts := parts + [part];
      } else {
        assert SubMoveParts(moves, i) == rest;
      }
      i := i + 2;
    }
    assert parts + [] == parts;
    s := Join(parts, ' ');
  }

  /** Splitting the text at spaces gives the parts back, at most four of them; no part gives the empty text. */
  lemma SubMovesSplit(moves: MoveList)
    ensures |SubMoveParts(moves, 0)| <= 4
    ensures SubMoveParts(moves, 0) == [] ==> SubMovesText(moves) == ""
    ensures SubMoveParts(moves, 0) != [] ==> Split(SubMovesText(moves), ' ') == SubMoveParts(moves, 0)
  {
    if SubMoveParts(moves, 0) != [] {
      SubMovePartsClean(moves, 0);
      SplitJoin(SubMoveParts(moves, 0), ' ');
    }
  }

  /** Whatever follows the -1 end marker at pair j is never read. */
  lemma {:induction false} SubMovesStopAtEnd(m1: MoveList, m2: MoveList, i: nat, j: nat)
    requires i % 2 == 0 && j % 2 == 0 && i <= j < 8
    requires m1[j] == -1 && m2[j] == -1 && m1[..j] == m2[..j]
    ensures SubMoveParts(m1, i) == SubMoveParts(m2, i)
    decreases j - i
  {
    if i < j {
      assert m1[i] == m1[..j][i] && m2[i] == m2[..j][i];
      assert m1[i + 1] == m1[..j][i + 1] && m2[i + 1] == m2[..j][i + 1];
      SubMovesStopAtEnd(m1, m2, i + 2, j);
    }
  }

  /** `formatDice` */
  function FormatDice(d1: int, d2: int): string {
    if d1 < d2 then IntString(d2) + IntString(d1) else IntString(d1) + IntString(d2)
  }

  /** The larger die comes first, so the order in which the dice are stored does not show. */
  lemma DiceLargerFirst(d1: int, d2: int)
    ensures FormatDice(d1, d2) == IntString(Max(d1, d2)) + IntString(Min(d1, d2))
    ensures FormatDice(d1, d2) == FormatDice(d2, d1)
  {
  }

  // ── Padding and move numbers ───────────────────────────────────────

  function Spaces(n: nat): string {
    seq(n, _ => ' ')
  }

  /** What `padRight(s, width)` returns. */
  function Padded(s: string, width: int): string {
    if |s| < width then s + Spaces(width - |s|) else s
  }

  /** Padding keeps s as a prefix, adds only spaces, and reaches the width unless s is longer already. */
  lemma PaddedShape(s: string, width: int)
    ensures |Padded(s, width)| == Max(|s|, width) && Padded(s, width)[..|s|] == s
    ensures forall i :: |s| <= i < |Padded(s, width)| ==> Padded(s, width)[i] == ' '
  {
    assert Padded(s, width)[..|s|] == s;
  }

  /** Padding appends spaces only. */
  lemma PaddedSpaces(s: string, width: int)
    ensures Padded(s, width) == s + Spaces(Max(|s|, width) - |s|)
  {
    if |s| >= width {
      assert s + Spaces(0) == s;
    }
  }

  /** `padRight` */
  method PadRight(s: string, width: int) returns (r: string)
    ensures r == Padded(s, width)
  {
    r := s;
    assert r == s + Spaces(0);
    while |r| < width
      invariant |s| <= |r| <= Max(|s|, width) && r == s + Spaces(|r| - |s|)
      decreases width - |r|
    {
      SpacesSnoc(s, |r| - |s|);
      r := r + " ";
    }
  }

  lemma SpacesSnoc(s: string, k: nat)
    ensures s + Spaces(k) + " " == s + Spaces(k + 1)
  {
  }

  /** A line whose left part fits the column: the left part, then spaces, then the right part from index 42. */
  lemma Columns(left: string, right: string)
    requires |left| <= LeftColWidth
    ensures |Padded(left, LeftColWidth) + right| == LeftColWidth + |right|
    ensures (Padded(left, LeftColWidth) + right)[..|left|] == left
    ensures (Padded(left, LeftColWidth) + right)[LeftColWidth..] == right
  {
    var line := Padded(left, LeftColWidth) + right;
    PaddedShape(left, LeftColWidth);
    assert line[..|left|] == Padded(left, LeftColWidth)[..|left|];
  }

  /** s preceded by spaces up to width. */
  function LeftPadded(s: string, width: int): string {
    if |s| < width then Spaces(width - |s|) + s else s
  }

  /** What `formatMoveNum(n)` returns. */
  function MoveNumber(n: int): string {
    " " + LeftPadded(IntString(n) + ")", 3) + " "
  }

  /** A move number is "n)" right-aligned in three characters between two spaces. */
  lemma MoveNumberShape(n: int)
    ensures var r := MoveNumber(n);
      |r| == Max(|IntString(n)| + 1, 3) + 2 && r[0] == ' ' && r[|r| - 1] == ' '
      && r[|r| - |IntString(n)| - 2..] == IntString(n) + ") "
      && forall i :: 1 <= i < |r| - |IntString(n)| - 2 ==> r[i] == ' '
  {
    var s := IntString(n) + ")";
    var l := LeftPadded(s, 3);
    var r := MoveNumber(n);
    assert l[|l| - |s|..] == s;
    assert r[|r| - |s| - 1..] == l[|l| - |s|..] + " ";
  }

  /** `formatMoveNum` */
  method FormatMoveNum(n: int) returns (r: string)
    ensures r == MoveNumber(n)
  {
    var s := IntString(n) + ")";
    var t := s;
    assert t == Spaces(0) + s;
    while |t| < 3
      invariant |s| <= |t| <= Max(|s|, 3) && t == Spaces(|t| - |s|) + s
      decreases 3 - |t|
    {
      SpacesCons(|t| - |s|, s);
      t := " " + t;
    }
    r := " " + t + " ";
  }

  lemma SpacesCons(k: nat, s: string)
    ensures " " + (Spaces(k) + s) == Spaces(k + 1) + s
  {
  }

  /** Move numbers below 100 take five characters, so the move text always starts at the same column. */
  lemma MoveNumberWidth(n: int)
    requires 0 <= n < 100
    ensures |MoveNumber(n)| == 5
  {
    MoveNumberShape(n);
    if n >= 10 {
      assert NatString(n) == NatString(n / 10) + [DigitChar(n % 10)];
    }
  }

  // ── The cube ───────────────────────────────────────────────────────

  /** `getDoubleCubeValue`: XG stores the cube as the exponent of its value, so the doubled value is twice 2^|c|. */
  function DoubleCubeValue(cube: CubeEntry): (v: nat)
    ensures v >= 2 && v == 2 * Pow2(Abs(cube.cubeValue))
  {
    if cube.cubeValue == 0 then 2 else Pow2(Abs(cube.cubeValue) + 1)
  }

  /** The reply to a double: take 1, drop 0, beaver 2, and nothing for any other code. */
  function ResponseText(take: int): (r: string)
    ensures r == "" <==> take !in {0, 1, 2}
    ensures '\n' !in r
  {
    if take == 1 then "Takes"
    else if take == 0 then "Drops"
    else if take == 2 then "Beavers"
    else ""
  }

  // ── Pairing the two columns ────────────────────────────────────────

  /** The variables of `write`'s action loop: the lines so far, the pending left entry and the move number. */
  datatype Pairing = Pairing(lines: seq<string>, pendingLeft: Option<string>, moveNum: int)

  /** What one action does: the lines it writes, and the pending entry and move number after it. */
  datatype Turn = Turn(emitted: seq<string>, pendingLeft: Option<string>, moveNum: int)

  /** `activePlayer` 1 is XG's first player, written in the right column; anything else is the left column. */
  predicate IsLeft(activePlayer: int) {
    activePlayer != 1
  }

  /** The text of a move after its number: dice, a colon, the sub-moves. */
  function FullMove(m: MoveEntry): string {
    FormatDice(m.die1, m.die2) + ": " + SubMovesText(m.moves)
  }

  function DoubleText(cube: CubeEntry): string {
    "Doubles => " + IntString(DoubleCubeValue(cube))
  }

  /**
    * A cube action. Only doubles are written. A left double and its reply share
    * one line. A right double completes the pending left line, or stands after
    * an empty left column, and the left player's reply follows on a line of
    * its own under the (possibly advanced) move number.
    */
  function CubeTurnOf(pending: Option<string>, moveNum: int, cube: CubeEntry): Turn {
    if cube.double != 1 then Turn([], pending, moveNum)
    else
      var response := ResponseText(cube.take);
      if IsLeft(cube.activePlayer) then
        var leftStr := MoveNumber(moveNum) + DoubleText(cube);
        if response != "" then Turn([Padded(leftStr, LeftColWidth) + response], pending, moveNum)
        else Turn([Padded(leftStr, LeftColWidth)], pending, moveNum)
      else
        var first :=
          if pending.Some? then Padded(pending.value, LeftColWidth) + DoubleText(cube)
          else Padded(MoveNumber(moveNum), LeftColWidth) + DoubleText(cube);
        var n := if pending.Some? then moveNum + 1 else moveNum;
        if response != "" then Turn([first, Padded(MoveNumber(n) + response, LeftColWidth)], None, n)
        else Turn([first], None, n)
  }

  /** A move action: a left move becomes the pending entry; a right move completes the line and advances the number. */
  function MoveTurnOf(pending: Option<string>, moveNum: int, m: MoveEntry): Turn {
    if IsLeft(m.activePlayer) then Turn([], Some(MoveNumber(moveNum) + FullMove(m)), moveNum)
    else
      var leftPart := if pending.Some? then pending.value else MoveNumber(moveNum);
      Turn([Padded(leftPart, LeftColWidth) + FullMove(m)], None, moveNum + 1)
  }

  function TurnOf(pending: Option<string>, moveNum: int, a: Action): Turn {
    match a
    case CubeAction(c) => CubeTurnOf(pending, moveNum, c)
    case MoveAction(m) => MoveTurnOf(pending, moveNum, m)
  }

  /** One pass of the action loop: the turn's lines are pushed after the earlier ones. */
  function Step(p: Pairing, a: Action): Pairing {
    var t := TurnOf(p.pendingLeft, p.moveNum, a);
    Pairing(p.lines + t.emitted, t.pendingLeft, t.moveNum)
  }

  /** The pairing after the given actions, in order. */
  function Steps(p: Pairing, actions: seq<Action>): Pairing
    decreases |actions|
  {
    if actions == [] then p else Step(Steps(p, actions[..|actions| - 1]), actions[|actions| - 1])
  }

  /** The lines after the loop: a pending left entry is flushed on a padded line of its own. */
  function Flushed(p: Pairing): seq<string> {
    if p.pendingLeft.Some? then p.lines + [Padded(p.pendingLeft.value, LeftColWidth)] else p.lines
  }

  /** The lines the actions of one game produce. */
  function ActionLines(actions: seq<Action>): seq<string> {
    Flushed(Steps(Pairing([], None, 1), actions))
  }

  /** One cube action of the loop body. */
  method CubeTurn(p: Pairing, cube: CubeEntry) returns (q: Pairing)
    ensures q == Step(p, CubeAction(cube))
  {
    q := p;
    var isLeft := cube.activePlayer != 1;
    var newCubeVal := DoubleCubeValue(cube);
    if cube.double == 1 {
      var doubleTxt := "Doubles => " + IntString(newCubeVal);
      var responseTxt := "";
      if cube.take == 1 {
        responseTxt := "Takes";
      } else if cube.take == 0 {
        responseTxt := "Drops";
      } else if cube.take == 2 {
        responseTxt := "Beavers";
      }
      if isLeft {
        var num := FormatMoveNum(p.moveNum);
        var leftStr := num + doubleTxt;
        var padded := PadRight(leftStr, LeftColWidth);
        if responseTxt != "" {
          q := q.(lines := q.lines + [padded + responseTxt]);
        } else {
          q := q.(lines := q.lines + [padded]);
        }
      } else {
        var first: string;
        if q.pendingLeft.Some? {
          var padded := PadRight(q.pendingLeft.value, LeftColWidth);
          first := padded + doubleTxt;
          q := Pairing(q.lines + [first], None, q.moveNum + 1);
        } else {
          var num := FormatMoveNum(q.moveNum);
          var padded := PadRight(num, LeftColWidth);
          first := padded + doubleTxt;
          q := q.(lines := q.lines + [first]);
        }
        if responseTxt != "" {
          var num := FormatMoveNum(q.moveNum);
          var padded := PadRight(num + responseTxt, LeftColWidth);
          assert p.lines + [first] + [padded] == p.lines + [first, padded];
          q := q.(lines := q.lines + [padded]);
        }
      }
    } else {
      assert p.lines + [] == p.lines;
    }
  }

  /** One move action of the loop body. */
  method MoveTurn(p: Pairing, move: MoveEntry) returns (q: Pairing)
    ensures q == Step(p, MoveAction(move))
  {
    var diceStr := FormatDice(move.die1, move.die2);
    var moveStr := FormatSubMoves(move.moves);
    var fullMove := diceStr + ": " + moveStr;
    if move.activePlayer != 1 {
      var num := FormatMoveNum(p.moveNum);
      q := p.(pendingLeft := Some(num + fullMove));
      assert p.lines + [] == p.lines;
    } else {
      var leftPart: string;
      if p.pendingLeft.Some? {
        leftPart := p.pendingLeft.value;
      } else {
        leftPart := FormatMoveNum(p.moveNum);
      }
      var padded := PadRight(leftPart, LeftColWidth);
      q := Pairing(p.lines + [padded + fullMove], None, p.moveNum + 1);
    }
  }

  /** The action loop of one game, from move number 1 and an empty pending slot. */
  method PairActions(lines: seq<string>, actions: seq<Action>) returns (p: Pairing)
    ensures p == Steps(Pairing(lines, None, 1), actions)
  {
    p := Pairing(lines, None, 1);
    for a := 0 to |actions|
      invariant p == Steps(Pairing(lines, None, 1), actions[..a])
    {
      assert actions[..a + 1][..a] == actions[..a];
      match actions[a]
      case CubeAction(cube) =>
        p := CubeTurn(p, cube);
      case MoveAction(move) =>
        p := MoveTurn(p, move);
    }
    assert actions[..|actions|] == actions;
  }

  // ── Properties of the pairing ──────────────────────────────────────

  /**
    * A left move only fills the pending slot; a right move writes exactly one
    * line, which starts with the pending entry (or the bare move number),
    * empties the slot and advances the move number.
    */
  lemma MoveTurnEffect(pending: Option<string>, n: int, m: MoveEntry)
    ensures IsLeft(m.activePlayer) ==> MoveTurnOf(pending, n, m) == Turn([], Some(MoveNumber(n) + FullMove(m)), n)
    ensures !IsLeft(m.activePlayer) ==> (
      var t, left := MoveTurnOf(pending, n, m), if pending.Some? then pending.value else MoveNumber(n);
      |t.emitted| == 1 && t.emitted[0][..|left|] == left && t.pendingLeft.None? && t.moveNum == n + 1)
  {
    if !IsLeft(m.activePlayer) {
      var left := if pending.Some? then pending.value else MoveNumber(n);
      PaddedShape(left, LeftColWidth);
      assert (Padded(left, LeftColWidth) + FullMove(m))[..|left|] == Padded(left, LeftColWidth)[..|left|];
    }
  }

  /** Of two left moves in a row only the second is written: the first is overwritten in the pending slot. */
  lemma LeftMoveOverwritten(p: Pairing, m1: MoveEntry, m2: MoveEntry)
    requires IsLeft(m1.activePlayer) && IsLeft(m2.activePlayer)
    ensures Step(Step(p, MoveAction(m1)), MoveAction(m2)) == Step(p, MoveAction(m2))
  {
    assert p.lines + [] + [] == p.lines + [];
  }

  /** Cube actions that are not doubles leave no trace. */
  lemma NonDoubleIgnored(p: Pairing, c: CubeEntry)
    requires c.double != 1
    ensures Step(p, CubeAction(c)) == p
  {
    assert p.lines + [] == p.lines;
  }

  /** How many lines an action writes; this does not depend on what is pending. */
  function Emitted(a: Action): nat {
    match a
    case MoveAction(m) => if IsLeft(m.activePlayer) then 0 else 1
    case CubeAction(c) =>
      if c.double != 1 then 0
      else if IsLeft(c.activePlayer) || ResponseText(c.take) == "" then 1
      else 2
  }

  function EmittedTotal(actions: seq<Action>): nat
    decreases |actions|
  {
    if actions == [] then 0 else EmittedTotal(actions[..|actions| - 1]) + Emitted(actions[|actions| - 1])
  }

  /** Every line a line of the pairing writes reaches the left column's width. */
  predicate Wide(lines: seq<string>) {
    forall i :: 0 <= i < |lines| ==> |lines[i]| >= LeftColWidth
  }

  /** A turn writes Emitted(a) lines, each padded to the left column at least. */
  lemma TurnEmitted(pending: Option<string>, n: int, a: Action)
    ensures |TurnOf(pending, n, a).emitted| == Emitted(a) && Wide(TurnOf(pending, n, a).emitted)
  {
    var left := if pending.Some? then pending.value else MoveNumber(n);
    PaddedWide(left);
    match a
    case CubeAction(c) =>
      var m := if pending.Some? then n + 1 else n;
      PaddedWide(MoveNumber(n) + DoubleText(c));
      PaddedWide(MoveNumber(m) + ResponseText(c.take));
    case MoveAction(m) =>
  }

  /** A padded text is at least as wide as the left column. */
  lemma PaddedWide(s: string)
    ensures |Padded(s, LeftColWidth)| >= LeftColWidth
  {
  }

  /**
    * The pairing only appends: earlier lines stay, and every action writes
    * Emitted lines, each at least as wide as the left column.
    */
  lemma {:induction false} StepsAppend(p: Pairing, actions: seq<Action>)
    ensures |Steps(p, actions).lines| == |p.lines| + EmittedTotal(actions)
    ensures Steps(p, actions).lines[..|p.lines|] == p.lines
    ensures Wide(Steps(p, actions).lines[|p.lines|..])
    decreases |actions|
  {
    if actions != [] {
      var init, last := actions[..|actions| - 1], actions[|actions| - 1];
      var q := Steps(p, init);
      StepsAppend(p, init);
      var t := TurnOf(q.pendingLeft, q.moveNum, last);
      TurnEmitted(q.pendingLeft, q.moveNum, last);
      SliceAppend(q.lines, t.emitted, |p.lines|);
      WideAppend(q.lines[|p.lines|..], t.emitted);
    }
  }

  lemma SliceAppend(a: seq<string>, b: seq<string>, k: nat)
    requires k <= |a|
    ensures (a + b)[..k] == a[..k] && (a + b)[k..] == a[k..] + b
  {
  }

  lemma WideAppend(a: seq<string>, b: seq<string>)
    requires Wide(a) && Wide(b)
    ensures Wide(a + b)
  {
    forall i | 0 <= i < |a + b|
      ensures |(a + b)[i]| >= LeftColWidth
    {
      if i >= |a| {
        assert (a + b)[i] == b[i - |a|];
      }
    }
  }

  /** Running the actions after some lines is running them from no lines and writing the result after those lines. */
  lemma {:induction false} StepsAfter(before: seq<string>, pending: Option<string>, n: int, actions: seq<Action>)
    ensures Steps(Pairing(before, pending, n), actions).lines == before + Steps(Pairing([], pending, n), actions).lines
    ensures Steps(Pairing(before, pending, n), actions).pendingLeft == Steps(Pairing([], pending, n), actions).pendingLeft
    ensures Steps(Pairing(before, pending, n), actions).moveNum == Steps(Pairing([], pending, n), actions).moveNum
    decreases |actions|
  {
    if actions != [] {
      var init, last := actions[..|actions| - 1], actions[|actions| - 1];
      StepsAfter(before, pending, n, init);
      var q := Steps(Pairing([], pending, n), init);
      var t := TurnOf(q.pendingLeft, q.moveNum, last);
      Associate(before, q.lines, t.emitted);
    }
  }

  /** Every line of a game's actions is at least as wide as the left column, the flushed pending line included. */
  lemma ActionLinesWide(actions: seq<Action>)
    ensures Wide(ActionLines(actions))
    ensures |ActionLines(actions)| == EmittedTotal(actions) + (if Steps(Pairing([], None, 1), actions).pendingLeft.Some? then 1 else 0)
  {
    var p := Steps(Pairing([], None, 1), actions);
    StepsAppend(Pairing([], None, 1), actions);
    assert p.lines[0..] == p.lines;
    if p.pendingLeft.Some? {
      PaddedShape(p.pendingLeft.value, LeftColWidth);
    }
  }

  // ── Games and the match ────────────────────────────────────────────

  /** The score line: the left player and score2 in the left column, the right player and score1 after it. */
  function ScoreLine(leftPlayer: string, rightPlayer: string, h: HeaderGame): string {
    Padded(" " + leftPlayer + ": " + IntString(h.score2), LeftColWidth) + rightPlayer + ": " + IntString(h.score1)
  }

  /** The words of a result: "Wins N point", an "s" unless N is 1, and " and the match" on the last game of a match with a length. */
  function ResultWords(pointsWon: int, isLastGame: bool, matchLength: int): string {
    "Wins " + IntString(pointsWon) + " point" + (if pointsWon != 1 then "s" else "")
    + (if isLastGame && matchLength > 0 then " and the match" else "")
  }

  /**
    * The result line: the words after three spaces, padded in the left column
    * when the left player won (winner other than 1), trimmed and written after
    * the left column otherwise.
    */
  function ResultLine(f: FooterGame, isLastGame: bool, matchLength: int): string {
    var resultStr := "   " + ResultWords(f.pointsWon, isLastGame, matchLength);
    if f.winner != 1 then Padded(resultStr, LeftColWidth)
    else Padded("", LeftColWidth) + Trim(resultStr)
  }

  /** The game number line and the score line. */
  function GameHead(g: Game, m: HeaderMatch): seq<string> {
    [" Game " + IntString(g.header.gameNumber), ScoreLine(m.player2, m.player1, g.header)]
  }

  /** The result line of a game that has a footer. */
  function FooterLines(footer: Option<FooterGame>, isLastGame: bool, matchLength: int): seq<string> {
    if footer.Some? then [ResultLine(footer.value, isLastGame, matchLength)] else []
  }

  /** The lines of one game: its head, its actions, the result if there is a footer, an empty line. */
  function GameLines(g: Game, isLastGame: bool, m: HeaderMatch): seq<string> {
    GameHead(g, m) + ActionLines(g.actions) + FooterLines(g.footer, isLastGame, m.matchLength) + [""]
  }

  function HeaderLine(matchLength: int): string {
    if matchLength > 0 then IntString(matchLength) + " point match" else "Unlimited game"
  }

  /** The lines of the first n games. */
  function GamesLines(parsed: XgMatch, n: nat): seq<string>
    requires n <= |parsed.games|
  {
    if n == 0 then []
    else GamesLines(parsed, n - 1) + GameLines(parsed.games[n - 1], n - 1 == |parsed.games| - 1, parsed.matchInfo)
  }

  /** One more game after the lines of the first g. */
  lemma GamesLinesNext(parsed: XgMatch, g: nat)
    requires g < |parsed.games|
    ensures GamesLines(parsed, g + 1) == GamesLines(parsed, g) + GameLines(parsed.games[g], g == |parsed.games| - 1, parsed.matchInfo)
  {
  }

  /** All lines `write` collects: the header, an empty line, then every game. */
  function MatLines(parsed: XgMatch): seq<string> {
    [HeaderLine(parsed.matchInfo.matchLength), ""] + GamesLines(parsed, |parsed.games|)
  }

  /** The text `write` returns: its lines joined with newlines. */
  function MatText(parsed: XgMatch): string {
    Join(MatLines(parsed), '\n')
  }

  /** `resultStr` as the loop builds it. */
  method BuildResult(pts: int, isLastGame: bool, matchLength: int) returns (resultStr: string)
    ensures resultStr == "   " + ResultWords(pts, isLastGame, matchLength)
  {
    var plural := if pts != 1 then "s" else "";
    resultStr := "   Wins " + IntString(pts) + " point" + plural;
    var suffix := "";
    if isLastGame && matchLength > 0 {
      suffix := " and the match";
      resultStr := resultStr + suffix;
    } else {
      assert resultStr + suffix == resultStr;
    }
    ResultStringWords(IntString(pts), plural, suffix);
  }

  lemma ResultStringWords(n: string, plural: string, suffix: string)
    ensures "   Wins " + n + " point" + plural + suffix == "   " + ("Wins " + n + " point" + plural + suffix)
  {
    assert "   Wins " == "   " + "Wins ";
  }

  /** The head of one game, appended to `lines`. */
  method WriteHead(lines: seq<string>, game: Game, m: HeaderMatch) returns (out: seq<string>)
    ensures out == lines + GameHead(game, m)
  {
    var hdr := game.header;
    out := lines + [" Game " + IntString(hdr.gameNumber)];
    var scoreLine := " " + m.player2 + ": " + IntString(hdr.score2);
    scoreLine := PadRight(scoreLine, LeftColWidth);
    scoreLine := scoreLine + m.player1 + ": " + IntString(hdr.score1);
    out := out + [scoreLine];
  }

  /** The actions of one game and the flushed pending entry, appended to `lines`. */
  method WriteActions(lines: seq<string>, actions: seq<Action>) returns (out: seq<string>)
    ensures out == lines + ActionLines(actions)
  {
    var p := PairActions(lines, actions);
    StepsAfter(lines, None, 1, actions);
    out := p.lines;
    if p.pendingLeft.Some? {
      var padded := PadRight(p.pendingLeft.value, LeftColWidth);
      out := out + [padded];
    }
  }

  /** The result line of a game with a footer, appended to `lines`. */
  method WriteFooter(lines: seq<string>, footer: Option<FooterGame>, isLastGame: bool, matchLength: int)
    returns (out: seq<string>)
    ensures out == lines + FooterLines(footer, isLastGame, matchLength)
  {
    out := lines;
    if footer.Some? {
      var resultStr := BuildResult(footer.value.pointsWon, isLastGame, matchLength);
      if footer.value.winner != 1 {
        var padded := PadRight(resultStr, LeftColWidth);
        out := out + [padded];
      } else {
        var padded := PadRight("", LeftColWidth);
        out := out + [padded + Trim(resultStr)];
      }
    }
  }

  /** The lines of one game, appended to `lines`. */
  method WriteGame(lines: seq<string>, game: Game, isLastGame: bool, m: HeaderMatch) returns (out: seq<string>)
    ensures out == lines + GameLines(game, isLastGame, m)
  {
    var l1 := WriteHead(lines, game, m);
    var l2 := WriteActions(l1, game.actions);
    var l3 := WriteFooter(l2, game.footer, isLastGame, m.matchLength);
    out := l3 + [""];
    Regroup(lines, GameHead(game, m), ActionLines(game.actions), FooterLines(game.footer, isLastGame, m.matchLength), [""]);
  }

  /*
   * Regrouping a concatenation of line lists. These are stated once, over
   * bare sequences, because proving the same equation inline over the
   * writer's line functions costs the calling methods far more.
   */
  lemma Associate(a: seq<string>, b: seq<string>, c: seq<string>)
    ensures a + b + c == a + (b + c)
  {
  }

  lemma Regroup(a: seq<string>, b: seq<string>, c: seq<string>, d: seq<string>, e: seq<string>)
    ensures a + b + c + d + e == a + (b + c + d + e)
  {
  }

  /** `write` */
  method Write(parsed: XgMatch) returns (text: string)
    ensures text == MatText(parsed)
  {
    var m := parsed.matchInfo;
    var games := parsed.games;
    var lines: seq<string> := [];
    if m.matchLength > 0 {
      lines := lines + [IntString(m.matchLength) + " point match"];
    } else {
      lines := lines + ["Unlimited game"];
    }
    lines := lines + [""];
    for g := 0 to |games|
      invariant lines == [HeaderLine(m.matchLength), ""] + GamesLines(parsed, g)
    {
      lines := WriteGame(lines, games[g], g == |games| - 1, m);
      GamesLinesNext(parsed, g);
      Associate([HeaderLine(m.matchLength), ""], GamesLines(parsed, g), GameLines(games[g], g == |games| - 1, m));
    }
    text := Join(lines, '\n');
  }

  // ── Properties of the text ─────────────────────────────────────────

  /** parseInt on the first line gives the match length back; "Unlimited game" reads as NaN. */
  lemma HeaderLineReadBack(matchLength: int)
    ensures ParseInt(HeaderLine(matchLength)) == (if matchLength > 0 then Int(matchLength) else NaN)
  {
    var s := HeaderLine(matchLength);
    assert !IsJsSpace(s[0]);
    assert TrimStart(s) == s;
    if matchLength > 0 {
      var d := NatString(matchLength);
      DigitPrefixOfDigits(d, " point match");
      assert s[..|d|] == d;
      NatStringValue(matchLength);
    } else {
      assert DigitPrefixLength(s) == 0;
    }
  }

  /** Leading spaces come off. */
  lemma {:induction false} TrimStartSpaces(k: nat, u: string)
    requires u != [] && !IsJsSpace(u[0])
    ensures TrimStart(Spaces(k) + u) == u
    decreases k
  {
    if k > 0 {
      assert (Spaces(k) + u)[1..] == Spaces(k - 1) + u;
      TrimStartSpaces(k - 1, u);
    } else {
      assert Spaces(k) + u == u;
    }
  }

  /** Trailing spaces come off. */
  lemma {:induction false} TrimEndSpaces(t: string, k: nat)
    requires t != [] && !IsJsSpace(t[|t| - 1])
    ensures TrimEnd(t + Spaces(k)) == t
    decreases k
  {
    if k > 0 {
      assert (t + Spaces(k))[..|t| + k - 1] == t + Spaces(k - 1);
      TrimEndSpaces(t, k - 1);
    } else {
      assert t + Spaces(k) == t;
    }
  }

  /** Trimming removes the spaces around a text that neither starts nor ends with white space. */
  lemma TrimSpaced(a: nat, t: string, b: nat)
    requires t != [] && !IsJsSpace(t[0]) && !IsJsSpace(t[|t| - 1])
    ensures Trim(Spaces(a) + t + Spaces(b)) == t
  {
    assert Spaces(a) + t + Spaces(b) == Spaces(a) + (t + Spaces(b));
    TrimStartSpaces(a, t + Spaces(b));
    TrimEndSpaces(t, b);
  }

  /** The words of a result start with "W" and end with the "t" of point, the "s" of points or the "h" of match. */
  lemma ResultWordsEnds(pointsWon: int, isLastGame: bool, matchLength: int)
    ensures var t := ResultWords(pointsWon, isLastGame, matchLength);
      |t| > 0 && t[0] == 'W' && (t[|t| - 1] == 't' || t[|t| - 1] == 's' || t[|t| - 1] == 'h')
  {
  }

  /**
    * The result line holds the words in the winner's column: from index 3 when
    * the left player (winner other than 1) won, from index 42 after nothing but
    * spaces otherwise; either way trimming the line gives the words.
    */
  lemma ResultLineColumns(f: FooterGame, isLastGame: bool, matchLength: int)
    ensures var t, line := ResultWords(f.pointsWon, isLastGame, matchLength), ResultLine(f, isLastGame, matchLength);
      Trim(line) == t
      && (f.winner != 1 ==> line[..3 + |t|] == "   " + t)
      && (f.winner == 1 ==> line == Spaces(LeftColWidth) + t)
  {
    var t := ResultWords(f.pointsWon, isLastGame, matchLength);
    ResultWordsEnds(f.pointsWon, isLastGame, matchLength);
    if f.winner != 1 {
      LeftResultLine(t);
    } else {
      RightResultLine(t);
    }
  }

  /** A left-column result: the words after three spaces, then spaces up to the column. */
  lemma LeftResultLine(t: string)
    requires t != [] && !IsJsSpace(t[0]) && !IsJsSpace(t[|t| - 1])
    ensures Trim(Padded("   " + t, LeftColWidth)) == t
    ensures Padded("   " + t, LeftColWidth)[..3 + |t|] == "   " + t
  {
    var s := "   " + t;
    var k := Max(|s|, LeftColWidth) - |s|;
    PaddedSpaces(s, LeftColWidth);
    assert s + Spaces(k) == Spaces(3) + t + Spaces(k);
    TrimSpaced(3, t, k);
  }

  /** A right-column result: the trimmed words after an empty, padded left column. */
  lemma RightResultLine(t: string)
    requires t != [] && !IsJsSpace(t[0]) && !IsJsSpace(t[|t| - 1])
    ensures Padded("", LeftColWidth) + Trim("   " + t) == Spaces(LeftColWidth) + t
    ensures Trim(Spaces(LeftColWidth) + t) == t
  {
    assert Trim("   " + t) == t by {
      assert "   " + t == Spaces(3) + t + Spaces(0);
      TrimSpaced(3, t, 0);
    }
    assert Padded("", LeftColWidth) == Spaces(LeftColWidth) by {
      PaddedSpaces("", LeftColWidth);
      assert "" + Spaces(LeftColWidth) == Spaces(LeftColWidth);
    }
    assert Trim(Spaces(LeftColWidth) + t) == t by {
      assert Spaces(LeftColWidth) + t == Spaces(LeftColWidth) + t + Spaces(0);
      TrimSpaced(LeftColWidth, t, 0);
    }
  }

  /** No newline in the words of a result. */
  lemma ResultWordsOneLine(pointsWon: int, isLastGame: bool, matchLength: int)
    ensures '\n' !in "   " + ResultWords(pointsWon, isLastGame, matchLength)
  {
    IntStringChars(pointsWon);
  }

  /** "s" follows "point" exactly when more or fewer than one point was won; " and the match" ends the words exactly on the last game of a match. */
  lemma ResultWordsPlural(pointsWon: int, isLastGame: bool, matchLength: int)
    ensures var t, head := ResultWords(pointsWon, isLastGame, matchLength), "Wins " + IntString(pointsWon) + " point";
      |head| <= |t| && t[..|head|] == head
      && ((|t| > |head| && t[|head|] == 's') <==> pointsWon != 1)
      && ((|t| >= 14 && t[|t| - 14..] == " and the match") <==> (isLastGame && matchLength > 0))
  {
    var t := ResultWords(pointsWon, isLastGame, matchLength);
    var head := "Wins " + IntString(pointsWon) + " point";
    var plural := if pointsWon != 1 then "s" else "";
    var suffix := if isLastGame && matchLength > 0 then " and the match" else "";
    assert t == head + (plural + suffix);
    assert t[..|head|] == head;
    ResultWordsEnds(pointsWon, isLastGame, matchLength);
    if suffix == "" {
      assert t[|t| - 1] != 'h';
    } else {
      assert t[|t| - 14..] == suffix;
    }
  }

  /** Each game starts with its number and its score line and ends with an empty line. */
  lemma GameLinesShape(g: Game, isLastGame: bool, m: HeaderMatch)
    ensures var lines := GameLines(g, isLastGame, m);
      |lines| == 3 + |ActionLines(g.actions)| + (if g.footer.Some? then 1 else 0)
      && lines[0] == " Game " + IntString(g.header.gameNumber) && lines[1] == ScoreLine(m.player2, m.player1, g.header)
      && lines[|lines| - 1] == ""
  {
  }

  /** With a short enough left part, the left player and score2 fill the left column and the right player starts at index 42. */
  lemma ScoreLineColumns(leftPlayer: string, rightPlayer: string, h: HeaderGame)
    requires |" " + leftPlayer + ": " + IntString(h.score2)| <= LeftColWidth
    ensures var line, left := ScoreLine(leftPlayer, rightPlayer, h), " " + leftPlayer + ": " + IntString(h.score2);
      line[..|left|] == left && line[LeftColWidth..] == rightPlayer + ": " + IntString(h.score1)
  {
    var left := " " + leftPlayer + ": " + IntString(h.score2);
    var right := rightPlayer + ": " + IntString(h.score1);
    Columns(left, right);
    assert ScoreLine(leftPlayer, rightPlayer, h) == Padded(left, LeftColWidth) + right;
  }

  // ── The text splits back into its lines ────────────────────────────

  predicate OneLine(s: string) {
    '\n' !in s
  }

  /** Neither player name holds a newline. */
  predicate NamesOneLine(m: HeaderMatch) {
    OneLine(m.player1) && OneLine(m.player2)
  }

  predicate AllOneLine(lines: seq<string>) {
    forall i :: 0 <= i < |lines| ==> OneLine(lines[i])
  }

  lemma ConcatOneLine(a: seq<string>, b: seq<string>)
    requires AllOneLine(a) && AllOneLine(b)
    ensures AllOneLine(a + b)
  {
    forall i | 0 <= i < |a + b|
      ensures OneLine((a + b)[i])
    {
      if i >= |a| {
        assert (a + b)[i] == b[i - |a|];
      }
    }
  }

  lemma IntStringOneLine(n: int)
    ensures OneLine(IntString(n))
  {
    IntStringChars(n);
  }

  lemma SpacesOneLine(k: nat)
    ensures OneLine(Spaces(k))
  {
  }

  lemma PaddedOneLine(s: string, width: int)
    requires OneLine(s)
    ensures OneLine(Padded(s, width))
  {
    PaddedSpaces(s, width);
    SpacesOneLine(Max(|s|, width) - |s|);
  }

  lemma MoveNumberOneLine(n: int)
    ensures OneLine(MoveNumber(n))
  {
    IntStringOneLine(n);
    var s := IntString(n) + ")";
    if |s| < 3 {
      SpacesOneLine(3 - |s|);
    }
  }

  lemma FullMoveOneLine(m: MoveEntry)
    ensures OneLine(FullMove(m))
  {
    IntStringOneLine(Max(m.die1, m.die2));
    IntStringOneLine(Min(m.die1, m.die2));
    SubMovePartsClean(m.moves, 0);
    JoinAvoids(SubMoveParts(m.moves, 0), ' ', '\n');
  }

  /** The lines and the pending entry of a pairing hold no newline. */
  predicate PairingOneLine(p: Pairing) {
    AllOneLine(p.lines) && (p.pendingLeft.Some? ==> OneLine(p.pendingLeft.value))
  }

  predicate PendingOneLine(pending: Option<string>) {
    pending.Some? ==> OneLine(pending.value)
  }

  predicate TurnOneLine(t: Turn) {
    AllOneLine(t.emitted) && PendingOneLine(t.pendingLeft)
  }

  lemma DoubleTextOneLine(c: CubeEntry)
    ensures OneLine(DoubleText(c))
  {
    IntStringOneLine(DoubleCubeValue(c));
  }

  lemma LeftCubeOneLine(pending: Option<string>, n: int, c: CubeEntry)
    requires PendingOneLine(pending) && c.double == 1 && IsLeft(c.activePlayer)
    ensures TurnOneLine(CubeTurnOf(pending, n, c))
  {
    MoveNumberOneLine(n);
    DoubleTextOneLine(c);
    PaddedOneLine(MoveNumber(n) + DoubleText(c), LeftColWidth);
  }

  lemma RightCubeOneLine(pending: Option<string>, n: int, c: CubeEntry)
    requires PendingOneLine(pending) && c.double == 1 && !IsLeft(c.activePlayer)
    ensures TurnOneLine(CubeTurnOf(pending, n, c))
  {
    var m := if pending.Some? then n + 1 else n;
    var left := if pending.Some? then pending.value else MoveNumber(n);
    MoveNumberOneLine(n);
    MoveNumberOneLine(m);
    DoubleTextOneLine(c);
    PaddedOneLine(left, LeftColWidth);
    PaddedOneLine(MoveNumber(m) + ResponseText(c.take), LeftColWidth);
  }

  lemma MoveOneLine(pending: Option<string>, n: int, m: MoveEntry)
    requires PendingOneLine(pending)
    ensures TurnOneLine(MoveTurnOf(pending, n, m))
  {
    FullMoveOneLine(m);
    MoveNumberOneLine(n);
    var left := if pending.Some? then pending.value else MoveNumber(n);
    PaddedOneLine(left, LeftColWidth);
  }

  lemma StepOneLine(p: Pairing, a: Action)
    requires PairingOneLine(p)
    ensures PairingOneLine(Step(p, a))
  {
    if a.MoveAction? {
      MoveOneLine(p.pendingLeft, p.moveNum, a.move);
    } else if a.cube.double == 1 && IsLeft(a.cube.activePlayer) {
      LeftCubeOneLine(p.pendingLeft, p.moveNum, a.cube);
    } else if a.cube.double == 1 {
      RightCubeOneLine(p.pendingLeft, p.moveNum, a.cube);
    }
    ConcatOneLine(p.lines, TurnOf(p.pendingLeft, p.moveNum, a).emitted);
  }

  lemma {:induction false} StepsOneLine(actions: seq<Action>)
    ensures PairingOneLine(Steps(Pairing([], None, 1), actions))
    decreases |actions|
  {
    if actions != [] {
      StepsOneLine(actions[..|actions| - 1]);
      StepOneLine(Steps(Pairing([], None, 1), actions[..|actions| - 1]), actions[|actions| - 1]);
    }
  }

  lemma ActionLinesOneLine(actions: seq<Action>)
    ensures AllOneLine(ActionLines(actions))
  {
    StepsOneLine(actions);
    var p := Steps(Pairing([], None, 1), actions);
    if p.pendingLeft.Some? {
      PaddedOneLine(p.pendingLeft.value, LeftColWidth);
      ConcatOneLine(p.lines, [Padded(p.pendingLeft.value, LeftColWidth)]);
    }
  }

  lemma FooterOneLine(footer: Option<FooterGame>, isLastGame: bool, matchLength: int)
    ensures AllOneLine(FooterLines(footer, isLastGame, matchLength))
  {
    if footer.Some? {
      var f := footer.value;
      ResultLineColumns(f, isLastGame, matchLength);
      ResultWordsOneLine(f.pointsWon, isLastGame, matchLength);
      PaddedOneLine("   " + ResultWords(f.pointsWon, isLastGame, matchLength), LeftColWidth);
      SpacesOneLine(LeftColWidth);
    }
  }

  lemma HeadOneLine(g: Game, m: HeaderMatch)
    requires NamesOneLine(m)
    ensures AllOneLine(GameHead(g, m))
  {
    IntStringOneLine(g.header.gameNumber);
    IntStringOneLine(g.header.score1);
    IntStringOneLine(g.header.score2);
    PaddedOneLine(" " + m.player2 + ": " + IntString(g.header.score2), LeftColWidth);
  }

  lemma GameOneLine(g: Game, isLastGame: bool, m: HeaderMatch)
    requires NamesOneLine(m)
    ensures AllOneLine(GameLines(g, isLastGame, m))
  {
    var head, acts, foot := GameHead(g, m), ActionLines(g.actions), FooterLines(g.footer, isLastGame, m.matchLength);
    HeadOneLine(g, m);
    ActionLinesOneLine(g.actions);
    FooterOneLine(g.footer, isLastGame, m.matchLength);
    ConcatOneLine(head, acts);
    ConcatOneLine(head + acts, foot);
    ConcatOneLine(head + acts + foot, [""]);
  }

  lemma {:induction false} GamesOneLine(parsed: XgMatch, n: nat)
    requires n <= |parsed.games|
    requires NamesOneLine(parsed.matchInfo)
    ensures AllOneLine(GamesLines(parsed, n))
  {
    if n > 0 {
      var g := n - 1;
      GamesOneLine(parsed, g);
      GameOneLine(parsed.games[g], g == |parsed.games| - 1, parsed.matchInfo);
      GamesLinesNext(parsed, g);
      ConcatOneLine(GamesLines(parsed, g), GameLines(parsed.games[g], g == |parsed.games| - 1, parsed.matchInfo));
    }
  }

  /** When no player name holds a newline, splitting the text at newlines gives exactly the lines `write` collected. */
  lemma MatTextSplit(parsed: XgMatch)
    requires NamesOneLine(parsed.matchInfo)
    ensures Split(MatText(parsed), '\n') == MatLines(parsed)
  {
    GamesOneLine(parsed, |parsed.games|);
    IntStringOneLine(parsed.matchInfo.matchLength);
    var head := [HeaderLine(parsed.matchInfo.matchLength), ""];
    ConcatOneLine(head, GamesLines(parsed, |parsed.games|));
    SplitJoin(MatLines(parsed), '\n');
  }
}
