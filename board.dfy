/**
  An immutable backgammon position (ModelDLL/GameBoardState.cs).

  The 24 points are signed counts: a positive cell holds that many White
  checkers, a negative cell that many Black ones. Besides the points a
  position records, per colour, the checkers on the bar and the checkers
  already borne off ("on target"). Only the public constructor checks the
  15-checkers-per-colour invariant; every transform returns a new position
  without re-checking it, and the composition lemmas at the end of this
  module show which combinations of transforms keep it.
*/
module Board {
  import opened Wrappers

  const NumberOfPositionsOnBoard := 24
  const NumberOfCheckersPerPlayer := 15

  datatype CheckerColor = White | Black

  function OppositeColor(c: CheckerColor): CheckerColor {
    if c == White then Black else White
  }

  /** First and last position of a colour's home board. */
  function HomeBoardFirst(c: CheckerColor): int { if c == White then 1 else 19 }
  function HomeBoardLast(c: CheckerColor): int { if c == White then 6 else 24 }

  /** What one checker of colour `c` adds to the signed count of a point. */
  function Unit(c: CheckerColor): int { if c == White then 1 else -1 }

  datatype GameBoardState = GameBoardState(
    mainBoard: seq<int>,
    whiteCheckersOnBar: int,
    whiteCheckersOnTarget: int,
    blackCheckersOnBar: int,
    blackCheckersOnTarget: int)

  /** The checkers of colour `c` on the bar. */
  function CheckersOnBar(b: GameBoardState, c: CheckerColor): (n: int)
    ensures c == White ==> n == b.whiteCheckersOnBar
    ensures c == Black ==> n == b.blackCheckersOnBar
  {
    if c == White then b.whiteCheckersOnBar else b.blackCheckersOnBar
  }

  /** The checkers of colour `c` already borne off. */
  function CheckersOnTarget(b: GameBoardState, c: CheckerColor): (n: int)
    ensures c == White ==> n == b.whiteCheckersOnTarget
    ensures c == Black ==> n == b.blackCheckersOnTarget
  {
    if c == White then b.whiteCheckersOnTarget else b.blackCheckersOnTarget
  }

  /** The error the validating constructor raises, with the totals it counted. */
  datatype BoardError = WrongNumberOfCheckers(white: int, black: int)

  // ---------------------------------------------------------------------
  // Checker totals, as the validating constructor counts them
  // ---------------------------------------------------------------------

  /** Checkers of colour `c` that the constructor counts in a cell: a positive
      cell counts for White, any other cell adds its negation to Black. */
  function Owned(cell: int, c: CheckerColor): nat {
    if c == White then (if cell > 0 then cell else 0)
    else (if cell > 0 then 0 else -cell)
  }

  /** Checkers of colour `c` over a run of cells, summed front to back. */
  function CheckersOnPoints(s: seq<int>, c: CheckerColor): (n: int)
    ensures n >= 0
  {
    if |s| == 0 then 0 else CheckersOnPoints(s[..|s| - 1], c) + Owned(s[|s| - 1], c)
  }

  /** All checkers of colour `c`: on the points, on the bar and borne off. */
  function CheckerTotal(b: GameBoardState, c: CheckerColor): int {
    CheckersOnBar(b, c) + CheckersOnTarget(b, c) + CheckersOnPoints(b.mainBoard, c)
  }

  /** The 15-checkers-per-colour invariant. The public constructor's check
      (`PassesCheckerCount`) equals it when the totals fit 32 bits. */
  predicate HasAllCheckers(b: GameBoardState) {
    CheckerTotal(b, White) == NumberOfCheckersPerPlayer &&
    CheckerTotal(b, Black) == NumberOfCheckersPerPlayer
  }

  // ---------------------------------------------------------------------
  // 32-bit arithmetic of the counting loop
  // ---------------------------------------------------------------------

  const Int32Modulus := 0x1_0000_0000

  /** `x` reduced into the range of a 32-bit signed integer, as unchecked
      32-bit addition and multiplication leave it. */
  function WrapInt32(x: int): (r: int)
    ensures -0x8000_0000 <= r < 0x8000_0000
    ensures -0x8000_0000 <= x < 0x8000_0000 ==> r == x
  {
    (x + 0x8000_0000) % Int32Modulus - 0x8000_0000
  }

  /** Wrapping an intermediate sum does not change the wrapped result. */
  lemma WrapInt32Add(x: int, y: int)
    ensures WrapInt32(WrapInt32(x) + y) == WrapInt32(x + y)
  {
  }

  /** What the validating constructor accepts: each colour's total, computed
      in 32-bit arithmetic, is 15. */
  predicate PassesCheckerCount(b: GameBoardState) {
    WrapInt32(CheckerTotal(b, White)) == NumberOfCheckersPerPlayer &&
    WrapInt32(CheckerTotal(b, Black)) == NumberOfCheckersPerPlayer
  }

  /** Both totals fit a 32-bit integer, so the constructor's sums do not wrap. */
  predicate TotalsFitInt32(b: GameBoardState) {
    -0x8000_0000 <= CheckerTotal(b, White) < 0x8000_0000 &&
    -0x8000_0000 <= CheckerTotal(b, Black) < 0x8000_0000
  }

  /** The counting loop of the public constructor, in 32-bit arithmetic. */
  method CountCheckers(mainBoard: seq<int>, whiteCheckersOnBar: int, whiteCheckersOnTarget: int,
                       blackCheckersOnBar: int, blackCheckersOnTarget: int)
    returns (numberOfWhiteCheckers: int, numberOfBlackCheckers: int)
    ensures numberOfWhiteCheckers ==
            WrapInt32(whiteCheckersOnBar + whiteCheckersOnTarget + CheckersOnPoints(mainBoard, White))
    ensures numberOfBlackCheckers ==
            WrapInt32(blackCheckersOnBar + blackCheckersOnTarget + CheckersOnPoints(mainBoard, Black))
  {
    numberOfWhiteCheckers := WrapInt32(whiteCheckersOnBar + whiteCheckersOnTarget);
    numberOfBlackCheckers := WrapInt32(blackCheckersOnBar + blackCheckersOnTarget);
    for k := 0 to |mainBoard|
      invariant numberOfWhiteCheckers ==
                WrapInt32(whiteCheckersOnBar + whiteCheckersOnTarget + CheckersOnPoints(mainBoard[..k], White))
      invariant numberOfBlackCheckers ==
                WrapInt32(blackCheckersOnBar + blackCheckersOnTarget + CheckersOnPoints(mainBoard[..k], Black))
    {
      var i := mainBoard[k];
      assert mainBoard[..k + 1][..k] == mainBoard[..k];
      if i > 0 {
        WrapInt32Add(whiteCheckersOnBar + whiteCheckersOnTarget + CheckersOnPoints(mainBoard[..k], White), i);
        numberOfWhiteCheckers := WrapInt32(numberOfWhiteCheckers + i);
      } else {
        var t := blackCheckersOnBar + blackCheckersOnTarget + CheckersOnPoints(mainBoard[..k], Black);
        WrapInt32Add(t, -1 * i);
        WrapInt32Add(-1 * i, WrapInt32(t));
        numberOfBlackCheckers := WrapInt32(numberOfBlackCheckers + WrapInt32(-1 * i));
      }
    }
    assert mainBoard[..|mainBoard|] == mainBoard;
  }

  /** The public, validating constructor: it fails unless each colour's
      total on the points, the bar and the bear-off tray, summed in 32-bit
      arithmetic, is 15. When the totals fit 32 bits that is exactly the
      15-checkers invariant; a valid position is always accepted. */
  method NewGameBoardState(mainBoard: seq<int>, whiteCheckersOnBar: int, whiteCheckersOnTarget: int,
                           blackCheckersOnBar: int, blackCheckersOnTarget: int)
    returns (r: Result<GameBoardState, BoardError>)
    ensures r.Ok? <==>
            PassesCheckerCount(GameBoardState(mainBoard, whiteCheckersOnBar, whiteCheckersOnTarget,
                                              blackCheckersOnBar, blackCheckersOnTarget))
    ensures (HasAllCheckers(GameBoardState(mainBoard, whiteCheckersOnBar, whiteCheckersOnTarget,
                                           blackCheckersOnBar, blackCheckersOnTarget))) ==> r.Ok?
    ensures (TotalsFitInt32(GameBoardState(mainBoard, whiteCheckersOnBar, whiteCheckersOnTarget,
                                           blackCheckersOnBar, blackCheckersOnTarget))) ==>
            (r.Ok? <==> HasAllCheckers(GameBoardState(mainBoard, whiteCheckersOnBar, whiteCheckersOnTarget,
                                                      blackCheckersOnBar, blackCheckersOnTarget)))
    ensures r.Ok? ==> r.value == GameBoardState(mainBoard, whiteCheckersOnBar, whiteCheckersOnTarget,
                                                blackCheckersOnBar, blackCheckersOnTarget)
    ensures r.Err? ==>
            r.error == WrongNumberOfCheckers(
              WrapInt32(whiteCheckersOnBar + whiteCheckersOnTarget + CheckersOnPoints(mainBoard, White)),
              WrapInt32(blackCheckersOnBar + blackCheckersOnTarget + CheckersOnPoints(mainBoard, Black)))
  {
    var white, black := CountCheckers(mainBoard, whiteCheckersOnBar, whiteCheckersOnTarget,
                                      blackCheckersOnBar, blackCheckersOnTarget);
    if white != NumberOfCheckersPerPlayer || black != NumberOfCheckersPerPlayer {
      return Err(WrongNumberOfCheckers(white, black));
    }
    return Ok(GameBoardState(mainBoard, whiteCheckersOnBar, whiteCheckersOnTarget,
                             blackCheckersOnBar, blackCheckersOnTarget));
  }

  /** The constructor's check can be passed by totals that wrap: 2^31-1
      White checkers on the bar and as many borne off, plus 17 on a point,
      sum to 15 in 32-bit arithmetic. */
  lemma WrappedTotalsPassCheck()
    ensures var b := GameBoardState([17, -15], 0x7fff_ffff, 0x7fff_ffff, 0, 0);
            PassesCheckerCount(b) && !HasAllCheckers(b)
  {
    var b := GameBoardState([17, -15], 0x7fff_ffff, 0x7fff_ffff, 0, 0);
    assert [17, -15][..1] == [17];
    assert CheckersOnPoints(b.mainBoard, White) == 17;
    assert CheckersOnPoints(b.mainBoard, Black) == 15;
  }

  // ---------------------------------------------------------------------
  // Queries used for bear-off gating
  // ---------------------------------------------------------------------

  function Max(a: int, b: int): int { if a < b then b else a }

  /** Checkers of `color` on a point (positions are 1-based). */
  function NumberOfCheckersOnPosition(b: GameBoardState, color: CheckerColor, position: int): (n: int)
    requires 1 <= position <= |b.mainBoard|
    ensures n >= 0
    ensures color == White && b.mainBoard[position - 1] > 0 ==> n == b.mainBoard[position - 1]
    ensures color == Black && b.mainBoard[position - 1] < 0 ==> n == -b.mainBoard[position - 1]
    ensures ((color == White && b.mainBoard[position - 1] <= 0) ||
             (color == Black && b.mainBoard[position - 1] >= 0)) ==> n == 0
    ensures n == Owned(b.mainBoard[position - 1], color)
  {
    var checkers := if color == Black then -1 * b.mainBoard[position - 1] else b.mainBoard[position - 1];
    Max(checkers, 0)
  }

  /** Checkers of `c` on positions `first..last` (empty when first > last). */
  function CheckersInRange(b: GameBoardState, c: CheckerColor, first: int, last: int): (n: int)
    requires first > last || (1 <= first && last <= |b.mainBoard|)
    ensures n >= 0
    decreases last - first
  {
    if first > last then 0
    else CheckersInRange(b, c, first, last - 1) + NumberOfCheckersOnPosition(b, c, last)
  }

  /** Checkers of `c` in its home board plus those already borne off. */
  function HomeBoardCount(b: GameBoardState, c: CheckerColor): int
    requires HomeBoardLast(c) <= |b.mainBoard|
  {
    CheckersInRange(b, c, HomeBoardFirst(c), HomeBoardLast(c)) + CheckersOnTarget(b, c)
  }

  method NumberOfCheckersInHomeBoard(b: GameBoardState, color: CheckerColor) returns (sum: int)
    requires HomeBoardLast(color) <= |b.mainBoard|
    ensures sum == HomeBoardCount(b, color)
  {
    sum := 0;
    var first, last := HomeBoardFirst(color), HomeBoardLast(color);
    var i := first;
    while i <= last
      invariant first <= i <= last + 1
      invariant sum == CheckersInRange(b, color, first, i - 1)
    {
      sum := sum + NumberOfCheckersOnPosition(b, color, i);
      i := i + 1;
    }
    sum := sum + CheckersOnTarget(b, color);
  }

  /** Checkers of `color` in its home board strictly further from bearing off
      than `position`: White's points position+1..6, Black's 19..position-1.
      The requires clauses are exactly the array bounds the loops touch. */
  method NumberOfCheckersInHomeBoardFurtherAwayFromBar(b: GameBoardState, color: CheckerColor, position: int)
    returns (sum: int)
    requires color == White ==> position >= 6 || (0 <= position && 6 <= |b.mainBoard|)
    requires color == Black ==> position <= 19 || position - 1 <= |b.mainBoard|
    ensures color == White ==> sum == CheckersInRange(b, White, position + 1, 6)
    ensures color == Black ==> sum == CheckersInRange(b, Black, 19, position - 1)
    ensures (color == White && position >= 6) || (color == Black && position <= 19) ==> sum == 0
  {
    sum := 0;
    if color == White {
      var i := 6;
      while i > position
        invariant i <= 6 && (i >= position || i == 6)
        invariant sum == CheckersInRange(b, White, i + 1, 6)
      {
        CheckersInRangeSplit(b, White, i, i, 6);
        sum := sum + NumberOfCheckersOnPosition(b, White, i);
        i := i - 1;
      }
    } else {
      var i := 19;
      while i < position
        invariant 19 <= i && (i <= position || i == 19)
        invariant sum == CheckersInRange(b, Black, 19, i - 1)
      {
        sum := sum + NumberOfCheckersOnPosition(b, Black, i);
        i := i + 1;
      }
    }
  }

  // ---------------------------------------------------------------------
  // Lemmas about the counting queries
  // ---------------------------------------------------------------------

  /** A range sum splits at any point inside it. */
  lemma {:induction false} CheckersInRangeSplit(b: GameBoardState, c: CheckerColor, first: int, mid: int, last: int)
    requires 1 <= first && first - 1 <= mid <= last <= |b.mainBoard|
    ensures CheckersInRange(b, c, first, last) ==
            CheckersInRange(b, c, first, mid) + CheckersInRange(b, c, mid + 1, last)
    decreases last - mid
  {
    if last > mid {
      CheckersInRangeSplit(b, c, first, mid, last - 1);
    }
  }

  /** A range holds no checker of `c` exactly when each of its points holds none. */
  lemma {:induction false} CheckersInRangeZero(b: GameBoardState, c: CheckerColor, first: int, last: int)
    requires first > last || (1 <= first && last <= |b.mainBoard|)
    ensures CheckersInRange(b, c, first, last) == 0 <==>
            forall p :: first <= p <= last ==> NumberOfCheckersOnPosition(b, c, p) == 0
    decreases last - first
  {
    if first <= last {
      CheckersInRangeZero(b, c, first, last - 1);
    }
  }

  /** The constructor's front-to-back count over the first k cells is the
      per-position count over positions 1..k. */
  lemma {:induction false} CheckersOnPointsIsRange(b: GameBoardState, c: CheckerColor, k: int)
    requires 0 <= k <= |b.mainBoard|
    ensures CheckersOnPoints(b.mainBoard[..k], c) == CheckersInRange(b, c, 1, k)
  {
    if k > 0 {
      assert b.mainBoard[..k][..k - 1] == b.mainBoard[..k - 1];
      CheckersOnPointsIsRange(b, c, k - 1);
    }
  }

  /** On a full board, the checkers of `c` on the points, split into the home
      board and the two stretches outside it. */
  lemma HomeAndOutside(b: GameBoardState, c: CheckerColor)
    requires |b.mainBoard| == NumberOfPositionsOnBoard
    ensures CheckersOnPoints(b.mainBoard, c) ==
            CheckersInRange(b, c, 1, HomeBoardFirst(c) - 1) +
            CheckersInRange(b, c, HomeBoardFirst(c), HomeBoardLast(c)) +
            CheckersInRange(b, c, HomeBoardLast(c) + 1, 24)
  {
    assert b.mainBoard[..24] == b.mainBoard;
    CheckersOnPointsIsRange(b, c, 24);
    var first, last := HomeBoardFirst(c), HomeBoardLast(c);
    CheckersInRangeSplit(b, c, 1, last, 24);
    CheckersInRangeSplit(b, c, 1, first - 1, last);
  }

  /** Under the 15-checker invariant (and a bar count that is not negative),
      the home-board count never exceeds 15. */
  lemma HomeBoardAtMostFifteen(b: GameBoardState, c: CheckerColor)
    requires |b.mainBoard| == NumberOfPositionsOnBoard && HasAllCheckers(b)
    requires CheckersOnBar(b, c) >= 0
    ensures HomeBoardCount(b, c) <= NumberOfCheckersPerPlayer
  {
    HomeAndOutside(b, c);
  }

  /** The bear-off gate: the home-board count is 15 exactly when the colour
      has nothing on the bar and no checker on a point outside its home board. */
  lemma HomeBoardFullIff(b: GameBoardState, c: CheckerColor)
    requires |b.mainBoard| == NumberOfPositionsOnBoard && HasAllCheckers(b)
    requires CheckersOnBar(b, c) >= 0
    ensures HomeBoardCount(b, c) == NumberOfCheckersPerPlayer <==>
            CheckersOnBar(b, c) == 0 &&
            forall p :: 1 <= p <= 24 && (p < HomeBoardFirst(c) || p > HomeBoardLast(c)) ==>
                          NumberOfCheckersOnPosition(b, c, p) == 0
  {
    HomeAndOutside(b, c);
    CheckersInRangeZero(b, c, 1, HomeBoardFirst(c) - 1);
    CheckersInRangeZero(b, c, HomeBoardLast(c) + 1, 24);
  }

  /** The overshoot gate: nothing further away from bearing off than
      `position` means no checker on any of those home-board points. */
  lemma NothingFurtherAwayIff(b: GameBoardState, c: CheckerColor, position: int)
    requires |b.mainBoard| == NumberOfPositionsOnBoard && 0 <= position <= 25
    ensures c == White ==>
            (CheckersInRange(b, White, position + 1, 6) == 0 <==>
             forall p :: position < p <= 6 ==> NumberOfCheckersOnPosition(b, White, p) == 0)
    ensures c == Black ==>
            (CheckersInRange(b, Black, 19, position - 1) == 0 <==>
             forall p :: 19 <= p < position ==> NumberOfCheckersOnPosition(b, Black, p) == 0)
  {
    if c == White {
      CheckersInRangeZero(b, White, position + 1, 6);
    } else {
      CheckersInRangeZero(b, Black, 19, position - 1);
    }
  }

  // ---------------------------------------------------------------------
  // Transforms: each returns a new position and never re-validates
  // ---------------------------------------------------------------------

  /** Bar and borne-off counts of both colours are those of `b`. */
  predicate CountersOf(r: GameBoardState, b: GameBoardState) {
    r.whiteCheckersOnBar == b.whiteCheckersOnBar && r.blackCheckersOnBar == b.blackCheckersOnBar &&
    r.whiteCheckersOnTarget == b.whiteCheckersOnTarget && r.blackCheckersOnTarget == b.blackCheckersOnTarget
  }

  /** The unchecked private constructor applied to new points. */
  function WherePositionsAre(b: GameBoardState, positions: seq<int>): (r: GameBoardState)
    ensures r.mainBoard == positions && CountersOf(r, b)
  {
    GameBoardState(positions, b.whiteCheckersOnBar, b.whiteCheckersOnTarget,
                   b.blackCheckersOnBar, b.blackCheckersOnTarget)
  }

  function WithCheckersOnBar(b: GameBoardState, color: CheckerColor, number: int): (r: GameBoardState)
    ensures r.mainBoard == b.mainBoard
    ensures CheckersOnBar(r, color) == number
    ensures CheckersOnBar(r, OppositeColor(color)) == CheckersOnBar(b, OppositeColor(color))
    ensures r.whiteCheckersOnTarget == b.whiteCheckersOnTarget && r.blackCheckersOnTarget == b.blackCheckersOnTarget
  {
    var updatedWhiteCheckers := if color == White then number else b.whiteCheckersOnBar;
    var updatedBlackCheckers := if color == Black then number else b.blackCheckersOnBar;
    GameBoardState(b.mainBoard, updatedWhiteCheckers, b.whiteCheckersOnTarget,
                   updatedBlackCheckers, b.blackCheckersOnTarget)
  }

  function WithCheckersOnBearOffPosition(b: GameBoardState, color: CheckerColor, number: int): (r: GameBoardState)
    ensures r.mainBoard == b.mainBoard
    ensures CheckersOnTarget(r, color) == number
    ensures CheckersOnTarget(r, OppositeColor(color)) == CheckersOnTarget(b, OppositeColor(color))
    ensures r.whiteCheckersOnBar == b.whiteCheckersOnBar && r.blackCheckersOnBar == b.blackCheckersOnBar
  {
    var updatedWhiteCheckers := if color == White then number else b.whiteCheckersOnTarget;
    var updatedBlackCheckers := if color == Black then number else b.blackCheckersOnTarget;
    GameBoardState(b.mainBoard, b.whiteCheckersOnBar, updatedWhiteCheckers,
                   b.blackCheckersOnBar, updatedBlackCheckers)
  }

  /** Adds one checker of `color` to a point: only that cell changes, by +1
      for White and -1 for Black. */
  function WhereCheckerIsAddedToPosition(b: GameBoardState, color: CheckerColor, position: int): (r: GameBoardState)
    requires 1 <= position <= |b.mainBoard|
    ensures |r.mainBoard| == |b.mainBoard| && CountersOf(r, b)
    ensures r.mainBoard[position - 1] == b.mainBoard[position - 1] + Unit(color)
    ensures forall i :: 0 <= i < |b.mainBoard| && i != position - 1 ==> r.mainBoard[i] == b.mainBoard[i]
    ensures NumberOfCheckersOnPosition(b, OppositeColor(color), position) == 0 ==>
            NumberOfCheckersOnPosition(r, color, position) == NumberOfCheckersOnPosition(b, color, position) + 1
  {
    var boardCopy := b.mainBoard;
    WherePositionsAre(b, boardCopy[position - 1 := boardCopy[position - 1] + Unit(color)])
  }

  /** Removes one checker of `color` from a point: only that cell changes, by
      -1 for White and +1 for Black. */
  function WhereCheckerIsRemovedFromPosition(b: GameBoardState, color: CheckerColor, position: int): (r: GameBoardState)
    requires 1 <= position <= |b.mainBoard|
    ensures |r.mainBoard| == |b.mainBoard| && CountersOf(r, b)
    ensures r.mainBoard[position - 1] == b.mainBoard[position - 1] - Unit(color)
    ensures forall i :: 0 <= i < |b.mainBoard| && i != position - 1 ==> r.mainBoard[i] == b.mainBoard[i]
    ensures NumberOfCheckersOnPosition(b, color, position) >= 1 ==>
            NumberOfCheckersOnPosition(r, color, position) == NumberOfCheckersOnPosition(b, color, position) - 1
  {
    var boardCopy := b.mainBoard;
    WherePositionsAre(b, boardCopy[position - 1 := boardCopy[position - 1] - Unit(color)])
  }

  function WhereCheckerIsRemovedFromBar(b: GameBoardState, color: CheckerColor): (r: GameBoardState)
    ensures r.mainBoard == b.mainBoard
    ensures CheckersOnBar(r, color) == CheckersOnBar(b, color) - 1
    ensures CheckersOnBar(r, OppositeColor(color)) == CheckersOnBar(b, OppositeColor(color))
    ensures r.whiteCheckersOnTarget == b.whiteCheckersOnTarget && r.blackCheckersOnTarget == b.blackCheckersOnTarget
    ensures CheckerTotal(r, color) == CheckerTotal(b, color) - 1
    ensures CheckerTotal(r, OppositeColor(color)) == CheckerTotal(b, OppositeColor(color))
  {
    WithCheckersOnBar(b, color, CheckersOnBar(b, color) - 1)
  }

  function WhereCheckerIsAddedToBar(b: GameBoardState, color: CheckerColor): (r: GameBoardState)
    ensures r.mainBoard == b.mainBoard
    ensures CheckersOnBar(r, color) == CheckersOnBar(b, color) + 1
    ensures CheckersOnBar(r, OppositeColor(color)) == CheckersOnBar(b, OppositeColor(color))
    ensures r.whiteCheckersOnTarget == b.whiteCheckersOnTarget && r.blackCheckersOnTarget == b.blackCheckersOnTarget
    ensures CheckerTotal(r, color) == CheckerTotal(b, color) + 1
    ensures CheckerTotal(r, OppositeColor(color)) == CheckerTotal(b, OppositeColor(color))
  {
    WithCheckersOnBar(b, color, CheckersOnBar(b, color) + 1)
  }

  function WhereCheckerIsAddedToTarget(b: GameBoardState, color: CheckerColor): (r: GameBoardState)
    ensures r.mainBoard == b.mainBoard
    ensures CheckersOnTarget(r, color) == CheckersOnTarget(b, color) + 1
    ensures CheckersOnTarget(r, OppositeColor(color)) == CheckersOnTarget(b, OppositeColor(color))
    ensures r.whiteCheckersOnBar == b.whiteCheckersOnBar && r.blackCheckersOnBar == b.blackCheckersOnBar
    ensures CheckerTotal(r, color) == CheckerTotal(b, color) + 1
    ensures CheckerTotal(r, OppositeColor(color)) == CheckerTotal(b, OppositeColor(color))
  {
    WithCheckersOnBearOffPosition(b, color, CheckersOnTarget(b, color) + 1)
  }

  // ---------------------------------------------------------------------
  // Lemmas about the transforms
  // ---------------------------------------------------------------------

  /** Adding then removing a checker of the same colour on the same point
      gives back the original position, and so does the reverse order. */
  lemma AddRemoveRoundTrip(b: GameBoardState, color: CheckerColor, position: int)
    requires 1 <= position <= |b.mainBoard|
    ensures WhereCheckerIsRemovedFromPosition(WhereCheckerIsAddedToPosition(b, color, position), color, position) == b
    ensures WhereCheckerIsAddedToPosition(WhereCheckerIsRemovedFromPosition(b, color, position), color, position) == b
  {
    var r1 := WhereCheckerIsRemovedFromPosition(WhereCheckerIsAddedToPosition(b, color, position), color, position);
    var r2 := WhereCheckerIsAddedToPosition(WhereCheckerIsRemovedFromPosition(b, color, position), color, position);
    assert r1.mainBoard == b.mainBoard;
    assert r2.mainBoard == b.mainBoard;
  }

  /** Changing one cell changes the colour's point count by what that cell
      counted before and after. */
  lemma {:induction false} CheckersOnPointsUpdate(s: seq<int>, k: int, v: int, c: CheckerColor)
    requires 0 <= k < |s|
    ensures CheckersOnPoints(s[k := v], c) == CheckersOnPoints(s, c) - Owned(s[k], c) + Owned(v, c)
  {
    var t := s[k := v];
    if k == |s| - 1 {
      assert t[..|t| - 1] == s[..|s| - 1];
    } else {
      assert t[..|t| - 1] == s[..|s| - 1][k := v];
      CheckersOnPointsUpdate(s[..|s| - 1], k, v, c);
    }
  }

  /** Adding a checker to a point the opponent does not hold adds one to the
      mover's total and leaves the opponent's total alone. */
  lemma AddedToPositionTotals(b: GameBoardState, color: CheckerColor, position: int)
    requires 1 <= position <= |b.mainBoard|
    requires NumberOfCheckersOnPosition(b, OppositeColor(color), position) == 0
    ensures CheckerTotal(WhereCheckerIsAddedToPosition(b, color, position), color) == CheckerTotal(b, color) + 1
    ensures CheckerTotal(WhereCheckerIsAddedToPosition(b, color, position), OppositeColor(color)) ==
            CheckerTotal(b, OppositeColor(color))
  {
    var s := b.mainBoard;
    var v := s[position - 1] + Unit(color);
    CheckersOnPointsUpdate(s, position - 1, v, color);
    CheckersOnPointsUpdate(s, position - 1, v, OppositeColor(color));
  }

  /** Removing a checker from a point the mover holds takes one from the
      mover's total and leaves the opponent's total alone. */
  lemma RemovedFromPositionTotals(b: GameBoardState, color: CheckerColor, position: int)
    requires 1 <= position <= |b.mainBoard|
    requires NumberOfCheckersOnPosition(b, color, position) >= 1
    ensures CheckerTotal(WhereCheckerIsRemovedFromPosition(b, color, position), color) == CheckerTotal(b, color) - 1
    ensures CheckerTotal(WhereCheckerIsRemovedFromPosition(b, color, position), OppositeColor(color)) ==
            CheckerTotal(b, OppositeColor(color))
  {
    var s := b.mainBoard;
    var v := s[position - 1] - Unit(color);
    CheckersOnPointsUpdate(s, position - 1, v, color);
    CheckersOnPointsUpdate(s, position - 1, v, OppositeColor(color));
  }

  /** Both colours keep their totals. */
  predicate SameTotals(r: GameBoardState, b: GameBoardState) {
    CheckerTotal(r, White) == CheckerTotal(b, White) && CheckerTotal(r, Black) == CheckerTotal(b, Black)
  }

  /** A point-to-point move: remove from the source, add to a target the
      opponent does not hold. */
  lemma MovePreservesTotals(b: GameBoardState, color: CheckerColor, from: int, to: int)
    requires 1 <= from <= |b.mainBoard| && 1 <= to <= |b.mainBoard|
    requires NumberOfCheckersOnPosition(b, color, from) >= 1
    requires NumberOfCheckersOnPosition(b, OppositeColor(color), to) == 0
    ensures SameTotals(WhereCheckerIsAddedToPosition(WhereCheckerIsRemovedFromPosition(b, color, from), color, to), b)
    ensures HasAllCheckers(b) ==>
            HasAllCheckers(WhereCheckerIsAddedToPosition(WhereCheckerIsRemovedFromPosition(b, color, from), color, to))
  {
    var mid := WhereCheckerIsRemovedFromPosition(b, color, from);
    RemovedFromPositionTotals(b, color, from);
    assert NumberOfCheckersOnPosition(mid, OppositeColor(color), to) == 0;
    AddedToPositionTotals(mid, color, to);
  }

  /** Re-entry from the bar: take one off the bar, add it to a target the
      opponent does not hold. */
  lemma EnterFromBarPreservesTotals(b: GameBoardState, color: CheckerColor, to: int)
    requires 1 <= to <= |b.mainBoard|
    requires NumberOfCheckersOnPosition(b, OppositeColor(color), to) == 0
    ensures SameTotals(WhereCheckerIsAddedToPosition(WhereCheckerIsRemovedFromBar(b, color), color, to), b)
    ensures HasAllCheckers(b) ==>
            HasAllCheckers(WhereCheckerIsAddedToPosition(WhereCheckerIsRemovedFromBar(b, color), color, to))
  {
    var mid := WhereCheckerIsRemovedFromBar(b, color);
    AddedToPositionTotals(mid, color, to);
  }

  /** Bearing off: remove from the source point, add to the colour's target. */
  lemma BearOffPreservesTotals(b: GameBoardState, color: CheckerColor, from: int)
    requires 1 <= from <= |b.mainBoard|
    requires NumberOfCheckersOnPosition(b, color, from) >= 1
    ensures SameTotals(WhereCheckerIsAddedToTarget(WhereCheckerIsRemovedFromPosition(b, color, from), color), b)
    ensures HasAllCheckers(b) ==>
            HasAllCheckers(WhereCheckerIsAddedToTarget(WhereCheckerIsRemovedFromPosition(b, color, from), color))
  {
    RemovedFromPositionTotals(b, color, from);
  }

  /** A hit: the lone opponent checker on the target goes to its bar, then
      the mover's checker goes from the source to the target. Totals are
      kept, the target ends with exactly one checker of the mover and the
      opponent's bar count grows by one. */
  lemma HitPreservesTotals(b: GameBoardState, color: CheckerColor, from: int, to: int)
    requires 1 <= from <= |b.mainBoard| && 1 <= to <= |b.mainBoard| && from != to
    requires NumberOfCheckersOnPosition(b, color, from) >= 1
    requires NumberOfCheckersOnPosition(b, OppositeColor(color), to) == 1
    ensures var hit := WhereCheckerIsAddedToBar(
                         WhereCheckerIsRemovedFromPosition(b, OppositeColor(color), to), OppositeColor(color));
            var r := WhereCheckerIsAddedToPosition(WhereCheckerIsRemovedFromPosition(hit, color, from), color, to);
            SameTotals(r, b) &&
            NumberOfCheckersOnPosition(r, color, to) == 1 &&
            NumberOfCheckersOnPosition(r, OppositeColor(color), to) == 0 &&
            CheckersOnBar(r, OppositeColor(color)) == CheckersOnBar(b, OppositeColor(color)) + 1
  {
    var opp := OppositeColor(color);
    var removed := WhereCheckerIsRemovedFromPosition(b, opp, to);
    RemovedFromPositionTotals(b, opp, to);
    assert OppositeColor(opp) == color;
    var hit := WhereCheckerIsAddedToBar(removed, opp);
    assert removed.mainBoard[to - 1] == 0;
    MovePreservesTotals(hit, color, from, to);
  }
}
