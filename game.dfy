/**
  The turn state machine of a backgammon game (ModelDLL/BackgammonGame.cs).

  A game holds the current position, the colour to move, the dice values
  still to be played this turn and a debugging move counter. The legality
  calculators it consults are not part of this model: they are bundled as
  function values in a `MovesCalculator` the game is created with, and the
  contracts below say only how the game reacts to their answers. The random
  dice are a scripted sequence of future rolls; every reroll consumes one.
*/
module Backgammon {
  import opened Wrappers
  import opened Board

  const DefaultGameBoard: seq<int> :=
    [-2, 0, 0, 0,  0,  5,
      0, 3, 0, 0,  0, -5,
      5, 0, 0, 0, -3,  0,
     -5, 0, 0, 0,  0,  2]

  const MaxMoveDistanceAccepted := 6

  type DieValue = d: int | 1 <= d <= 6 witness 1

  /** One roll of the two dice. */
  datatype Roll = Roll(first: DieValue, second: DieValue)

  /** A single checker move, as recorded in a final-state node. */
  datatype Move = Move(from: int, distance: int)

  /** A position together with the dice values left after a move. */
  datatype MoveState = MoveState(state: GameBoardState, movesLeft: seq<int>)

  /** A reachable final state of a turn and the moves that lead to it. */
  datatype Node = Node(state: GameBoardState, movesMade: seq<Move>)

  /** The legality oracles: whether a checker of a colour may go from one
      position to another with the dice left, the position and dice after
      such a move, and the positions from which a checker can move at all. */
  datatype MovesCalculator = MovesCalculator(
    legalToMoveToPosition: (GameBoardState, CheckerColor, int, seq<int>, int) -> bool,
    moveToPosition: (GameBoardState, CheckerColor, int, seq<int>, int) -> MoveState,
    moveableCheckers: (GameBoardState, CheckerColor, seq<int>) -> set<int>)

  datatype MoveError = WrongTurn | IllegalMove

  /** Either the move was taken, or it was refused with the exception the
      original program throws. */
  datatype Outcome = Accepted | Rejected(error: MoveError)

  // ---------------------------------------------------------------------
  // The default position
  // ---------------------------------------------------------------------

  /** Cells laid out as the default board hold 15 checkers of each colour.
      The layout is taken cell by cell as a precondition so that the count
      does not unfold the board literal. */
  lemma StartingLayoutHasAllCheckers(cells: seq<int>)
    requires |cells| == NumberOfPositionsOnBoard
    requires cells[0] == -2 && cells[1] == 0 && cells[2] == 0 && cells[3] == 0 && cells[4] == 0 && cells[5] == 5
    requires cells[6] == 0 && cells[7] == 3 && cells[8] == 0 && cells[9] == 0 && cells[10] == 0 && cells[11] == -5
    requires cells[12] == 5 && cells[13] == 0 && cells[14] == 0 && cells[15] == 0 && cells[16] == -3 && cells[17] == 0
    requires cells[18] == -5 && cells[19] == 0 && cells[20] == 0 && cells[21] == 0 && cells[22] == 0 && cells[23] == 2
    ensures HasAllCheckers(GameBoardState(cells, 0, 0, 0, 0))
  {
    var b := GameBoardState(cells, 0, 0, 0, 0);
    assert CheckersInRange(b, White, 1, 2) == 0 && CheckersInRange(b, Black, 1, 2) == 2;
    assert CheckersInRange(b, White, 1, 4) == 0 && CheckersInRange(b, Black, 1, 4) == 2;
    assert CheckersInRange(b, White, 1, 6) == 5 && CheckersInRange(b, Black, 1, 6) == 2;
    assert CheckersInRange(b, White, 1, 8) == 8 && CheckersInRange(b, Black, 1, 8) == 2;
    assert CheckersInRange(b, White, 1, 10) == 8 && CheckersInRange(b, Black, 1, 10) == 2;
    assert CheckersInRange(b, White, 1, 12) == 8 && CheckersInRange(b, Black, 1, 12) == 7;
    assert CheckersInRange(b, White, 1, 14) == 13 && CheckersInRange(b, Black, 1, 14) == 7;
    assert CheckersInRange(b, White, 1, 16) == 13 && CheckersInRange(b, Black, 1, 16) == 7;
    assert CheckersInRange(b, White, 1, 18) == 13 && CheckersInRange(b, Black, 1, 18) == 10;
    assert CheckersInRange(b, White, 1, 20) == 13 && CheckersInRange(b, Black, 1, 20) == 15;
    assert CheckersInRange(b, White, 1, 22) == 13 && CheckersInRange(b, Black, 1, 22) == 15;
    assert cells[..24] == b.mainBoard;
    CheckersOnPointsIsRange(b, White, 24);
    CheckersOnPointsIsRange(b, Black, 24);
  }

  /** The validating constructor accepts the default position with nothing on
      the bar or borne off. */
  lemma DefaultGameBoardIsValid()
    ensures |DefaultGameBoard| == NumberOfPositionsOnBoard
    ensures HasAllCheckers(GameBoardState(DefaultGameBoard, 0, 0, 0, 0))
  {
    assert DefaultGameBoard[0] == -2 && DefaultGameBoard[1] == 0 && DefaultGameBoard[2] == 0 && DefaultGameBoard[3] == 0 && DefaultGameBoard[4] == 0 && DefaultGameBoard[5] == 5;
    assert DefaultGameBoard[6] == 0 && DefaultGameBoard[7] == 3 && DefaultGameBoard[8] == 0 && DefaultGameBoard[9] == 0 && DefaultGameBoard[10] == 0 && DefaultGameBoard[11] == -5;
    assert DefaultGameBoard[12] == 5 && DefaultGameBoard[13] == 0 && DefaultGameBoard[14] == 0 && DefaultGameBoard[15] == 0 && DefaultGameBoard[16] == -3 && DefaultGameBoard[17] == 0;
    assert DefaultGameBoard[18] == -5 && DefaultGameBoard[19] == 0 && DefaultGameBoard[20] == 0 && DefaultGameBoard[21] == 0 && DefaultGameBoard[22] == 0 && DefaultGameBoard[23] == 2;
    StartingLayoutHasAllCheckers(DefaultGameBoard);
  }

  // ---------------------------------------------------------------------
  // Dice allotment
  // ---------------------------------------------------------------------

  /** The dice values a roll allots to a turn: four of the value on a double,
      otherwise the two values. */
  function MovesFor(roll: Roll): (moves: seq<int>)
    ensures roll.first == roll.second ==> |moves| == 4 && forall i :: 0 <= i < 4 ==> moves[i] == roll.first
    ensures roll.first != roll.second ==> moves == [roll.first, roll.second]
    ensures forall m :: m in moves ==> 1 <= m <= MaxMoveDistanceAccepted
  {
    if roll.first == roll.second then [roll.first, roll.first, roll.first, roll.first]
    else [roll.first, roll.second]
  }

  // ---------------------------------------------------------------------
  // Turn changes
  // ---------------------------------------------------------------------

  /** Whose turn it is, the dice values left, and the rolls still to come. */
  datatype TurnState = TurnState(color: CheckerColor, movesLeft: seq<int>, dice: seq<Roll>)

  /** The colour to move has a checker that can move with the dice left. */
  predicate CanMove(rules: MovesCalculator, board: GameBoardState, t: TurnState) {
    |rules.moveableCheckers(board, t.color, t.movesLeft)| > 0
  }

  /** `c` after the turn has passed `n` times. */
  function ColorAfterTurns(c: CheckerColor, n: nat): CheckerColor
    decreases n
  {
    if n == 0 then c else ColorAfterTurns(OppositeColor(c), n - 1)
  }

  /** One pass of the turn: the next roll, allotted to the other colour. */
  function Reroll(t: TurnState): TurnState
    requires |t.dice| > 0
  {
    TurnState(OppositeColor(t.color), MovesFor(t.dice[0]), t.dice[1..])
  }

  /** The turn after a change of turns: pass the turn and reroll until the
      colour to move can move, or until the scripted rolls run out. */
  function HandOver(rules: MovesCalculator, board: GameBoardState, t: TurnState): (r: TurnState)
    ensures |r.dice| <= |t.dice| && r.dice == t.dice[|t.dice| - |r.dice|..]
    ensures r.color == ColorAfterTurns(t.color, |t.dice| - |r.dice|)
    ensures |t.dice| == 0 ==> r == t
    ensures |t.dice| > 0 ==> |r.dice| < |t.dice| && r.movesLeft == MovesFor(t.dice[|t.dice| - |r.dice| - 1])
    ensures |t.dice| > 0 ==> CanMove(rules, board, r) || |r.dice| == 0
    decreases |t.dice|
  {
    if |t.dice| == 0 then t
    else
      var next := Reroll(t);
      if CanMove(rules, board, next) then next else HandOver(rules, board, next)
  }

  /** Every colour the turn passed to before the final one had no checker
      that could move with its roll. */
  lemma {:induction false} HandOverSkipsOnlyBlocked(rules: MovesCalculator, board: GameBoardState, t: TurnState, k: int)
    requires 1 <= k < |t.dice| - |HandOver(rules, board, t).dice|
    ensures !CanMove(rules, board, TurnState(ColorAfterTurns(t.color, k), MovesFor(t.dice[k - 1]), t.dice[k..]))
    decreases |t.dice|
  {
    var next := Reroll(t);
    if !CanMove(rules, board, next) {
      assert HandOver(rules, board, t) == HandOver(rules, board, next);
      if k == 1 {
        assert next == TurnState(ColorAfterTurns(t.color, 1), MovesFor(t.dice[0]), t.dice[1..]);
      } else {
        assert |next.dice| == |t.dice| - 1;
        HandOverSkipsOnlyBlocked(rules, board, next, k - 1);
        var passed := TurnState(ColorAfterTurns(next.color, k - 1), MovesFor(next.dice[k - 2]), next.dice[k - 1..]);
        assert next.dice[k - 2] == t.dice[k - 1];
        assert next.dice[k - 1..] == t.dice[k..];
        assert ColorAfterTurns(next.color, k - 1) == ColorAfterTurns(t.color, k);
        assert passed == TurnState(ColorAfterTurns(t.color, k), MovesFor(t.dice[k - 1]), t.dice[k..]);
      }
    }
  }

  /** When the very next roll lets the other colour move, the turn passes once. */
  lemma HandOverSinglePass(rules: MovesCalculator, board: GameBoardState, t: TurnState)
    requires |t.dice| > 0 && CanMove(rules, board, Reroll(t))
    ensures HandOver(rules, board, t) ==
            TurnState(OppositeColor(t.color), MovesFor(t.dice[0]), t.dice[1..])
  {
  }

  // ---------------------------------------------------------------------
  // Game over
  // ---------------------------------------------------------------------

  /** The game ends when either colour has borne off all its checkers. */
  predicate GameOver(b: GameBoardState) {
    CheckersOnTarget(b, White) == NumberOfCheckersPerPlayer ||
    CheckersOnTarget(b, Black) == NumberOfCheckersPerPlayer
  }

  /** No checker of `c` is left on the points or the bar. */
  predicate NothingLeftToPlay(b: GameBoardState, c: CheckerColor) {
    CheckersOnBar(b, c) == 0 &&
    forall p :: 1 <= p <= |b.mainBoard| ==> NumberOfCheckersOnPosition(b, c, p) == 0
  }

  /** On a position with the 15-checker invariant and no negative bar count,
      the game is over exactly when one colour has nothing left to play. */
  lemma GameOverIff(b: GameBoardState)
    requires HasAllCheckers(b)
    requires b.whiteCheckersOnBar >= 0 && b.blackCheckersOnBar >= 0
    ensures GameOver(b) <==> NothingLeftToPlay(b, White) || NothingLeftToPlay(b, Black)
  {
    assert b.mainBoard[..|b.mainBoard|] == b.mainBoard;
    CheckersOnPointsIsRange(b, White, |b.mainBoard|);
    CheckersOnPointsIsRange(b, Black, |b.mainBoard|);
    CheckersInRangeZero(b, White, 1, |b.mainBoard|);
    CheckersInRangeZero(b, Black, 1, |b.mainBoard|);
  }

  // ---------------------------------------------------------------------
  // The game
  // ---------------------------------------------------------------------

  class BackgammonGame {
    const calculator: MovesCalculator
    var turnColor: CheckerColor
    var dice: seq<Roll>
    var movesLeft: seq<int>
    var currentGameBoardState: GameBoardState
    ghost var numberOfMovesMade: int

    function Turn(): TurnState
      reads this
    {
      TurnState(turnColor, movesLeft, dice)
    }

    /** The colour whose turn it is. */
    function PlayerToMove(): (c: CheckerColor)
      reads this
      ensures c == Turn().color
    {
      turnColor
    }

    /** The points from which the colour to move can move a checker with the
        dice left, as the rules' calculator reports them. */
    function GetMoveableCheckers(): (positions: set<int>)
      reads this
      ensures positions == calculator.moveableCheckers(currentGameBoardState, turnColor, movesLeft)
      ensures |positions| > 0 <==> CanMove(calculator, currentGameBoardState, Turn())
    {
      calculator.moveableCheckers(currentGameBoardState, PlayerToMove(), movesLeft)
    }

    /** Either colour has borne off all 15 checkers. On a valid position with
        non-negative bar counts, that is the same as one colour having nothing
        left on the bar or the points. */
    function IsGameOver(): (over: bool)
      reads this
      ensures over <==> CheckersOnTarget(currentGameBoardState, White) == NumberOfCheckersPerPlayer ||
                        CheckersOnTarget(currentGameBoardState, Black) == NumberOfCheckersPerPlayer
      ensures (HasAllCheckers(currentGameBoardState) && currentGameBoardState.whiteCheckersOnBar >= 0 &&
               currentGameBoardState.blackCheckersOnBar >= 0) ==>
              (over <==> NothingLeftToPlay(currentGameBoardState, White) ||
                         NothingLeftToPlay(currentGameBoardState, Black))
    {
      var b := currentGameBoardState;
      if HasAllCheckers(b) && b.whiteCheckersOnBar >= 0 && b.blackCheckersOnBar >= 0 then
        GameOverIff(b);
        GameOver(b)
      else
        GameOver(b)
    }

    /** `initialize` on a position the validating constructor accepted: the
        first roll is allotted to the colour that starts. */
    constructor Initialize(calculator: MovesCalculator, dice: seq<Roll>, board: GameBoardState,
                           playerToMove: CheckerColor)
      requires |dice| > 0
      requires PassesCheckerCount(board)
      ensures this.calculator == calculator && currentGameBoardState == board
      ensures turnColor == playerToMove
      ensures movesLeft == MovesFor(dice[0]) && this.dice == dice[1..]
      ensures numberOfMovesMade == 0
    {
      this.calculator := calculator;
      turnColor := playerToMove;
      this.dice := dice[1..];
      movesLeft := MovesFor(dice[0]);
      currentGameBoardState := board;
      numberOfMovesMade := 0;
    }

    /** The full public constructor: fails as the position constructor does,
        unless each colour's total, summed in 32-bit arithmetic, is 15
        (`PassesCheckerCount`). */
    static method Create(gameBoard: seq<int>, calculator: MovesCalculator, dice: seq<Roll>,
                         whiteCheckersOnBar: int, whiteCheckersBoreOff: int,
                         blackCheckersOnBar: int, blackCheckersBoreOff: int,
                         playerToMove: CheckerColor)
      returns (r: Result<BackgammonGame, BoardError>)
      requires |dice| > 0
      ensures var board := GameBoardState(gameBoard, whiteCheckersOnBar, whiteCheckersBoreOff,
                                          blackCheckersOnBar, blackCheckersBoreOff);
              (r.Ok? <==> PassesCheckerCount(board)) &&
              (HasAllCheckers(board) ==> r.Ok?) &&
              (r.Ok? ==> fresh(r.value) && r.value.calculator == calculator &&
                         r.value.currentGameBoardState == board &&
                         r.value.turnColor == playerToMove &&
                         r.value.movesLeft == MovesFor(dice[0]) && r.value.dice == dice[1..] &&
                         r.value.numberOfMovesMade == 0)
    {
      var board := NewGameBoardState(gameBoard, whiteCheckersOnBar, whiteCheckersBoreOff,
                                     blackCheckersOnBar, blackCheckersBoreOff);
      if board.Err? {
        return Err(board.error);
      }
      var game := new BackgammonGame.Initialize(calculator, dice, board.value, playerToMove);
      return Ok(game);
    }

    /** The two-argument public constructor: nothing on the bar or borne
        off, and White to move. */
    static method CreateWithBoard(gameBoard: seq<int>, calculator: MovesCalculator, dice: seq<Roll>)
      returns (r: Result<BackgammonGame, BoardError>)
      requires |dice| > 0
      ensures r.Ok? <==> PassesCheckerCount(GameBoardState(gameBoard, 0, 0, 0, 0))
      ensures HasAllCheckers(GameBoardState(gameBoard, 0, 0, 0, 0)) ==> r.Ok?
      ensures r.Ok? ==> fresh(r.value) && r.value.calculator == calculator &&
                        r.value.currentGameBoardState == GameBoardState(gameBoard, 0, 0, 0, 0) &&
                        r.value.turnColor == White &&
                        r.value.movesLeft == MovesFor(dice[0]) && r.value.dice == dice[1..] &&
                        r.value.numberOfMovesMade == 0
    {
      r := Create(gameBoard, calculator, dice, 0, 0, 0, 0, White);
    }

    /** Rolls the dice and installs the allotment for the turn. */
    method RecalculateMoves()
      requires |dice| > 0
      modifies this`movesLeft, this`dice
      ensures movesLeft == MovesFor(old(dice[0])) && dice == old(dice[1..])
    {
      movesLeft := [];
      var diceValues := dice[0];
      dice := dice[1..];
      if diceValues.first == diceValues.second {
        movesLeft := [diceValues.first, diceValues.first, diceValues.first, diceValues.first];
      } else {
        movesLeft := [diceValues.first, diceValues.second];
      }
    }

    /** Passes the turn and rerolls until the colour to move can move. The
        original recursion has no bound; here each pass consumes one scripted
        roll, and the recursion stops when none is left. */
    method ChangeTurns()
      modifies this`turnColor, this`movesLeft, this`dice
      ensures Turn() == HandOver(calculator, currentGameBoardState, old(Turn()))
      decreases |dice|
    {
      if |dice| == 0 {
        return;
      }
      RecalculateMoves();
      turnColor := OppositeColor(turnColor);
      if |GetMoveableCheckers()| == 0 {
        ChangeTurns();
      }
    }

    /** Plays a single checker move for `color`. */
    method Move(color: CheckerColor, from: int, targetPosition: int) returns (outcome: Outcome)
      modifies this`turnColor, this`movesLeft, this`dice, this`currentGameBoardState, this`numberOfMovesMade
      ensures color != old(turnColor) ==> outcome == Rejected(WrongTurn) && unchanged(this)
      ensures color == old(turnColor) ==> numberOfMovesMade == old(numberOfMovesMade) + 1
      ensures color == old(turnColor) &&
              !calculator.legalToMoveToPosition(old(currentGameBoardState), color, from, old(movesLeft), targetPosition) ==>
                outcome == Rejected(IllegalMove) && Turn() == old(Turn()) &&
                currentGameBoardState == old(currentGameBoardState)
      ensures color == old(turnColor) &&
              calculator.legalToMoveToPosition(old(currentGameBoardState), color, from, old(movesLeft), targetPosition) ==>
                var ms := calculator.moveToPosition(old(currentGameBoardState), color, from, old(movesLeft), targetPosition);
                var after := TurnState(color, ms.movesLeft, old(dice));
                outcome == Accepted && currentGameBoardState == ms.state &&
                (GameOver(ms.state) ==> Turn() == after) &&
                (!GameOver(ms.state) && (|ms.movesLeft| == 0 || !CanMove(calculator, ms.state, after)) ==>
                   Turn() == HandOver(calculator, ms.state, after)) &&
                (!GameOver(ms.state) && |ms.movesLeft| > 0 && CanMove(calculator, ms.state, after) ==>
                   Turn() == after)
    {
      if color != PlayerToMove() {
        return Rejected(WrongTurn);
      }
      numberOfMovesMade := numberOfMovesMade + 1;
      if !calculator.legalToMoveToPosition(currentGameBoardState, color, from, movesLeft, targetPosition) {
        return Rejected(IllegalMove);
      }
      var resultingState := calculator.moveToPosition(currentGameBoardState, color, from, movesLeft, targetPosition);
      currentGameBoardState := resultingState.state;
      movesLeft := resultingState.movesLeft;
      if IsGameOver() {
        return Accepted;
      }
      if |movesLeft| == 0 {
        ChangeTurns();
      } else if |GetMoveableCheckers()| == 0 {
        ChangeTurns();
      }
      return Accepted;
    }

    /** Installs a whole turn at once: the node's position, with no dice left. */
    method MoveToFinalState(color: CheckerColor, finalState: Node) returns (outcome: Outcome)
      modifies this`turnColor, this`movesLeft, this`dice, this`currentGameBoardState, this`numberOfMovesMade
      ensures color != old(turnColor) ==> outcome == Rejected(WrongTurn) && unchanged(this)
      ensures color == old(turnColor) ==>
                var after := TurnState(color, [], old(dice));
                outcome == Accepted && currentGameBoardState == finalState.state &&
                numberOfMovesMade == old(numberOfMovesMade) + |finalState.movesMade| &&
                (GameOver(finalState.state) ==> Turn() == after) &&
                (!GameOver(finalState.state) ==> Turn() == HandOver(calculator, finalState.state, after))
    {
      if color != PlayerToMove() {
        return Rejected(WrongTurn);
      }
      currentGameBoardState := finalState.state;
      movesLeft := [];
      numberOfMovesMade := numberOfMovesMade + |finalState.movesMade|;
      if IsGameOver() {
        return Accepted;
      }
      ChangeTurns();
      return Accepted;
    }

    /** The dice values left this turn, as a value the caller cannot use to
        change the game's own. */
    method GetMovesLeft() returns (moves: seq<int>)
      ensures moves == movesLeft
    {
      moves := movesLeft;
    }
  }
}
