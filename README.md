# Backgammon rules model in Dafny

This project models the rules core of a C# backgammon engine. It has two parts.

- **`Board`** (`board.dfy`) models `GameBoardState`, a position that no operation of the class changes. A position has 24 signed point counts (positive for White, negative for Black). It also has a bar count and a borne-off ("target") count for each colour. The position is a datatype. The public constructor is the method `NewGameBoardState`. It returns `Err`, where the original throws, unless each colour's total, summed in 32-bit arithmetic, is 15 (`PassesCheckerCount`). `HasAllCheckers` is the 15-checkers-per-colour invariant, which the constructor's check equals when the totals fit 32 bits. Every `With…`/`Where…` transform is a pure function that returns a new position and does not re-validate it. The counting loops of the constructor and of the two home-board queries are methods with loop invariants. Each is proved against a recursive sum function (`CheckersOnPoints`, `CheckersInRange`). The composition lemmas show which pairs of transforms keep the 15-checker invariant: a move between points, re-entry from the bar, bearing off, and a hit.
- **`Backgammon`** (`game.dfy`) models `BackgammonGame`, the turn state machine. It is a class whose fields are `turnColor`, `movesLeft`, `currentGameBoardState` and the remaining dice rolls. The debugging counter `numberOfMovesMade` is a ghost field. `Move`, `MoveToFinalState`, `ChangeTurns` and `RecalculateMoves` reassign these fields. Their `ensures` clauses state the new value of every field. `ChangeTurns` is specified by the function `HandOver`, and lemmas about `HandOver` say that the turn passes until a colour can move.

`Wrappers` (`wrappers.dfy`) holds the `Result` type that stands for the constructor's exception.

Modelling decisions:

- The legality calculators (`MovesCalculator.LegalToMoveToPosition`, `MovesCalculator.MoveToPosition`, `MovesCalculator.GetMoveableCheckers`) are not part of this model. They are function values bundled in the datatype `MovesCalculator`, which a game receives when it is created. The contracts say only how the game reacts to their answers.
- Dice are a sequence of future rolls, each a pair of values in 1..6. A reroll consumes the first roll. In the original, `changeTurns` recurses without a bound. Here each recursion consumes one roll, and it stops when no roll is left. `HandOver` reports that case as a turn whose dice sequence is empty.
- The home boards are fixed as White 1–6 and Black 19–24. `OppositeColor` swaps the two colours.
- `getMainBoard` returns a copy of the array, and `GetMovesLeft` returns a copy of the list. In the model both are values, so a caller cannot change the game through them.
- `PlayerToMove`, `GetMoveableCheckers` and `IsGameOver` read the fields directly, as in the original. `IsGameOver` is characterised by the lemma `GameOverIff`.
- Behaviour of the original worth noting:
  - `initialize` (ModelDLL/BackgammonGame.cs:62-73) rolls the first allotment but does not check whether the starting colour can move.
  - A rejected `Move` (ModelDLL/BackgammonGame.cs:143-150) is not free of side effects: the move counter has already been incremented.
  - The validating constructor (ModelDLL/GameBoardState.cs:29-42) checks only the two totals. It accepts any array length, and it accepts negative bar or borne-off counts when the totals still come to 15. For this reason the lemmas that bound counts (`HomeBoardAtMostFifteen`, `HomeBoardFullIff`, `GameOverIff`) require the bar counts to be non-negative.
  - The constructor sums in unchecked 32-bit arithmetic, so totals that wrap around to 15 pass its check. The model computes the sums the same way (`WrapInt32`). `WrappedTotalsPassCheck` gives such a position: 2147483647 White checkers on the bar and as many borne off. When both totals fit 32 bits, the check is exactly the 15-checker invariant `HasAllCheckers`.

## Model

| member | source | states |
|---|---|---|
| Board.CheckersOnBar | ModelDLL/GameBoardState.cs:183-186 | The White bar count for White, the Black bar count for Black. |
| Board.CheckersOnTarget | ModelDLL/GameBoardState.cs:198-201 | The White borne-off count for White, the Black borne-off count for Black. |
| Board.CountCheckers | ModelDLL/GameBoardState.cs:29-35 | The constructor's loop gives each colour's bar count plus borne-off count plus its checkers on the points, reduced to 32 bits. Cells are counted one by one: a positive cell counts for White, and any other cell adds its negation to Black. |
| Board.NewGameBoardState | ModelDLL/GameBoardState.cs:21-43 | Succeeds, with exactly the given fields, if and only if both colours' 32-bit totals are 15. Otherwise it fails and reports both totals it counted. A position with 15 checkers per colour is always accepted. When the totals fit 32 bits, acceptance is exactly the 15-checker invariant. |
| Board.WrappedTotalsPassCheck | ModelDLL/GameBoardState.cs:29-42 | A concrete position whose White total is far from 15 but wraps to 15 in 32 bits, so the constructor's check accepts it. |
| Board.NumberOfCheckersOnPosition | ModelDLL/GameBoardState.cs:54-62 | Never negative. For White it is the cell when the cell is positive. For Black it is the negated cell when the cell is negative. It is 0 on an empty point or a point the opponent holds. It agrees with how the constructor counts the cell. |
| Board.NumberOfCheckersInHomeBoard | ModelDLL/GameBoardState.cs:64-74 | The loop's sum is the colour's checkers over its home range (White 1..6, Black 19..24) plus its borne-off count. |
| Board.HomeBoardAtMostFifteen | ModelDLL/GameBoardState.cs:64-74 | On a 24-point position with 15 checkers per colour and a non-negative bar count, the home-board count is at most 15. |
| Board.HomeBoardFullIff | ModelDLL/GameBoardState.cs:64-74 | Under the same conditions, the home-board count is 15 exactly when the colour has nothing on the bar and no checker on any point outside its home board. This is the bear-off gate. |
| Board.NumberOfCheckersInHomeBoardFurtherAwayFromBar | ModelDLL/GameBoardState.cs:76-96 | For White the loop sums points position+1..6, and for Black points 19..position-1. The sum is 0 when White's position is at least 6 or Black's position is at most 19. The requires clauses are exactly the array bounds the loops touch. |
| Board.NothingFurtherAwayIff | ModelDLL/GameBoardState.cs:76-96 | The further-away count is 0 exactly when every one of those home-board points holds no checker of the colour. This is the overshoot gate. |
| Board.WherePositionsAre | ModelDLL/GameBoardState.cs:98-110 | Replaces the points and keeps all four bar and borne-off counts. It does not validate. |
| Board.WithCheckersOnBar | ModelDLL/GameBoardState.cs:112-123 | Sets the named colour's bar count. The other colour's bar count, both borne-off counts and the points are unchanged. |
| Board.WithCheckersOnBearOffPosition | ModelDLL/GameBoardState.cs:149-159 | Sets the named colour's borne-off count. The other colour's count, both bar counts and the points are unchanged. |
| Board.WhereCheckerIsAddedToPosition | ModelDLL/GameBoardState.cs:125-130 | Only cell position-1 changes, by +1 for White or -1 for Black. The length and all counters are kept. On a point the opponent does not hold, the colour's count there grows by one. |
| Board.WhereCheckerIsRemovedFromPosition | ModelDLL/GameBoardState.cs:132-137 | Only cell position-1 changes, by -1 for White or +1 for Black. The length and all counters are kept. On a point the colour holds, its count there drops by one. |
| Board.WhereCheckerIsRemovedFromBar | ModelDLL/GameBoardState.cs:139-142 | The named colour's bar count drops by exactly 1. Nothing else changes. That colour's total drops by one and the other colour's total is kept. |
| Board.WhereCheckerIsAddedToBar | ModelDLL/GameBoardState.cs:144-147 | The named colour's bar count grows by exactly 1. Nothing else changes. That colour's total grows by one and the other colour's total is kept. |
| Board.WhereCheckerIsAddedToTarget | ModelDLL/GameBoardState.cs:161-164 | The named colour's borne-off count grows by exactly 1. Nothing else changes. That colour's total grows by one and the other colour's total is kept. |
| Board.AddRemoveRoundTrip | ModelDLL/GameBoardState.cs:125-137 | Adding then removing a checker of the same colour on the same point gives back the original position. So does removing then adding. |
| Board.AddedToPositionTotals | ModelDLL/GameBoardState.cs:125-130 | Adding a checker to a point the opponent does not hold raises the mover's total by one and keeps the opponent's total. |
| Board.RemovedFromPositionTotals | ModelDLL/GameBoardState.cs:132-137 | Removing a checker from a point the mover holds lowers the mover's total by one and keeps the opponent's total. |
| Board.MovePreservesTotals | ModelDLL/GameBoardState.cs:125-137 | Remove-from-source then add-to-target keeps both colours' totals, so it keeps the 15-per-colour invariant. The target must be a point the opponent does not hold. |
| Board.EnterFromBarPreservesTotals | ModelDLL/GameBoardState.cs:125-142 | Remove-from-bar then add-to-position keeps both totals, so it keeps the invariant. |
| Board.BearOffPreservesTotals | ModelDLL/GameBoardState.cs:132-164 | Remove-from-position then add-to-target keeps both totals, so it keeps the invariant. |
| Board.HitPreservesTotals | ModelDLL/GameBoardState.cs:125-147 | A hit keeps both totals: the lone opponent checker goes from the target to its bar, then the mover goes from source to target. Afterwards the target holds exactly one mover checker and no opponent checker, and the opponent's bar has grown by one. |
| Backgammon.DefaultGameBoardIsValid | ModelDLL/BackgammonGame.cs:14-17 | The default board has 24 cells and 15 checkers of each colour. So the validating constructor accepts it with zero bar and borne-off counts. |
| Backgammon.MovesFor | ModelDLL/BackgammonGame.cs:247-260 | A double allots four copies of the die. Any other roll allots exactly the two values. Every allotted value is in 1..6. |
| Backgammon.BackgammonGame.RecalculateMoves | ModelDLL/BackgammonGame.cs:247-260 | Consumes one roll and installs its allotment as `movesLeft`. |
| Backgammon.HandOver | ModelDLL/BackgammonGame.cs:206-217 | The turn that `changeTurns` reaches consumes at least one roll when one is available. It leaves a suffix of the rolls. Its colour is the old colour flipped once per roll consumed, and its moves are the last roll's allotment. That colour can move unless the rolls ran out. |
| Backgammon.HandOverSkipsOnlyBlocked | ModelDLL/BackgammonGame.cs:206-217 | Every colour the turn passed through before the final one could not move with the roll it got. |
| Backgammon.HandOverSinglePass | ModelDLL/BackgammonGame.cs:206-217 | If the other colour can move with the next roll, the turn passes exactly once. |
| Backgammon.BackgammonGame.ChangeTurns | ModelDLL/BackgammonGame.cs:206-217 | The colour, moves left and remaining rolls become those `HandOver` gives. The position and the counter are unchanged. |
| Backgammon.BackgammonGame.PlayerToMove | ModelDLL/BackgammonGame.cs:263-266 | The colour whose turn it is. |
| Backgammon.BackgammonGame.GetMoveableCheckers | ModelDLL/BackgammonGame.cs:241-245 | The calculator's moveable points for the colour to move with the dice left. They are non-empty exactly when that colour can move, which is the condition `changeTurns` and `Move` test. |
| Backgammon.BackgammonGame.IsGameOver | ModelDLL/BackgammonGame.cs:219-222 | True exactly when either colour has 15 borne off. On a valid position with non-negative bar counts, that is exactly when one colour has nothing left on the bar or the points. |
| Backgammon.GameOverIff | ModelDLL/BackgammonGame.cs:219-222 | Game over means either colour has 15 borne off. On a valid position with non-negative bar counts, this holds exactly when one colour has nothing left on the bar or the points. |
| Backgammon.BackgammonGame.Initialize | ModelDLL/BackgammonGame.cs:62-73 | Takes only a position that passes the validating constructor's 32-bit checker count, as the position built at line 69 must. It sets the colour to move and the position, allots the first roll, and starts the counter at 0. |
| Backgammon.BackgammonGame.Create | ModelDLL/BackgammonGame.cs:45-73 | Fails exactly when the validating constructor would throw, so never on a valid position. Otherwise it returns a fresh game. The game has the given rules, position and colour to move, the first roll allotted, the remaining rolls, and a counter of 0. |
| Backgammon.BackgammonGame.CreateWithBoard | ModelDLL/BackgammonGame.cs:57-60 | The same with zero bar and borne-off counts and White to move. The game has the given rules, the first roll allotted, the remaining rolls, and a counter of 0. |
| Backgammon.BackgammonGame.Move | ModelDLL/BackgammonGame.cs:135-179 | The wrong colour is rejected and nothing changes. Otherwise the counter grows by one. An illegal move is then rejected, and the position and turn are unchanged. A legal move installs exactly the oracle's resulting position and moves left. If the game is over, the colour to move is kept. If no moves are left or no checker can move, the turn becomes `HandOver`'s. Otherwise the same colour keeps moving. |
| Backgammon.BackgammonGame.MoveToFinalState | ModelDLL/BackgammonGame.cs:105-133 | The wrong colour is rejected and nothing changes. Otherwise the position becomes the node's state, `movesLeft` is emptied, and the counter grows by the number of moves in the node. Then the game is over and the turn is kept, or the turn becomes `HandOver`'s. |
| Backgammon.BackgammonGame.GetMovesLeft | ModelDLL/BackgammonGame.cs:226-229 | Returns the dice values left as a value. |

## Left out

- `MovesCalculator`, `FinalStatesCalculator2`, `GameBoardMover`, `Node.MovesMade` and the `CheckerColor` extensions are not part of this model. Legality, the result of a move and moveable positions are opaque function values with no contract.
- `GetLegalMovesFor` and `GetFinalStates` only forward to those calculators, so they are not modelled.
- `NotifyView` and every console write are left out because they are output. `MoveToFinalState` adds the node's move count to the counter directly instead of looping over the moves to notify.
- `ConnectPlayer`, `StartGame`, the player interfaces and the trailing `MakeMove()` callbacks are left out. They hand control to player code that is not part of this model.
- `Dice.RollDice` randomness is replaced by a finite sequence of rolls. Running out of rolls stops `ChangeTurns`. The original would instead recurse forever (or overflow its stack) if neither colour could ever move.
- Backgammon.BackgammonGame.ChangeTurns: it stops when the scripted rolls run out, where the original keeps rolling. This is a consequence of the previous point.
- Integer width: only the constructor's counting loop is computed in 32 bits. Everywhere else the model uses unbounded integers. The original also wraps in two kinds of place. One is where a count sits at a 32-bit limit: the ±1 transforms, and the negation at ModelDLL/GameBoardState.cs:59. The other is where a sum passes the 32-bit range: the loops at ModelDLL/GameBoardState.cs:70-72, 83 and 92. For example, 2^30 White checkers on each of points 1 and 2 make the home-board sum wrap, although no single count is at a limit. The constructor can accept such positions, as `WrappedTotalsPassCheck` shows. The affected members are listed below.
- Board.WhereCheckerIsAddedToPosition, Board.WhereCheckerIsRemovedFromPosition and the bar and borne-off transforms add or subtract 1 without wrapping.
- Board.NumberOfCheckersOnPosition: for a Black query on a cell holding int.MinValue, `checkers *= -1` (ModelDLL/GameBoardState.cs:59) leaves the value unchanged, so the original returns 0. The model returns 2^31.
- Board.NumberOfCheckersInHomeBoard and Board.NumberOfCheckersInHomeBoardFurtherAwayFromBar: their `sum +=` loops (ModelDLL/GameBoardState.cs:70-72, 83, 92) can wrap in the original. The model's sums do not.
- Array sharing: the public constructor (ModelDLL/GameBoardState.cs:23) and `WherePositionsAre` (:100) keep the caller's array without copying it. In the original, a caller that later writes to that array changes the position. One example is the public static `DefaultGameBoard`, which ModelDLL/BackgammonGame.cs:57-60 passes through. The model's points are a value, so it does not capture this aliasing.
- Backgammon.BackgammonGame.Create: `initialize` (ModelDLL/BackgammonGame.cs:66-69) rolls the caller's shared `Dice` before the position constructor can throw, so a rejected position still uses up a roll. The model checks the position first, and its rolls belong to the game, so a failed creation consumes nothing.
- Out-of-range positions: `NumberOfCheckersOnPosition`, `WhereCheckerIsAddedToPosition` and `WhereCheckerIsRemovedFromPosition` (ModelDLL/GameBoardState.cs:56, 128, 135) throw IndexOutOfRangeException for a position outside the array. So do `NumberOfCheckersInHomeBoard` and `NumberOfCheckersInHomeBoardFurtherAwayFromBar`, through their calls at :70, :83 and :92, on an array shorter than the home board they scan. The model states the array bounds as preconditions instead of modelling the exception.
- The presentation layer (sprite layout and animation of points) is not modelled.
