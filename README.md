# Pig rules engine, modelled in Dafny

This project models `PigModel`, the rules engine of a two-player game of Pig. The
engine holds two players. Each player has a banked total (`totalPoints`). The engine
also keeps a turn flag (`isPlayerTwosTurn`) and the points at risk in the current turn
(`pointsRolled`). A hold that reaches 100 wins. The engine has three operations:

- `beginNewGame` zeroes everything and gives player one the turn.
- `roll` forfeits the points at risk and passes the turn on a 1. On any other face it
  adds the face to the points at risk.
- `hold` banks the points at risk. Below 100 it passes the turn. At 100 or more it
  announces the winner.

Every operation reports to a delegate through callbacks. The model records those
callbacks as a ghost trace of `Event` values.

The model has four modules:

- `ObjectLibrary` (`object_library.dfy`): the `Player` class and the `Die` faces that the
  engine imports. Their source is not part of this model. They are modelled only as far as
  the engine relies on them:
  - `Player(id:)` starts at 0.
  - `resetTotalPoints()` sets the total to 0.
  - `updateScore(byAdding:)` adds to the total.
  - `Player.Identifier.allCases` lists `.one` before `.two`, so the first player object
    is player one.
  - `Die` has exactly six cases, `.one` to `.six`, with the values 1 to 6, one value per
    case. So only `Die.one` has the value 1.
  - `Die.allCases` lists those six cases; the model's `AllFaces` is that list.
- `PigRules` (`pig_rules.dfy`): the rules on values. `Game` is the engine's state.
  `BeginNewGame`, `ToggleTurn`, `Roll` and `Hold` each give the state after the operation
  and the callbacks it makes, in order. `Step` and `Run` apply operations one after
  another.
- `Pig` (`pig_model.dfy`): the class `PigModel`. Its fields are updated in place, as in
  the source. It holds the player objects, the turn flag, the points at risk and the ghost
  trace. A `Valid()` predicate is its invariant: player one and player two are distinct
  objects, and no total is negative. Each method is proved to leave exactly the state and
  the trace that the matching `PigRules` function gives.
- `PigProperties` (`pig_properties.dfy`): lemmas over whole sequences of operations, and
  worked game scenarios.

The die draw is the one source of randomness. It becomes an argument: `Roll(die)` takes
the face that was drawn. `FromFace` turns any face number from 1 to 6 into a die.

Players are named by index (0 for player one, 1 for player two). This replaces the
source's boolean-to-integer conversion. A game-log line is a `LogEntry`. It records what
the line reports, with player indices and numbers, but not its wording.

The model keeps these behaviours of the code:

- The engine keeps no roll count and has no game-over state. `roll` and `hold` are
  still accepted after a win. A second hold banks the same points again and announces a
  second win (`HoldAfterWinBanksAgain`).
- A winning hold neither passes the turn nor resets the points at risk.
- `beginNewGame` always announces a turn change. The flag's observer fires on every
  assignment, even when the value does not change.
- `hold` sends its game-log line before the turn-change callback.

## Model

| member | source | states |
|---|---|---|
| `ObjectLibrary.Die.Value` | Pig/PigModel.swift:41-43 | a face's value lies in 1..6, and it is 1 exactly for `Die.One`, the face that ends a turn |
| `ObjectLibrary.FromFace` | Pig/PigModel.swift:39 | every face number from 1 to 6 is the value of one of the six faces a draw chooses from |
| `ObjectLibrary.FromFaceValue` | Pig/PigModel.swift:39 | no two faces share a value, so a roll given by its face number is the same as a roll given by its die |
| `ObjectLibrary.Player.constructor` | Pig/PigModel.swift:25 | a new player has the given slot and nothing banked |
| `ObjectLibrary.Player.ResetTotalPoints` | Pig/PigModel.swift:31 | the banked total becomes 0 |
| `ObjectLibrary.Player.UpdateScore` | Pig/PigModel.swift:54 | the banked total grows by exactly the amount added |
| `PigRules.CurrentIndex` | Pig/PigModel.swift:20 | the turn flag selects index 1 (player two) exactly when it is set, and index 0 otherwise |
| `PigRules.NextIndex` | Pig/PigModel.swift:71-73 | the next player's index is a valid index, differs from the current one, and the two always add up to 1; it is the index that becomes current when the flag flips |
| `PigRules.BeginNewGame` | Pig/PigModel.swift:28-36 | from any state: both totals and the points at risk are 0 and player one is up; the callbacks are a score update for each player, then a turn change naming player one, then a welcome line naming player one |
| `PigRules.ToggleTurn` | Pig/PigModel.swift:66-69 | banked totals are kept, the points at risk are dropped, the other player becomes current, and one turn-change callback names the new current player |
| `PigRules.Roll` | Pig/PigModel.swift:38-51 | banked totals never change. A 1 zeroes the points at risk and passes the turn. Any other face adds exactly its value and keeps the player. The die callback comes first and the points-rolled callback second to last, carrying the new value. The log line comes last: it names the roller and the face, or, on a 1, the roller and the next player. A roll makes three callbacks, and four on a 1: exactly one turn change on a 1 and none otherwise, and no score or winner callbacks |
| `PigRules.Bank` | Pig/PigModel.swift:54 | the current player's total grows by exactly the points at risk; the other total, the turn and the points at risk are unchanged |
| `PigRules.Hold` | Pig/PigModel.swift:53-64 | the holder's total grows by exactly the points at risk and the other total is unchanged, with no precondition. If the new total is below 100, the points at risk become 0 and the turn passes. At 100 or more, neither the turn nor the points at risk change. A hold makes four callbacks |
| `PigRules.HoldNotifications` | Pig/PigModel.swift:55-63 | a hold announces the holder's new total first and the points at risk last. A hold that reaches 100 logs the holder's win and then sends exactly one winner alert, which names the holder and carries the holder's new total, and no turn change. Any other hold logs the holder and the next player and then sends exactly one turn change, naming the next player, and no winner alert |
| `PigRules.Step` | Pig/PigModel.swift:28-64 | every operation keeps the invariant, announces every change of the current player, and sends a winner alert only when it is a hold that reaches 100 |
| `PigRules.Run` | Pig/PigModel.swift:28-69 | any sequence of operations keeps the invariant: no total and no points at risk is ever negative |
| `Pig.PigModel.constructor` | Pig/PigModel.swift:23-26 | two distinct fresh players, one per slot, nothing banked, player one up, no callbacks yet |
| `Pig.PigModel.CurrentPlayer` | Pig/PigModel.swift:20 | the current player is one of the two players, and it is player two exactly when the flag is set |
| `Pig.PigModel.NextPlayer` | Pig/PigModel.swift:71-73 | the next player is the one of the two players that is not the current player |
| `Pig.PigModel.SetIsPlayerTwosTurn` | Pig/PigModel.swift:18 | every assignment of the turn flag appends one turn-change callback naming the player it makes current |
| `Pig.PigModel.ToggleTurn` | Pig/PigModel.swift:66-69 | the new current player is the old next player; state and callbacks are those of `PigRules.ToggleTurn` |
| `Pig.PigModel.BeginNewGame` | Pig/PigModel.swift:28-36 | the reset loop over the players leaves the state and callbacks of `PigRules.BeginNewGame` and keeps the invariant |
| `Pig.PigModel.Roll` | Pig/PigModel.swift:38-51 | leaves the state and appends the callbacks of `PigRules.Roll` for the drawn die, and keeps the invariant |
| `Pig.PigModel.Hold` | Pig/PigModel.swift:53-64 | modifies only the current player and the engine; leaves the state and appends the callbacks of `PigRules.Hold`, and keeps the invariant |
| `PigProperties.RollsWithoutOneAccumulate` | Pig/PigModel.swift:43-48 | after any rolls that show no 1, the points at risk have grown by exactly the sum of the faces; the same player is up, no total has changed and no score callback was sent |
| `PigProperties.TotalsNeverDecrease` | Pig/PigModel.swift:38-64 | from a valid state, no sequence of rolls and holds lowers either player's banked total |
| `PigProperties.WinnerAlertsAreWins` | Pig/PigModel.swift:56-61 | in any sequence of operations, every winner alert carries a total of at least 100 |
| `PigProperties.RollsNeverWin` | Pig/PigModel.swift:38-51 | no sequence of rolls sends a winner alert |
| `PigProperties.NewGameForgetsHistory` | Pig/PigModel.swift:28-36 | whatever happened before, starting a new game yields the same state |
| `PigProperties.ReachableStatesAreValid` | Pig/PigModel.swift:28-69 | every state reached from a new game satisfies the invariant |
| `PigProperties.HoldAfterWinBanksAgain` | Pig/PigModel.swift:53-64 | after a winning hold, a second hold banks the same points at risk again and sends one more winner alert |
| `PigProperties.ScenarioRollRoll` | Pig/PigModel.swift:41-48 | new game, then rolls of 3 and 4: 7 at risk, totals 0 and 0, player one still up |
| `PigProperties.ScenarioRollRollHold` | Pig/PigModel.swift:53-58 | then a hold: totals 7 and 0, player two up, nothing at risk |
| `PigProperties.ScenarioExactlyHundredWins` | Pig/PigModel.swift:56-61 | with 95 banked, a roll of 5 and a hold bank exactly 100 and send exactly one winner alert, naming player one with 100 |
| `PigProperties.ScenarioOneOnFirstRoll` | Pig/PigModel.swift:43-45 | a 1 on the first roll of a game leaves nothing at risk and nothing banked, makes player two current, and sends no score callback |

## Left out

- The view controller (`Pig/PigViewController.swift`) is left out: outlets, button enabling, the alert and the timer-driven die animation are presentation, not rules.
- The random draw `Die.allCases.randomElement()!` is left out. The drawn die is an argument of `Roll`.
- Player names and the wording of game-log lines, alert titles and action labels are left out. Log lines and alerts record only the player indices and numbers they report.
- The delegate is optional and weakly held. If no delegate is registered, a callback is simply not made. The trace records what a registered delegate receives.
- The source of `Player` and `Die` from ObjectLibrary is not part of this model. The model assumes only the behaviour and the case lists given above for them.
- Swift's `Int` is 64 bits and traps on overflow. The model uses unbounded integers, so a banked total near 2^63 is not modelled.
