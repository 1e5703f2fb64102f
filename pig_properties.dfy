/** Properties of the rules over whole sequences of operations, and the worked
    scenarios of a game. */
module PigProperties {
  import opened ObjectLibrary
  import opened PigRules

  /** Running two sequences of operations one after the other is running their
      concatenation. */
  lemma {:induction false} RunAppend(g: Game, first: seq<Move>, second: seq<Move>)
    requires WellFormed(g)
    ensures Run(g, first + second) ==
      Outcome(Run(Run(g, first).game, second).game, Run(g, first).events + Run(Run(g, first).game, second).events)
    decreases |first|
  {
    if first == [] {
      assert first + second == second;
    } else {
      var step := Step(g, first[0]);
      var tail := first[1..];
      assert (first + second)[0] == first[0];
      assert (first + second)[1..] == tail + second;
      RunAppend(step.game, tail, second);
      var mid := Run(step.game, tail).game;
      var restA, restB := Run(step.game, tail).events, Run(mid, second).events;
      calc {
        Run(g, first + second).events;
        step.events + Run(step.game, tail + second).events;
        step.events + (restA + restB);
        (step.events + restA) + restB;
        Run(g, first).events + restB;
      }
    }
  }

  /** The moves that roll the given dice in order. */
  function Rolls(dice: seq<Die>): (moves: seq<Move>)
    ensures |moves| == |dice|
    ensures forall k :: 0 <= k < |dice| ==> moves[k] == RollMove(dice[k])
  {
    seq(|dice|, k requires 0 <= k < |dice| => RollMove(dice[k]))
  }

  /** The sum of the faces shown. */
  function FaceSum(dice: seq<Die>): nat
  {
    if dice == [] then 0 else dice[0].Value() + FaceSum(dice[1..])
  }

  /** Rolls that never show a 1 add exactly the sum of their faces to the points at
      risk, keep the same player up and bank nothing. */
  lemma {:induction false} RollsWithoutOneAccumulate(g: Game, dice: seq<Die>)
    requires WellFormed(g)
    requires forall k :: 0 <= k < |dice| ==> dice[k] != Die.One
    ensures Run(g, Rolls(dice)).game == g.(pointsRolled := g.pointsRolled + FaceSum(dice))
    ensures Count(Run(g, Rolls(dice)).events, ScoreKind) == 0
    decreases |dice|
  {
    if dice != [] {
      var after := Roll(g, dice[0]);
      assert Rolls(dice)[1..] == Rolls(dice[1..]);
      RollsWithoutOneAccumulate(after.game, dice[1..]);
      CountAppend(after.events, Run(after.game, Rolls(dice[1..])).events, ScoreKind);
    }
  }

  /** No operation other than starting a new game lowers a banked total: the points
      at risk that a hold banks are never negative. */
  lemma {:induction false} TotalsNeverDecrease(g: Game, moves: seq<Move>)
    requires Invariant(g)
    requires forall k :: 0 <= k < |moves| ==> !moves[k].NewGameMove?
    ensures Run(g, moves).game.totals[0] >= g.totals[0]
    ensures Run(g, moves).game.totals[1] >= g.totals[1]
    decreases |moves|
  {
    if moves != [] {
      var after := Step(g, moves[0]);
      assert after.game.totals[0] >= g.totals[0] && after.game.totals[1] >= g.totals[1] by {
        if moves[0].HoldMove? {
          var cur := CurrentIndex(g.isPlayerTwosTurn);
          assert after.game.totals[cur] >= g.totals[cur];
          assert after.game.totals[NextIndex(g.isPlayerTwosTurn)] == g.totals[NextIndex(g.isPlayerTwosTurn)];
        }
      }
      TotalsNeverDecrease(after.game, moves[1..]);
    }
  }

  /** Every winner notification in a game carries a total of at least `MaxPoints`:
      a win is only ever announced by a hold that reached the threshold. */
  lemma {:induction false} WinnerAlertsAreWins(g: Game, moves: seq<Move>)
    requires WellFormed(g)
    ensures forall e | e in Run(g, moves).events && e.WinnerAlert? :: e.score >= MaxPoints
    decreases |moves|
  {
    if moves != [] {
      WinnerAlertsAreWins(Step(g, moves[0]).game, moves[1..]);
    }
  }

  /** Rolls alone never announce a winner, whatever faces come up. */
  lemma {:induction false} RollsNeverWin(g: Game, dice: seq<Die>)
    requires WellFormed(g)
    ensures Count(Run(g, Rolls(dice)).events, WinnerKind) == 0
    decreases |dice|
  {
    if dice != [] {
      var after := Roll(g, dice[0]);
      assert Rolls(dice)[1..] == Rolls(dice[1..]);
      RollsNeverWin(after.game, dice[1..]);
      CountAppend(after.events, Run(after.game, Rolls(dice[1..])).events, WinnerKind);
    }
  }

  /** Starting a new game forgets everything that happened before it. */
  lemma NewGameForgetsHistory(g: Game, moves: seq<Move>)
    requires WellFormed(g)
    ensures Run(g, moves + [NewGameMove]).game == BeginNewGame().game
  {
    RunAppend(g, moves, [NewGameMove]);
  }

  /** Every state reachable from a new game satisfies the invariant. */
  lemma ReachableStatesAreValid(g: Game, moves: seq<Move>)
    requires WellFormed(g)
    ensures Invariant(Run(g, [NewGameMove] + moves).game)
  {
    RunAppend(g, [NewGameMove], moves);
  }

  /** There is no terminal state: after a winning hold a second hold is accepted,
      banks the same points at risk again and announces a second win. */
  lemma HoldAfterWinBanksAgain(g: Game)
    requires Invariant(g) && HoldWins(g)
    ensures var again := Hold(Hold(g).game);
      again.game.totals[CurrentIndex(g.isPlayerTwosTurn)] == CurrentTotal(g) + 2 * g.pointsRolled
      && Count(again.events, WinnerKind) == 1
  {
    var won := Hold(g).game;
    assert CurrentTotal(won) == CurrentTotal(g) + g.pointsRolled;
    assert HoldWins(won);
    HoldNotifications(won);
  }

  /** Running a single operation is taking that step. */
  lemma RunSingle(g: Game, m: Move)
    requires WellFormed(g)
    ensures Run(g, [m]) == Step(g, m)
  {
    assert [m][1..] == [];
    assert Step(g, m).events + [] == Step(g, m).events;
  }

  /** A new game; player one rolls a 3 and a 4: 7 is at risk, nothing is banked and
      player one is still up. */
  lemma ScenarioRollRoll()
    ensures Run(BeginNewGame().game, Rolls([Die.Three, Die.Four])).game == Game([0, 0], false, 7)
  {
    assert FaceSum([Die.Three, Die.Four]) == 7 by {
      assert [Die.Three, Die.Four][1..] == [Die.Four];
      assert [Die.Four][1..] == [];
    }
    RollsWithoutOneAccumulate(BeginNewGame().game, [Die.Three, Die.Four]);
  }

  /** ... and then holds: 7 is banked for player one, and player two is up with nothing
      at risk. */
  lemma ScenarioRollRollHold()
    ensures Run(BeginNewGame().game, Rolls([Die.Three, Die.Four]) + [HoldMove]).game == Game([7, 0], true, 0)
  {
    var start, rolls := BeginNewGame().game, Rolls([Die.Three, Die.Four]);
    ScenarioRollRoll();
    var rolled := Run(start, rolls).game;
    RunAppend(start, rolls, [HoldMove]);
    RunSingle(rolled, HoldMove);
    assert !HoldWins(rolled);
  }

  /** Player one has 95 banked and rolls a 5 and holds: exactly 100 wins, and the
      winner notification names player one with 100. */
  lemma ScenarioExactlyHundredWins(other: int)
    ensures var o := Run(Game([95, other], false, 0), [RollMove(Die.Five), HoldMove]);
      o.game.totals == [100, other] && WinnerAlert(0, 100) in o.events
      && Count(o.events, WinnerKind) == 1
  {
    var g := Game([95, other], false, 0);
    var rolled := Roll(g, Die.Five);
    assert rolled.game == Game([95, other], false, 5);
    var held := Hold(rolled.game);
    assert HoldWins(rolled.game);
    HoldNotifications(rolled.game);
    assert held.events[2] == WinnerAlert(0, 100);
    RunSingle(g, RollMove(Die.Five));
    RunSingle(rolled.game, HoldMove);
    RunAppend(g, [RollMove(Die.Five)], [HoldMove]);
    assert [RollMove(Die.Five)] + [HoldMove] == [RollMove(Die.Five), HoldMove];
    CountAppend(rolled.events, held.events, WinnerKind);
  }

  /** Player one rolls a 1 on the first roll of the game: nothing is at risk, player two
      is up, and no score notification is sent because nothing was banked. */
  lemma ScenarioOneOnFirstRoll()
    ensures var o := Run(BeginNewGame().game, [RollMove(Die.One)]);
      o.game.pointsRolled == 0 && CurrentIndex(o.game.isPlayerTwosTurn) == 1
      && o.game.totals == [0, 0] && Count(o.events, ScoreKind) == 0
  {
    RunSingle(BeginNewGame().game, RollMove(Die.One));
  }
}
