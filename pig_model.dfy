/** The Pig engine as the imperative object it is: two player objects whose banked
    totals it updates in place, a turn flag whose every assignment notifies the
    delegate, and the points at risk in the current turn. The delegate's calls are
    recorded in the ghost `trace`. Every operation is proved to leave the state and
    the trace that the matching function of `PigRules` gives. */
module Pig {
  import opened ObjectLibrary
  import opened PigRules

  class PigModel {
    const players: seq<Player>
    var isPlayerTwosTurn: bool
    var pointsRolled: int
    /** Every notification sent to the delegate so far, oldest first. */
    ghost var trace: seq<Event>

    /** Player one then player two, two distinct objects, and nothing negative. */
    ghost predicate Valid()
      reads this, players
    {
      |players| == 2 && players[0] != players[1]
      && players[0].id == Identifier.One && players[1].id == Identifier.Two
      && Invariant(State())
    }

    /** The state as a value of the rules. */
    ghost function State(): Game
      reads this, players
      requires |players| == 2
    {
      Game([players[0].totalPoints, players[1].totalPoints], isPlayerTwosTurn, pointsRolled)
    }

    /** One player object per slot, nothing banked, player one up, nothing sent yet. */
    constructor ()
      ensures Valid() && fresh(players[0]) && fresh(players[1])
      ensures State() == Game([0, 0], false, 0) && trace == []
    {
      var one := new Player(Identifier.One);
      var two := new Player(Identifier.Two);
      players := [one, two];
      isPlayerTwosTurn := false;
      pointsRolled := 0;
      trace := [];
    }

    /** The player whose turn it is. */
    function CurrentPlayer(): (p: Player)
      reads this, players
      requires Valid()
      ensures p in players
      ensures p.id == Identifier.Two <==> isPlayerTwosTurn
    {
      players[CurrentIndex(isPlayerTwosTurn)]
    }

    /** The player whose turn it is not. */
    function NextPlayer(): (p: Player)
      reads this, players
      requires Valid()
      ensures p in players && p != CurrentPlayer()
      ensures p.id == Identifier.Two <==> !isPlayerTwosTurn
    {
      players[NextIndex(isPlayerTwosTurn)]
    }

    /** Assigning the turn flag; its observer announces the current player after every
        assignment, whether or not the value changes. */
    method SetIsPlayerTwosTurn(value: bool)
      requires Valid()
      modifies this
      ensures Valid() && isPlayerTwosTurn == value && pointsRolled == old(pointsRolled)
      ensures trace == old(trace) + [TurnWillChange(CurrentIndex(value))]
    {
      isPlayerTwosTurn := value;
      trace := trace + [TurnWillChange(CurrentIndex(isPlayerTwosTurn))];
    }

    /** Drop the points at risk and pass the turn to the other player. */
    method ToggleTurn()
      requires Valid()
      modifies this
      ensures Valid() && CurrentPlayer() == old(NextPlayer())
      ensures State() == PigRules.ToggleTurn(old(State())).game
      ensures trace == old(trace) + PigRules.ToggleTurn(old(State())).events
    {
      pointsRolled := 0;
      SetIsPlayerTwosTurn(!isPlayerTwosTurn);
    }

    /** Reset both players (announcing each), give player one the turn and log a welcome. */
    method BeginNewGame()
      requires Valid()
      modifies this, players[0], players[1]
      ensures Valid()
      ensures State() == PigRules.BeginNewGame().game
      ensures trace == old(trace) + PigRules.BeginNewGame().events
    {
      pointsRolled := 0;
      for i := 0 to |players|
        invariant pointsRolled == 0 && isPlayerTwosTurn == old(isPlayerTwosTurn)
        invariant forall k :: 0 <= k < i ==> players[k].totalPoints == 0
        invariant forall k :: i <= k < |players| ==> players[k].totalPoints == old(players[k].totalPoints)
        invariant trace == old(trace) + seq(i, k requires 0 <= k => ScoreChanged(k, 0))
      {
        players[i].ResetTotalPoints();
        trace := trace + [ScoreChanged(i, players[i].totalPoints)];
      }
      SetIsPlayerTwosTurn(false);
      trace := trace + [GameLog(Welcome(CurrentIndex(isPlayerTwosTurn)))];
    }

    /** Roll the die that shows `die`: announce it, then either forfeit the points at
        risk and pass the turn (a 1) or add the face to them, then announce the points
        at risk and log the roll. */
    method Roll(die: Die)
      requires Valid()
      modifies this
      ensures Valid()
      ensures State() == PigRules.Roll(old(State()), die).game
      ensures trace == old(trace) + PigRules.Roll(old(State()), die).events
    {
      trace := trace + [DieShown(die)];
      var points := die.Value();
      var entry := Rolled(CurrentIndex(isPlayerTwosTurn), points);
      if die == Die.One {
        entry := RolledOne(CurrentIndex(isPlayerTwosTurn), NextIndex(isPlayerTwosTurn));
        ToggleTurn();
      } else {
        pointsRolled := pointsRolled + points;
      }
      trace := trace + [PointsRolledChanged(pointsRolled)];
      trace := trace + [GameLog(entry)];
    }

    /** Bank the points at risk for the current player and announce the new total; then
        either log the hold and pass the turn, or, at `MaxPoints` or more, log the win and
        send the winner alert; finally announce the points at risk. */
    method Hold()
      requires Valid()
      modifies this, players[CurrentIndex(isPlayerTwosTurn)]
      ensures Valid()
      ensures State() == PigRules.Hold(old(State())).game
      ensures trace == old(trace) + PigRules.Hold(old(State())).events
    {
      var holder, next := CurrentIndex(isPlayerTwosTurn), NextIndex(isPlayerTwosTurn);
      var player := CurrentPlayer();
      player.UpdateScore(pointsRolled);
      var total := player.totalPoints;
      // the score update, then the log line and either the turn change or the winner alert
      if total < MaxPoints {
        trace := trace + [ScoreChanged(holder, total), GameLog(Holds(holder, next))];
        ToggleTurn();
      } else {
        trace := trace + [ScoreChanged(holder, total), GameLog(HasWon(holder)), WinnerAlert(holder, total)];
      }
      trace := trace + [PointsRolledChanged(pointsRolled)];
    }
  }
}
