/** The rules of Pig as the engine applies them, on values: the game state, the
    notifications the engine sends its delegate, and one function per operation that
    gives the state after the operation and the notifications it sends, in order.
    The class `Pig.PigModel` is proved to follow these functions step by step. */
module PigRules {
  import opened ObjectLibrary

  /** A hold that brings the holder's banked total to this value or above wins. */
  const MaxPoints := 100

  /** The index into the two-element player list selected by the turn flag. */
  function CurrentIndex(isPlayerTwosTurn: bool): (i: nat)
    ensures i < 2
    ensures i == 1 <==> isPlayerTwosTurn
  {
    if isPlayerTwosTurn then 1 else 0
  }

  /** The index of the player who is not current: the one who becomes current when
      the flag is flipped. */
  function NextIndex(isPlayerTwosTurn: bool): (j: nat)
    ensures j < 2 && j != CurrentIndex(isPlayerTwosTurn)
    ensures CurrentIndex(isPlayerTwosTurn) + j == 1
    ensures j == CurrentIndex(!isPlayerTwosTurn)
  {
    (CurrentIndex(isPlayerTwosTurn) + 1) % 2
  }

  /** The engine's state: each player's banked total (index 0 is player one), whose
      turn it is, and the points at risk in the current turn. */
  datatype Game = Game(totals: seq<int>, isPlayerTwosTurn: bool, pointsRolled: int)

  /** Exactly two players. */
  predicate WellFormed(g: Game)
  {
    |g.totals| == 2
  }

  /** What every reachable state satisfies: nothing is ever negative. */
  predicate Invariant(g: Game)
  {
    WellFormed(g) && g.totals[0] >= 0 && g.totals[1] >= 0 && g.pointsRolled >= 0
  }

  /** The banked total of the player whose turn it is. */
  function CurrentTotal(g: Game): int
    requires WellFormed(g)
  {
    g.totals[CurrentIndex(g.isPlayerTwosTurn)]
  }

  /** The game-log lines, by what they report; players are named by index. */
  datatype LogEntry =
    | Welcome(player: nat)                 // a new game starts with this player
    | Rolled(player: nat, face: nat)       // a face other than 1 was rolled
    | RolledOne(player: nat, next: nat)    // a 1 was rolled; the next player is up
    | Holds(player: nat, next: nat)        // the player held; the next player is up
    | HasWon(player: nat)                  // the player's hold won the game

  /** One call on the delegate. A score notification carries the total the delegate
      reads from the player at that moment. */
  datatype Event =
    | DieShown(die: Die)
    | PointsRolledChanged(points: int)
    | ScoreChanged(player: nat, total: int)
    | TurnWillChange(player: nat)
    | GameLog(entry: LogEntry)
    | WinnerAlert(player: nat, score: int)
  {
    function Kind(): EventKind
    {
      match this
      case DieShown(_) => DieKind
      case PointsRolledChanged(_) => PointsKind
      case ScoreChanged(_, _) => ScoreKind
      case TurnWillChange(_) => TurnKind
      case GameLog(_) => LogKind
      case WinnerAlert(_, _) => WinnerKind
    }
  }

  datatype EventKind = DieKind | PointsKind | ScoreKind | TurnKind | LogKind | WinnerKind

  /** How many notifications of one kind a sequence holds. */
  function Count(events: seq<Event>, kind: EventKind): (n: nat)
    ensures n <= |events|
    ensures n == 0 <==> forall k :: 0 <= k < |events| ==> events[k].Kind() != kind
  {
    if events == [] then 0
    else (if events[0].Kind() == kind then 1 else 0) + Count(events[1..], kind)
  }

  /** Counting distributes over concatenation. */
  lemma {:induction false} CountAppend(a: seq<Event>, b: seq<Event>, kind: EventKind)
    ensures Count(a + b, kind) == Count(a, kind) + Count(b, kind)
    decreases |a|
  {
    if a == [] {
      assert a + b == b;
    } else {
      assert (a + b)[1..] == a[1..] + b;
      CountAppend(a[1..], b, kind);
    }
  }

  /** Counting the notifications of a four-call operation, one call at a time. */
  lemma CountFour(events: seq<Event>, kind: EventKind)
    requires |events| == 4
    ensures Count(events, kind) ==
      (if events[0].Kind() == kind then 1 else 0) + (if events[1].Kind() == kind then 1 else 0)
      + (if events[2].Kind() == kind then 1 else 0) + (if events[3].Kind() == kind then 1 else 0)
  {
    var tail1, tail2, tail3 := events[1..], events[2..], events[3..];
    assert tail1[1..] == tail2 && tail2[1..] == tail3 && tail3[1..] == [];
    assert Count(tail3, kind) == if events[3].Kind() == kind then 1 else 0;
    assert Count(tail2, kind) == (if events[2].Kind() == kind then 1 else 0) + Count(tail3, kind);
    assert Count(tail1, kind) == (if events[1].Kind() == kind then 1 else 0) + Count(tail2, kind);
  }

  /** The state after an operation and the notifications it sent, in order. */
  datatype Outcome = Outcome(game: Game, events: seq<Event>)

  /** `beginNewGame`: both totals and the points at risk are zeroed and player one is
      up, whatever the state before. Each player's reset is announced, then the
      assignment of the turn flag (which announces itself even when it does not change
      the flag), then the welcome line naming player one. */
  function BeginNewGame(): (o: Outcome)
    ensures Invariant(o.game)
    ensures o.game.totals == [0, 0] && o.game.pointsRolled == 0
    ensures CurrentIndex(o.game.isPlayerTwosTurn) == 0
    ensures o.events == [ScoreChanged(0, 0), ScoreChanged(1, 0), TurnWillChange(0), GameLog(Welcome(0))]
  {
    var reset := Game([0, 0], false, 0);
    Outcome(reset, [ScoreChanged(0, 0), ScoreChanged(1, 0), TurnWillChange(CurrentIndex(reset.isPlayerTwosTurn)),
                    GameLog(Welcome(CurrentIndex(reset.isPlayerTwosTurn)))])
  }

  /** `toggleTurn`: the points at risk are dropped and the other player is up; the flag
      assignment announces the new current player. */
  function ToggleTurn(g: Game): (o: Outcome)
    requires WellFormed(g)
    ensures WellFormed(o.game) && o.game.totals == g.totals && o.game.pointsRolled == 0
    ensures CurrentIndex(o.game.isPlayerTwosTurn) == NextIndex(g.isPlayerTwosTurn)
    ensures NextIndex(o.game.isPlayerTwosTurn) == CurrentIndex(g.isPlayerTwosTurn)
    ensures o.events == [TurnWillChange(NextIndex(g.isPlayerTwosTurn))]
  {
    var toggled := g.(pointsRolled := 0, isPlayerTwosTurn := !g.isPlayerTwosTurn);
    Outcome(toggled, [TurnWillChange(CurrentIndex(toggled.isPlayerTwosTurn))])
  }

  /** `roll` with the drawn face as an argument. A 1 forfeits the points at risk and
      passes the turn; any other face is added to the points at risk. Banked totals
      are never touched. The die is announced first, the new points at risk and the
      log line last, and a roll never sends a score or winner notification. */
  function Roll(g: Game, die: Die): (o: Outcome)
    requires WellFormed(g)
    ensures WellFormed(o.game) && (Invariant(g) ==> Invariant(o.game))
    ensures o.game.totals == g.totals
    ensures die == Die.One ==>
      o.game.pointsRolled == 0 && CurrentIndex(o.game.isPlayerTwosTurn) == NextIndex(g.isPlayerTwosTurn)
    ensures die != Die.One ==>
      o.game.pointsRolled == g.pointsRolled + die.Value() && o.game.isPlayerTwosTurn == g.isPlayerTwosTurn
    ensures |o.events| == (if die == Die.One then 4 else 3) && o.events[0] == DieShown(die)
    ensures o.events[|o.events| - 2] == PointsRolledChanged(o.game.pointsRolled)
    ensures o.events[|o.events| - 1] == GameLog(
      if die == Die.One then RolledOne(CurrentIndex(g.isPlayerTwosTurn), NextIndex(g.isPlayerTwosTurn))
      else Rolled(CurrentIndex(g.isPlayerTwosTurn), die.Value()))
    ensures Count(o.events, TurnKind) == (if die == Die.One then 1 else 0)
    ensures Count(o.events, ScoreKind) == 0 && Count(o.events, WinnerKind) == 0
  {
    var roller := CurrentIndex(g.isPlayerTwosTurn);
    if die == Die.One then
      var toggle := ToggleTurn(g);
      Outcome(toggle.game,
              [DieShown(die)] + toggle.events
              + [PointsRolledChanged(toggle.game.pointsRolled), GameLog(RolledOne(roller, NextIndex(g.isPlayerTwosTurn)))])
    else
      var rolled := g.(pointsRolled := g.pointsRolled + die.Value());
      Outcome(rolled, [DieShown(die), PointsRolledChanged(rolled.pointsRolled), GameLog(Rolled(roller, die.Value()))])
  }

  /** Whether a hold from `g` wins: the holder's total after banking reaches `MaxPoints`. */
  predicate HoldWins(g: Game)
    requires WellFormed(g)
  {
    CurrentTotal(g) + g.pointsRolled >= MaxPoints
  }

  /** `updateScore(byAdding:)` on the current player: the points at risk are added to
      the current player's total; nothing else changes. */
  function Bank(g: Game): (b: Game)
    requires WellFormed(g)
    ensures WellFormed(b) && (Invariant(g) ==> Invariant(b))
    ensures b.isPlayerTwosTurn == g.isPlayerTwosTurn && b.pointsRolled == g.pointsRolled
    ensures CurrentTotal(b) == CurrentTotal(g) + g.pointsRolled
    ensures b.totals[NextIndex(g.isPlayerTwosTurn)] == g.totals[NextIndex(g.isPlayerTwosTurn)]
  {
    var holder := CurrentIndex(g.isPlayerTwosTurn);
    g.(totals := g.totals[holder := g.totals[holder] + g.pointsRolled])
  }

  /** `hold`: the points at risk are banked for the current player, and the other
      player's total is unchanged. Below `MaxPoints` the turn passes (and the points at
      risk are dropped); at or above it exactly one winner notification carries the
      holder's total, and neither the turn nor the points at risk change. */
  function Hold(g: Game): (o: Outcome)
    requires WellFormed(g)
    ensures WellFormed(o.game) && (Invariant(g) ==> Invariant(o.game))
    ensures o.game.totals[CurrentIndex(g.isPlayerTwosTurn)] == CurrentTotal(g) + g.pointsRolled
    ensures o.game.totals[NextIndex(g.isPlayerTwosTurn)] == g.totals[NextIndex(g.isPlayerTwosTurn)]
    ensures !HoldWins(g) ==>
      o.game.pointsRolled == 0 && CurrentIndex(o.game.isPlayerTwosTurn) == NextIndex(g.isPlayerTwosTurn)
    ensures HoldWins(g) ==>
      o.game.pointsRolled == g.pointsRolled && o.game.isPlayerTwosTurn == g.isPlayerTwosTurn
    ensures |o.events| == 4
  {
    var holder := CurrentIndex(g.isPlayerTwosTurn);
    var banked := Bank(g);
    var total := CurrentTotal(banked);
    if total < MaxPoints then
      var toggle := ToggleTurn(banked);
      var events := [ScoreChanged(holder, total), GameLog(Holds(holder, NextIndex(g.isPlayerTwosTurn)))]
                    + toggle.events + [PointsRolledChanged(toggle.game.pointsRolled)];
      Outcome(toggle.game, events)
    else
      var events := [ScoreChanged(holder, total), GameLog(HasWon(holder)), WinnerAlert(holder, total),
                     PointsRolledChanged(banked.pointsRolled)];
      Outcome(banked, events)
  }

  /** The notifications of `hold`: the holder's new total is announced first and the
      points at risk last; exactly one winner notification, carrying the holder's
      winning total, after the log line announcing the win, when the hold reaches
      `MaxPoints`; otherwise the log line naming the holder and the next player, then
      exactly one turn change. */
  lemma HoldNotifications(g: Game)
    requires WellFormed(g)
    ensures var o := Hold(g);
      && o.events[0] == ScoreChanged(CurrentIndex(g.isPlayerTwosTurn), CurrentTotal(g) + g.pointsRolled)
      && o.events[3] == PointsRolledChanged(o.game.pointsRolled)
      && Count(o.events, WinnerKind) == (if HoldWins(g) then 1 else 0)
      && Count(o.events, TurnKind) == (if HoldWins(g) then 0 else 1)
      && (forall e | e in o.events && e.WinnerAlert? ::
            e.player == CurrentIndex(g.isPlayerTwosTurn) && e.score >= MaxPoints)
      && (!HoldWins(g) ==>
            o.events[1] == GameLog(Holds(CurrentIndex(g.isPlayerTwosTurn), NextIndex(g.isPlayerTwosTurn)))
            && o.events[2] == TurnWillChange(NextIndex(g.isPlayerTwosTurn)))
      && (HoldWins(g) ==>
            o.events[1] == GameLog(HasWon(CurrentIndex(g.isPlayerTwosTurn)))
            && o.events[2] == WinnerAlert(CurrentIndex(g.isPlayerTwosTurn), CurrentTotal(g) + g.pointsRolled))
  {
    CountFour(Hold(g).events, WinnerKind);
    CountFour(Hold(g).events, TurnKind);
  }

  /** The operations a presentation layer can invoke, with the die drawn for a roll. */
  datatype Move = NewGameMove | RollMove(die: Die) | HoldMove

  /** One operation. Every change of the current player is announced with the new
      current player, and every winner notification carries a winning total. */
  function Step(g: Game, m: Move): (o: Outcome)
    requires WellFormed(g)
    ensures WellFormed(o.game) && (Invariant(g) ==> Invariant(o.game))
    ensures o.game.isPlayerTwosTurn != g.isPlayerTwosTurn ==>
      TurnWillChange(CurrentIndex(o.game.isPlayerTwosTurn)) in o.events
    ensures forall e | e in o.events && e.WinnerAlert? :: e.score >= MaxPoints
    ensures Count(o.events, WinnerKind) > 0 ==> m.HoldMove? && HoldWins(g)
  {
    match m
    case NewGameMove => BeginNewGame()
    case RollMove(die) => Roll(g, die)
    case HoldMove => HoldNotifications(g); Hold(g)
  }

  /** Operations one after another: the final state and every notification, in order. */
  function Run(g: Game, moves: seq<Move>): (o: Outcome)
    requires WellFormed(g)
    ensures WellFormed(o.game)
    ensures Invariant(g) ==> Invariant(o.game)
    decreases |moves|
  {
    if moves == [] then Outcome(g, [])
    else
      var first := Step(g, moves[0]);
      var rest := Run(first.game, moves[1..]);
      Outcome(rest.game, first.events + rest.events)
  }
}
