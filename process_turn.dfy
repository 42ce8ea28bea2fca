/**
 * One turn of the board game: roll, move, resolve the tile, draw, complete the card and
 * hand over to the next active player, plus the validator of phase transitions.
 */
module ProcessTurn {
  import opened Wrappers
  import opened Kotlin
  import opened Rand
  import opened CardModel
  import opened PlayerModel
  import opened TileModel
  import opened DiceModel
  import opened GameStateModel

  // ---------------------------------------------------------------- dice

  /** `rollDice`: the generator is seeded with `randomSeed + currentTurn` and nothing else. */
  function RollDice(gs: GameState, useTwoDice: bool): (d: DiceResult)
    ensures 1 <= d.dice1 <= 6
    ensures d.dice2.None? <==> !useTwoDice
    ensures useTwoDice ==> 1 <= d.dice2.value <= 6 && d == FromTwoDice(d.dice1, d.dice2.value)
    ensures !useTwoDice ==> d == FromSingleDice(d.dice1)
    ensures d.isDouble <==> useTwoDice && d.dice2 == Some(d.dice1)
    ensures useTwoDice ==> 2 <= d.total <= 12
    ensures !useTwoDice ==> 1 <= d.total <= 6
  {
    var random := Seeded(gs.TurnSeed());
    var (dice1, afterFirst) := NextIntIn(random, 1, 7);
    var dice2 := if useTwoDice then NextIntIn(afterFirst, 1, 7).0 else 0;
    var isDouble := useTwoDice && dice1 == dice2;
    var total := dice1 + dice2;
    DiceResult(dice1, if useTwoDice then Some(dice2) else None, if useTwoDice then total else dice1, isDouble)
  }

  /** Two states with the same `randomSeed + currentTurn` roll the same dice. */
  lemma RollDiceDeterministic(a: GameState, b: GameState, useTwoDice: bool)
    requires a.TurnSeed() == b.TurnSeed()
    ensures RollDice(a, useTwoDice) == RollDice(b, useTwoDice)
  {
  }

  // ---------------------------------------------------------------- moving

  /**
   * `movePlayer`: the current player advances `total` squares in the play direction,
   * wrapping around the board; the remainder is Kotlin's, corrected when negative.
   */
  method MovePlayer(gs: GameState, diceResult: DiceResult) returns (r: GameState)
    requires gs.HasCurrentPlayer() && gs.BoardSize() > 0
    ensures r == gs.(
      players := gs.players[gs.currentPlayerIndex := gs.CurrentPlayer().(
        position := (gs.CurrentPlayer().position + diceResult.total * gs.DirectionSign()) % gs.BoardSize())],
      lastDiceResult := Some(diceResult.total),
      turnPhase := TileEvent,
      doubleCount := if diceResult.isDouble then gs.doubleCount + 1 else 0)
    ensures r.HasCurrentPlayer() && 0 <= r.CurrentPlayer().position < r.BoardSize()
    ensures |r.players| == |gs.players|
    ensures forall i :: 0 <= i < |gs.players| && i != gs.currentPlayerIndex ==> r.players[i] == gs.players[i]
  {
    var currentPlayer := gs.CurrentPlayer();
    var direction := if gs.direction == Clockwise then 1 else -1;
    var newPosition := Rem(currentPlayer.position + diceResult.total * direction, gs.BoardSize());
    if newPosition < 0 {
      newPosition := newPosition + gs.BoardSize();
    }
    assert newPosition == Wrap(currentPlayer.position + diceResult.total * direction, gs.BoardSize());
    var updatedPlayer := currentPlayer.(position := newPosition);
    var updatedPlayers := gs.players[gs.currentPlayerIndex := updatedPlayer];
    var newDoubleCount := if diceResult.isDouble then gs.doubleCount + 1 else 0;
    r := gs.(players := updatedPlayers, lastDiceResult := Some(diceResult.total),
             turnPhase := TileEvent, doubleCount := newDoubleCount);
  }

  // ---------------------------------------------------------------- tiles

  /** `handleEventTile`: the direction of play reverses and the turn ends. */
  function HandleEventTile(gs: GameState): (r: GameState)
    ensures r.direction != gs.direction && r.turnPhase == End
    ensures r == gs.(direction := r.direction, turnPhase := End)
  {
    gs.(direction := if gs.direction == Clockwise then CounterClockwise else Clockwise, turnPhase := End)
  }

  /** `handleTrapTile`: straight on to resolving a card. */
  function HandleTrapTile(gs: GameState): (r: GameState)
    ensures r == gs.(turnPhase := ActionResolution)
  {
    gs.(turnPhase := ActionResolution)
  }

  /** `processTileEvent`: what the square under the current player does. */
  function ProcessTileEvent(gs: GameState): (r: GameState)
    requires gs.HasCurrentPlayer() && 0 <= gs.CurrentPlayer().position < |gs.board|
    ensures var t := gs.board[gs.CurrentPlayer().position].tileType;
      && ((t == StartTile || t == SafeTile) ==> r == gs.(turnPhase := End))
      && ((t == CardTile || t == TrapTile) ==> r == gs.(turnPhase := ActionResolution))
      && (t == EventTile ==> r == gs.(direction := Flip(gs.direction), turnPhase := End))
    ensures ValidateStateTransition(TileEvent, r.turnPhase)
  {
    var currentTile := gs.board[gs.CurrentPlayer().position];
    match currentTile.tileType
    case StartTile => gs.(turnPhase := End)
    case CardTile => gs.(turnPhase := ActionResolution)
    case EventTile => HandleEventTile(gs)
    case SafeTile => gs.(turnPhase := End)
    case TrapTile => HandleTrapTile(gs)
  }

  // ---------------------------------------------------------------- cards

  /** `reshuffleDeck`: the discard pile, shuffled with `randomSeed + currentTurn`, becomes the deck. */
  function ReshuffleDeck(gs: GameState): (r: GameState)
    ensures r == gs.(deck := r.deck, discardPile := [])
    ensures |r.deck| == |gs.discardPile|
    ensures multiset(r.deck) == multiset(gs.discardPile)
    ensures r.deck == ShuffledWithSeed(gs.discardPile, gs.TurnSeed())
  {
    gs.(deck := ShuffledWithSeed(gs.discardPile, gs.TurnSeed()), discardPile := [])
  }

  /**
   * `drawCard`: with nothing left anywhere the game ends; otherwise the head of the deck
   * (reshuffled from the discard pile when empty) becomes the current card.
   */
  function DrawCard(gs: GameState): (r: GameState)
    ensures gs.deck == [] && gs.discardPile == [] ==> r == gs.(status := Ended, turnPhase := End)
    ensures gs.deck != [] ==>
      r == gs.(deck := gs.deck[1..], currentCard := Some(gs.deck[0]), turnPhase := ActionResolution)
    ensures gs.deck == [] && gs.discardPile != [] ==>
      var reshuffled := ReshuffleDeck(gs).deck;
      r == gs.(deck := reshuffled[1..], discardPile := [], currentCard := Some(reshuffled[0]), turnPhase := ActionResolution)
    ensures (gs.deck != [] || gs.discardPile != []) ==>
      && r.currentCard.Some?
      && multiset(gs.deck) + multiset(gs.discardPile)
         == multiset(r.deck) + multiset(r.discardPile) + multiset{r.currentCard.value}
  {
    if gs.deck == [] && gs.discardPile == [] then
      gs.(status := Ended, turnPhase := End)
    else if gs.deck == [] then
      TakeTop(ReshuffleDeck(gs))
    else
      TakeTop(gs)
  }

  /** The second half of `drawCard`: the head of a non-empty deck becomes the current card. */
  function TakeTop(gs: GameState): (r: GameState)
    requires gs.deck != []
    ensures r == gs.(deck := gs.deck[1..], currentCard := Some(gs.deck[0]), turnPhase := ActionResolution)
    ensures multiset(gs.deck) == multiset(r.deck) + multiset{gs.deck[0]}
  {
    assert gs.deck == [gs.deck[0]] + gs.deck[1..];
    var drawnCard := gs.deck[0];
    var remainingDeck := gs.deck[1..];
    gs.(deck := remainingDeck, currentCard := Some(drawnCard), turnPhase := ActionResolution)
  }

  /**
   * `completeCard`: the current card goes to the discard pile and the current player's
   * counters move: both up by one when completed, the streak back to 0 when skipped.
   */
  method CompleteCard(gs: GameState, completed: bool) returns (r: GameState)
    requires gs.currentCard.Some? ==> gs.HasCurrentPlayer()
    ensures gs.currentCard.None? ==> r == gs
    ensures gs.currentCard.Some? ==>
      var p := gs.CurrentPlayer();
      r == gs.(
        players := gs.players[gs.currentPlayerIndex :=
          if completed then p.(penaltyCount := p.penaltyCount + 1, consecutivePenalties := p.consecutivePenalties + 1)
          else p.(consecutivePenalties := 0)],
        discardPile := gs.discardPile + [gs.currentCard.value],
        currentCard := None,
        turnPhase := End)
    ensures r.CardsInPlay() == gs.CardsInPlay()
    ensures |r.players| == |gs.players|
    ensures forall i :: 0 <= i < |gs.players| && i != gs.currentPlayerIndex ==> r.players[i] == gs.players[i]
  {
    if gs.currentCard.None? {
      return gs;
    }
    var currentCard := gs.currentCard.value;
    var currentPlayer := gs.CurrentPlayer();
    var updatedPlayer;
    if completed {
      updatedPlayer := currentPlayer.(penaltyCount := currentPlayer.penaltyCount + 1,
                                      consecutivePenalties := currentPlayer.consecutivePenalties + 1);
    } else {
      updatedPlayer := currentPlayer.(consecutivePenalties := 0);
    }
    var updatedPlayers := gs.players[gs.currentPlayerIndex := updatedPlayer];
    var updatedDiscardPile := gs.discardPile + [currentCard];
    r := gs.(players := updatedPlayers, discardPile := updatedDiscardPile, currentCard := None, turnPhase := End);
  }

  // ---------------------------------------------------------------- next player

  /** One step around the table: `(i + dir) % n`, made non-negative. */
  function StepIndex(i: int, dir: int, n: int): (j: int)
    requires n > 0
    ensures 0 <= j < n && j == (i + dir) % n
  {
    Wrap(i + dir, n)
  }

  /** The seat `k` steps from `cur` in direction `dir`, that is `(cur + k * dir) mod n`. */
  function Seat(cur: int, k: int, dir: int, n: int): (j: int)
    requires n > 0
    ensures 0 <= j < n
  {
    (if dir == 1 then cur + k else if dir == -1 then cur - k else cur + k * dir) % n
  }

  /**
   * The skipping loop of `getNextActivePlayerIndex`, as a recursive definition: from `next`,
   * keep stepping while the seat is inactive and fewer than `n` steps were taken.
   */
  function WalkActive(players: seq<Player>, dir: int, next: int, iterations: nat): (j: int)
    requires 0 <= next < |players| && iterations <= |players|
    ensures 0 <= j < |players|
    decreases |players| - iterations
  {
    if !players[next].isActive && iterations < |players|
    then WalkActive(players, dir, StepIndex(next, dir, |players|), iterations + 1)
    else next
  }

  /** The index `getNextActivePlayerIndex` returns. */
  function NextActiveIndex(gs: GameState): (j: int)
    requires |gs.players| > 0
    ensures 0 <= j < |gs.players|
  {
    WalkActive(gs.players, gs.DirectionSign(), StepIndex(gs.currentPlayerIndex, gs.DirectionSign(), |gs.players|), 0)
  }

  /** `getNextActivePlayerIndex`: the `while` loop, bounded by the number of players. */
  method GetNextActivePlayerIndex(gs: GameState) returns (next: int)
    requires |gs.players| > 0
    ensures next == NextActiveIndex(gs)
    ensures 0 <= next < |gs.players|
  {
    var direction := if gs.direction == Clockwise then 1 else -1;
    var n := |gs.players|;
    next := Rem(gs.currentPlayerIndex + direction, n);
    if next < 0 {
      next := next + n;
    }
    assert next == StepIndex(gs.currentPlayerIndex, direction, n);
    var iterations := 0;
    while !gs.players[next].isActive && iterations < n
      invariant 0 <= iterations <= n && 0 <= next < n
      invariant WalkActive(gs.players, direction, next, iterations) == NextActiveIndex(gs)
      decreases n - iterations
    {
      next := Rem(next + direction, n);
      if next < 0 {
        next := next + n;
      }
      iterations := iterations + 1;
    }
  }

  /** Seat `d` is the first active seat met when walking from `cur`, one step at a time. */
  predicate FirstActiveAt(players: seq<Player>, dir: int, cur: int, d: int)
    requires |players| > 0
  {
    && 1 <= d <= |players|
    && players[Seat(cur, d, dir, |players|)].isActive
    && forall k :: 1 <= k < d ==> !players[Seat(cur, k, dir, |players|)].isActive
  }

  /** One more step from seat `k` lands on seat `k + 1`. */
  lemma SeatStep(cur: int, k: int, dir: int, n: int)
    requires n > 0 && (dir == 1 || dir == -1)
    ensures StepIndex(Seat(cur, k, dir, n), dir, n) == Seat(cur, k + 1, dir, n)
  {
    var a := if dir == 1 then cur + k else cur - k;
    var q, m := a / n, a % n;
    var q2, m2 := (m + dir) / n, (m + dir) % n;
    AddMultiple(a, n, q, m, m + dir, q2, m2, dir);
    ModUnique(a + dir, n, q + q2, m2);
  }

  /** Linear bookkeeping for `SeatStep`, kept apart from the modulo facts. */
  lemma AddMultiple(a: int, n: int, q: int, m: int, b: int, q2: int, m2: int, dir: int)
    requires a == n * q + m && b == m + dir && b == n * q2 + m2
    ensures a + dir == n * (q + q2) + m2
  {
    assert n * (q + q2) == n * q + n * q2;
  }

  /** After `n + 1` steps around `n` seats the walk is where it was after one. */
  lemma SeatWrap(cur: int, dir: int, n: int)
    requires n > 0 && (dir == 1 || dir == -1)
    ensures Seat(cur, n + 1, dir, n) == Seat(cur, 1, dir, n)
  {
    var q, m := (cur + dir) / n, (cur + dir) % n;
    assert cur + dir == n * q + m;
    var far := if dir == 1 then cur + (n + 1) else cur - (n + 1);
    assert far == n * (q + dir) + m;
    ModUnique(far, n, q + dir, m);
  }

  /** Every seat is met within `n` steps. */
  lemma SeatCovers(cur: int, dir: int, n: int, i: int)
    requires n > 0 && (dir == 1 || dir == -1) && 0 <= i < n
    ensures exists k :: 1 <= k <= n && Seat(cur, k, dir, n) == i
  {
    if dir == 1 {
      var q, m := (i - cur) / n, (i - cur) % n;
      assert i - cur == n * q + m;
      var k := if m == 0 then n else m;
      if m == 0 {
        assert cur + k == n * (1 - q) + i;
        ModUnique(cur + k, n, 1 - q, i);
      } else {
        assert cur + k == n * (-q) + i;
        ModUnique(cur + k, n, -q, i);
      }
      assert Seat(cur, k, dir, n) == i;
    } else {
      var q, m := (cur - i) / n, (cur - i) % n;
      assert cur - i == n * q + m;
      var k := if m == 0 then n else m;
      if m == 0 {
        assert cur - k == n * (q - 1) + i;
        ModUnique(cur - k, n, q - 1, i);
      } else {
        assert cur - k == n * q + i;
        ModUnique(cur - k, n, q, i);
      }
      assert Seat(cur, k, dir, n) == i;
    }
  }

  /** The walk, started at seat `it + 1` after `it` inactive seats, stops at the first active seat. */
  lemma {:induction false} WalkFindsFirstActive(players: seq<Player>, dir: int, cur: int, it: nat)
    requires |players| > 0 && (dir == 1 || dir == -1) && it <= |players|
    requires exists i :: 0 <= i < |players| && players[i].isActive
    requires forall k :: 1 <= k <= it ==> !players[Seat(cur, k, dir, |players|)].isActive
    ensures exists d :: (FirstActiveAt(players, dir, cur, d)
      && WalkActive(players, dir, Seat(cur, it + 1, dir, |players|), it) == Seat(cur, d, dir, |players|))
    decreases |players| - it
  {
    var n := |players|;
    var s := Seat(cur, it + 1, dir, n);
    if it == n {
      var i :| 0 <= i < n && players[i].isActive;
      SeatCovers(cur, dir, n, i);
      assert false;
    } else if players[s].isActive {
      assert FirstActiveAt(players, dir, cur, it + 1);
    } else {
      SeatStep(cur, it + 1, dir, n);
      WalkFindsFirstActive(players, dir, cur, it + 1);
    }
  }

  /** With nobody active, the walk goes all the way round and stops at seat `n + 1`. */
  lemma {:induction false} WalkNoneActive(players: seq<Player>, dir: int, cur: int, it: nat)
    requires |players| > 0 && (dir == 1 || dir == -1) && it <= |players|
    requires forall i :: 0 <= i < |players| ==> !players[i].isActive
    ensures WalkActive(players, dir, Seat(cur, it + 1, dir, |players|), it) == Seat(cur, |players| + 1, dir, |players|)
    decreases |players| - it
  {
    if it < |players| {
      SeatStep(cur, it + 1, dir, |players|);
      WalkNoneActive(players, dir, cur, it + 1);
    }
  }

  /**
   * When some player is active, `getNextActivePlayerIndex` returns the first active seat
   * after the current one in the direction of play.
   */
  lemma NextActiveIndexIsFirstActive(gs: GameState)
    requires |gs.players| > 0
    requires exists i :: 0 <= i < |gs.players| && gs.players[i].isActive
    ensures gs.players[NextActiveIndex(gs)].isActive
    ensures exists d :: (FirstActiveAt(gs.players, gs.DirectionSign(), gs.currentPlayerIndex, d)
      && NextActiveIndex(gs) == Seat(gs.currentPlayerIndex, d, gs.DirectionSign(), |gs.players|))
  {
    assert StepIndex(gs.currentPlayerIndex, gs.DirectionSign(), |gs.players|)
        == Seat(gs.currentPlayerIndex, 1, gs.DirectionSign(), |gs.players|);
    WalkFindsFirstActive(gs.players, gs.DirectionSign(), gs.currentPlayerIndex, 0);
  }

  /** When nobody is active, the loop gives up after a full round and returns the next seat. */
  lemma NextActiveIndexWhenNoneActive(gs: GameState)
    requires |gs.players| > 0
    requires forall i :: 0 <= i < |gs.players| ==> !gs.players[i].isActive
    ensures NextActiveIndex(gs) == StepIndex(gs.currentPlayerIndex, gs.DirectionSign(), |gs.players|)
  {
    var n, dir, cur := |gs.players|, gs.DirectionSign(), gs.currentPlayerIndex;
    assert StepIndex(cur, dir, n) == Seat(cur, 1, dir, n);
    WalkNoneActive(gs.players, dir, cur, 0);
    SeatWrap(cur, dir, n);
  }

  /**
   * `endTurn`: after one or two doubles in a row the same player rolls again; otherwise
   * play passes to the next active player and the turn counter advances.
   */
  function EndTurn(gs: GameState): (r: GameState)
    requires (1 <= gs.doubleCount <= 2) || |gs.players| > 0
    ensures 1 <= gs.doubleCount <= 2 ==>
      r == gs.(turnPhase := Start, lastDiceResult := None, currentCard := None)
    ensures !(1 <= gs.doubleCount <= 2) ==>
      r == gs.(currentPlayerIndex := NextActiveIndex(gs), currentTurn := gs.currentTurn + 1,
               turnPhase := Start, doubleCount := 0, lastDiceResult := None, currentCard := None)
    ensures ValidateStateTransition(End, r.turnPhase)
  {
    var samePlayer := 1 <= gs.doubleCount <= 2;
    var nextPlayerIndex := if samePlayer then gs.currentPlayerIndex else NextActiveIndex(gs);
    var newTurn := if !samePlayer then gs.currentTurn + 1 else gs.currentTurn;
    gs.(currentPlayerIndex := nextPlayerIndex, currentTurn := newTurn, turnPhase := Start,
        doubleCount := if samePlayer then gs.doubleCount else 0,
        lastDiceResult := None, currentCard := None)
  }

  // ---------------------------------------------------------------- phases

  /** The phase changes the validator accepts. */
  const LegalTransitions: set<(TurnPhase, TurnPhase)> := {
    (Start, DiceRoll), (DiceRoll, PlayerMove), (PlayerMove, TileEvent),
    (TileEvent, ActionResolution), (TileEvent, End), (ActionResolution, End), (End, Start)
  }

  /** `validateStateTransition`. */
  function ValidateStateTransition(from: TurnPhase, to: TurnPhase): (ok: bool)
    ensures ok <==> (from, to) in LegalTransitions
  {
    match from
    case Start => to == DiceRoll
    case DiceRoll => to == PlayerMove
    case PlayerMove => to == TileEvent
    case TileEvent => to == ActionResolution || to == End
    case ActionResolution => to == End
    case End => to == Start
  }
}
