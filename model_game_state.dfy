/** The whole state of a game in progress, as an immutable value. */
module GameStateModel {
  import opened Wrappers
  import opened Kotlin
  import opened CardModel
  import opened PlayerModel
  import opened TileModel

  datatype TurnPhase = Start | DiceRoll | PlayerMove | TileEvent | ActionResolution | End

  datatype GameStatus = Setup | Ready | InProgress | Ended

  datatype GameDirection = Clockwise | CounterClockwise

  const AllPhases: set<TurnPhase> := {Start, DiceRoll, PlayerMove, TileEvent, ActionResolution, End}
  const AllStatuses: set<GameStatus> := {Setup, Ready, InProgress, Ended}
  const AllDirections: set<GameDirection> := {Clockwise, CounterClockwise}

  datatype GameState = GameState(
    sessionId: string,
    randomSeed: int,
    players: seq<Player>,
    board: seq<Tile>,
    deck: seq<Card>,
    discardPile: seq<Card>,
    currentPlayerIndex: int,
    currentTurn: int,
    turnPhase: TurnPhase,
    status: GameStatus,
    direction: GameDirection,
    lastDiceResult: Option<int>,
    currentCard: Option<Card>,
    activeRules: seq<Card>,
    doubleCount: int,
    startTime: int)
  {
    /** `players[currentPlayerIndex]` does not throw. */
    predicate HasCurrentPlayer() {
      0 <= currentPlayerIndex < |players|
    }

    /** The `currentPlayer` getter. */
    function CurrentPlayer(): (p: Player)
      requires HasCurrentPlayer()
      ensures p in players
    {
      players[currentPlayerIndex]
    }

    /** `randomSeed + currentTurn`: the seed of every generator made during a turn. */
    function TurnSeed(): int {
      randomSeed + currentTurn
    }

    /** Whole minutes since the game started (`Long` division truncates toward zero). */
    function ElapsedMinutes(now: int): (m: int)
      ensures now >= startTime ==> m >= 0 && m * 60000 <= now - startTime < (m + 1) * 60000
    {
      Quot(now - startTime, 60000)
    }

    /** The `boardSize` getter. */
    function BoardSize(): (n: nat)
      ensures n == |board|
    {
      |board|
    }

    /** `+1` for clockwise play and `-1` otherwise. */
    function DirectionSign(): (d: int)
      ensures d == 1 || d == -1
      ensures d == 1 <==> direction == Clockwise
    {
      if direction == Clockwise then 1 else -1
    }

    /** Every card the state holds, wherever it lies. */
    function CardsInPlay(): multiset<Card> {
      multiset(deck) + multiset(discardPile) + (if currentCard.Some? then multiset{currentCard.value} else multiset{})
    }
  }

  function Flip(d: GameDirection): (r: GameDirection)
    ensures r != d
  {
    if d == Clockwise then CounterClockwise else Clockwise
  }

  /**
   * The constructor call with every defaulted parameter at its default; the clock reading
   * that `startTime` defaults to is passed in as `now`.
   */
  function NewGameState(sessionId: string, randomSeed: int, players: seq<Player>, board: seq<Tile>,
                        deck: seq<Card>, now: int): (gs: GameState)
    ensures gs.players == players && gs.board == board && gs.deck == deck
    ensures gs.discardPile == [] && gs.activeRules == []
    ensures gs.currentPlayerIndex == 0 && gs.currentTurn == 1
    ensures gs.turnPhase == Start && gs.status == Ready && gs.direction == Clockwise
    ensures gs.doubleCount == 0 && gs.lastDiceResult == None && gs.currentCard == None
    ensures gs.startTime == now
  {
    GameState(sessionId, randomSeed, players, board, deck, [], 0, 1, Start, Ready, Clockwise,
      None, None, [], 0, now)
  }

  /** There are exactly six turn phases, four statuses and two directions. */
  lemma EnumSizes()
    ensures forall p: TurnPhase :: p in AllPhases
    ensures forall s: GameStatus :: s in AllStatuses
    ensures forall d: GameDirection :: d in AllDirections
    ensures |AllPhases| == 6 && |AllStatuses| == 4 && |AllDirections| == 2
  {
    forall p: TurnPhase ensures p in AllPhases {
      match p
      case Start => case DiceRoll => case PlayerMove => case TileEvent => case ActionResolution => case End =>
    }
    forall s: GameStatus ensures s in AllStatuses {
      match s
      case Setup => case Ready => case InProgress => case Ended =>
    }
    forall d: GameDirection ensures d in AllDirections {
      match d
      case Clockwise => case CounterClockwise =>
    }
  }
}
