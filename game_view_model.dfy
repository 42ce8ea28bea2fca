/**
 * The game screen's view model: the setup roster, the running game, the session settings
 * and the difficulty state, and the commands that update them. The UI state is one value
 * the view model replaces as a whole (`_uiState.update { it.copy(...) }`).
 */
module ViewModel {
  import opened Wrappers
  import opened Kotlin
  import opened CardModel
  import opened PlayerModel
  import opened TileModel
  import opened DiceModel
  import opened DifficultyModel
  import opened SessionModel
  import opened GameStateModel
  import opened DdaDeck
  import Rand
  import InitializeGame
  import CardEffect
  import DrawCard
  import ProcessTurn
  import ApplyDDA
  import GameEnd
  import GameStatistics

  datatype GameUiState = GameUiState(
    players: seq<string>,
    selectedSeverity: Severity,
    hasSavedGame: bool,
    isGameStarted: bool,
    currentPlayerIndex: int,
    currentPlayerName: string,
    playerPositions: map<string, int>,
    turnPhase: TurnPhase,
    gameStatus: GameStatus,
    isRolling: bool,
    lastDiceResult: Option<DiceResult>,
    currentCard: Option<Card>,
    showCardDialog: bool,
    scaledPenaltyText: Option<string>,
    cardMessage: Option<CardEffect.Message>,
    requiresPlayerSelection: bool,
    allowedPlayerIndices: seq<int>,
    ddaMessage: Option<string>,
    showDdaBreakSuggestion: bool,
    totalTurns: int,
    cardsUsed: int)

  /** `GameUiState()` with every parameter at its default. */
  const DefaultUiState: GameUiState := GameUiState(
    ["플레이어 1", "플레이어 2"], Severity.Normal, false, false, 0, "", map[], Start, Setup,
    false, None, None, false, None, None, false, [], None, false, 0, 0)

  /** Everything the view model holds, as one value. */
  datatype ViewState = ViewState(
    ui: GameUiState,
    game: Option<GameState>,
    config: Option<SessionConfig>,
    difficulty: DifficultyState)

  const MaxPlayers: int := 6
  const MinPlayers: int := 2

  const BreakMessage: string := "잠시 휴식을 취하는 것은 어떨까요? 물 한 잔 마시고 돌아오세요!"
  const AdjustedMessage: string := "난이도가 조정되었습니다. 조금 더 편하게 즐기세요!"
  const ResetMessage: string := "난이도가 기본 상태로 초기화되었습니다."

  // ---------------------------------------------------------------------------
  // The setup roster

  /** What the setup screen keeps true: two to six names, none of them blank. */
  predicate RosterValid(names: seq<string>) {
    MinPlayers <= |names| <= MaxPlayers && forall i :: 0 <= i < |names| ==> !IsBlank(names[i])
  }

  /** The default roster is a valid one. */
  lemma DefaultRosterIsValid()
    ensures RosterValid(DefaultUiState.players)
  {
    var names := DefaultUiState.players;
    assert !IsWhitespace(names[0][0]) && !IsWhitespace(names[1][0]);
  }

  // ---------------------------------------------------------------------------
  // The board and the players of the sample game

  /** `createDefaultBoard`: sixteen squares numbered 0 to 15. */
  function DefaultBoard(): (b: seq<Tile>)
    ensures |b| == 16
  {
    [ Tile(0, StartTile, "출발", "게임 시작!"),
      Tile(1, CardTile, "카드", "카드를 뽑으세요"),
      Tile(2, CardTile, "카드", "카드를 뽑으세요"),
      Tile(3, EventTile, "이벤트", "특별 이벤트!"),
      Tile(4, CardTile, "카드", "카드를 뽑으세요"),
      Tile(5, SafeTile, "휴식", "잠시 쉬어가세요"),
      Tile(6, CardTile, "카드", "카드를 뽑으세요"),
      Tile(7, CardTile, "카드", "카드를 뽑으세요"),
      Tile(8, TrapTile, "함정", "벌칙 2배!"),
      Tile(9, CardTile, "카드", "카드를 뽑으세요"),
      Tile(10, EventTile, "이벤트", "방향 전환!"),
      Tile(11, CardTile, "카드", "카드를 뽑으세요"),
      Tile(12, CardTile, "카드", "카드를 뽑으세요"),
      Tile(13, SafeTile, "휴식", "물 마시기"),
      Tile(14, CardTile, "카드", "카드를 뽑으세요"),
      Tile(15, CardTile, "카드", "카드를 뽑으세요") ]
  }

  /**
   * The hand-written board has the base map's shape: as many squares as the base template,
   * square `i` at position `i`, the template's START square first and no other START.
   */
  lemma DefaultBoardMatchesBaseTemplate()
    ensures |DefaultBoard()| == InitializeGame.BaseMapTemplate().boardSize
    ensures forall i :: 0 <= i < |DefaultBoard()| ==> DefaultBoard()[i].position == i
    ensures SortedByPosition(DefaultBoard())
    ensures DefaultBoard()[0] == InitializeGame.StartTileOfBase
    ensures forall i :: 1 <= i < |DefaultBoard()| ==> DefaultBoard()[i].tileType != StartTile
  {
    var b := DefaultBoard();
    assert forall i :: 0 <= i < 16 ==> b[i].position == i;
  }

  /** `associate { it.id to it.position }`: a later player with the same id wins. */
  function PlayerPositions(players: seq<Player>): (m: map<string, int>)
    ensures forall id :: id in m <==> exists i :: 0 <= i < |players| && players[i].id == id
    ensures CardEffect.DistinctIds(players) ==>
      forall i :: 0 <= i < |players| ==> m[players[i].id] == players[i].position
    decreases |players|
  {
    if players == [] then map[]
    else
      var init := players[..|players| - 1];
      var last := players[|players| - 1];
      var m := PlayerPositions(init);
      assert forall i :: 0 <= i < |init| ==> init[i] == players[i];
      m[last.id := last.position]
  }

  /** The game `startGameWithoutCards` builds from the roster and three clock readings. */
  function SampleGame(names: seq<string>, sessionClock: int, seedClock: int, startClock: int): (gs: GameState)
    ensures gs.players == InitializeGame.InitialPlayers(names)
    ensures |names| > 0 ==> gs.HasCurrentPlayer() && gs.CurrentPlayer().nickname == names[0]
  {
    GameState("session_" + IntToString(sessionClock), seedClock, InitializeGame.InitialPlayers(names),
      DefaultBoard(), InitializeGame.SampleCards(), [], 0, 1, Start, InProgress, Clockwise,
      None, None, [], 0, startClock)
  }

  /**
   * The sample game is ready to play: the first player is on turn 1 at START with the ten
   * sample cards in the deck, nothing discarded, every player distinct and on square 0.
   */
  lemma SampleGameIsPlayable(names: seq<string>, sessionClock: int, seedClock: int, startClock: int)
    requires |names| >= MinPlayers
    ensures var gs := SampleGame(names, sessionClock, seedClock, startClock);
      && gs.HasCurrentPlayer() && gs.currentPlayerIndex == 0 && gs.currentTurn == 1
      && gs.turnPhase == Start && gs.status == InProgress
      && |gs.deck| == 10 && gs.discardPile == [] && |gs.board| == 16
      && CardEffect.DistinctIds(gs.players)
      && forall id :: id in PlayerPositions(gs.players) ==> PlayerPositions(gs.players)[id] == 0
  {
    var gs := SampleGame(names, sessionClock, seedClock, startClock);
    InitializeGame.InitialPlayersHaveDistinctIds(names);
    var m := PlayerPositions(gs.players);
    forall id | id in m ensures m[id] == 0 {
      var i :| 0 <= i < |gs.players| && gs.players[i].id == id;
    }
  }

  // ---------------------------------------------------------------------------
  // Difficulty adjustments, as changes to the whole view state

  /** The safe card the penalty reduction adds, named after the clock reading `now`. */
  function DdaSafeCard(now: int): (c: Card)
    ensures c.cardType == Safe && c.targetType == Self && c.severity == Mild && c.penaltyScale == 0.0
    ensures c.cardPackId == "dda" && !c.isCustom && c.cardId == "dda_safe_" + IntToString(now)
  {
    Card("dda_safe_" + IntToString(now), "dda", Safe, Self, "휴식 타임",
      "잠시 쉬어가세요. 물을 마시며 휴식하세요.", Mild, 0.0, None, false)
  }

  /** The rest card put on top of the deck. */
  function DdaRestCard(now: int): (c: Card)
    ensures c.cardType == Safe && c.targetType == Self && c.severity == Mild && c.penaltyScale == 0.0
    ensures c.cardPackId == "dda" && !c.isCustom && c.cardId == "dda_rest_" + IntToString(now)
  {
    Card("dda_rest_" + IntToString(now), "dda", Safe, Self, "DDA 휴식권",
      "게임에서 자동으로 제공된 휴식 기회입니다.", Mild, 0.0, None, false)
  }

  /**
   * `handleDDAAction`: an adjustment never touches the settings, and changes nothing of a
   * game but its deck.
   */
  function ApplyDDAAction(s: ViewState, action: DDAAction, now: int): (r: ViewState)
    ensures r.config == s.config
    ensures r.game.Some? <==> s.game.Some?
    ensures s.game.Some? ==> r.game.value == s.game.value.(deck := r.game.value.deck)
  {
    match action
    case SuggestBreak =>
      s.(ui := s.ui.(showDdaBreakSuggestion := true, ddaMessage := Some(BreakMessage)))
    case ReducePenaltyProbability(reduction) =>
      if s.game.None? then s
      else
        var state := s.game.value;
        if ReplacementCount(state.deck, reduction) > 0 && PenaltyCards(state.deck) != [] then
          var deck := ReplaceCards(state.deck, ReplacementCount(state.deck, reduction), DdaSafeCard(now));
          s.(game := Some(state.(deck := Rand.ShuffledWithSeed(deck, state.TurnSeed()))),
             ui := s.ui.(ddaMessage := Some(AdjustedMessage)))
        else s
    case IncreaseRestProbability(_) =>
      if s.game.None? then s
      else s.(game := Some(s.game.value.(deck := [DdaRestCard(now)] + s.game.value.deck)))
    case ResetDifficulty =>
      s.(difficulty := DefaultDifficultyState, ui := s.ui.(ddaMessage := Some(ResetMessage)))
  }

  /** The penalty reduction, in terms of the outcome of the deck edit and shuffle. */
  lemma ReductionOutcome(s: ViewState, reduction: real, now: int, shuffled: seq<Card>, replaced: bool)
    requires s.game.Some?
    requires var deck := s.game.value.deck;
      && (replaced <==> ReplacementCount(deck, reduction) > 0 && PenaltyCards(deck) != [])
      && (replaced ==> shuffled == Rand.ShuffledWithSeed(ReplaceCards(deck, ReplacementCount(deck, reduction), DdaSafeCard(now)),
                                                         s.game.value.TurnSeed()))
    ensures replaced ==>
      ApplyDDAAction(s, DDAAction.ReducePenaltyProbability(reduction), now)
      == s.(game := Some(s.game.value.(deck := shuffled)), ui := s.ui.(ddaMessage := Some(AdjustedMessage)))
    ensures !replaced ==> ApplyDDAAction(s, DDAAction.ReducePenaltyProbability(reduction), now) == s
  {
  }

  /** Swap penalty cards for safe cards, shuffle, and say so, as the adjustment does it. */
  method ReducedView(s: ViewState, reduction: real, now: int) returns (r: ViewState)
    requires s.game.Some?
    ensures r == ApplyDDAAction(s, DDAAction.ReducePenaltyProbability(reduction), now)
    ensures r.config == s.config && r.difficulty == s.difficulty
  {
    var state := s.game.value;
    var shuffledDeck, replaced :=
      ReplaceAndShuffle(state.deck, reduction, DdaSafeCard(now), state.TurnSeed());
    ReductionOutcome(s, reduction, now, shuffledDeck, replaced);
    r := s;
    if replaced {
      r := s.(game := Some(state.(deck := shuffledDeck)), ui := s.ui.(ddaMessage := Some(AdjustedMessage)));
    }
  }

  /** `actions.forEach { handleDDAAction(it) }`. */
  function ApplyDDAActions(s: ViewState, actions: seq<DDAAction>, now: int): (r: ViewState)
    ensures r.config == s.config
    ensures r.game.Some? <==> s.game.Some?
    ensures s.game.Some? ==> r.game.value == s.game.value.(deck := r.game.value.deck)
    decreases |actions|
  {
    if actions == [] then s
    else ApplyDDAAction(ApplyDDAActions(s, actions[..|actions| - 1], now), actions[|actions| - 1], now)
  }

  /**
   * The penalty reduction leaves a shuffle of the edited deck: with distinct penalty cards
   * and a rate in [0, 1], a deck of the same size holding `n` fewer penalty cards.
   */
  lemma ReductionReplacesPenalties(s: ViewState, reduction: real, now: int)
    requires s.game.Some? && 0.0 <= reduction <= 1.0
    requires Distinct(PenaltyCards(s.game.value.deck))
    ensures var deck := s.game.value.deck;
      var r := ApplyDDAAction(s, ReducePenaltyProbability(reduction), now);
      if ReplacementCount(deck, reduction) > 0 && PenaltyCards(deck) != [] then
        && multiset(r.game.value.deck) == multiset(ReplaceCards(deck, ReplacementCount(deck, reduction), DdaSafeCard(now)))
        && |r.game.value.deck| == |deck|
        && |PenaltyCards(ReplaceCards(deck, ReplacementCount(deck, reduction), DdaSafeCard(now)))|
           == |PenaltyCards(deck)| - ReplacementCount(deck, reduction)
        && r.ui.ddaMessage == Some(AdjustedMessage)
      else r == s
  {
    var deck := s.game.value.deck;
    if ReplacementCount(deck, reduction) > 0 && PenaltyCards(deck) != [] {
      ReductionKeepsDeckSize(deck, reduction, DdaSafeCard(now));
    }
  }

  /** The rest boost puts one safe card on top of the deck and keeps the rest in order. */
  lemma RestBoostPutsSafeCardOnTop(s: ViewState, increase: real, now: int)
    requires s.game.Some?
    ensures var r := ApplyDDAAction(s, IncreaseRestProbability(increase), now);
      && |r.game.value.deck| == |s.game.value.deck| + 1
      && r.game.value.deck[0].cardType == Safe
      && r.game.value.deck[1..] == s.game.value.deck
      && r.ui == s.ui && r.difficulty == s.difficulty
  {
  }

  /** A reset restores the default difficulty and leaves the game alone. */
  lemma ResetRestoresDefault(s: ViewState, now: int)
    ensures var r := ApplyDDAAction(s, ResetDifficulty, now);
      r.difficulty == DefaultDifficultyState && r.game == s.game && r.ui.ddaMessage == Some(ResetMessage)
  {
  }

  /** Without a game only the UI flags and the difficulty can change. */
  lemma NoGameNoDeckChange(s: ViewState, actions: seq<DDAAction>, now: int)
    requires s.game.None?
    ensures ApplyDDAActions(s, actions, now).game == None
  {
  }

  /** `updateDDA(state)`: nothing without settings or with DDA switched off. */
  function AfterUpdateDDA(s: ViewState, state: GameState, now: int): (r: ViewState)
    requires s.config.Some? && s.config.value.enableDDA ==>
      state.HasCurrentPlayer() && ApplyDDA.RulesUsable(s.config.value.ddaRules)
    ensures s.config.None? || !s.config.value.enableDDA ==> r == s
    ensures r.config == s.config && (r.game.Some? <==> s.game.Some?)
    ensures s.game.Some? ==> r.game.value == s.game.value.(deck := r.game.value.deck)
  {
    if s.config.None? || !s.config.value.enableDDA then s
    else
      var rules := s.config.value.ddaRules;
      var cp := state.CurrentPlayer().consecutivePenalties;
      var minutes := state.ElapsedMinutes(now);
      var f := ApplyDDA.CalculateFatigue(minutes, cp, s.difficulty.restCardUsedCount, rules);
      var difficulty := s.difficulty.(currentDifficultyLevel := ApplyDDA.CalculateDifficultyLevel(f, cp),
        consecutivePenaltyCount := cp, totalPlayTimeMinutes := minutes,
        playerFatigueLevel := f, lastAdjustmentTime := now);
      ApplyDDAActions(s.(difficulty := difficulty), ApplyDDA.ExpectedActions(cp, minutes, f, rules), now)
  }

  // ---------------------------------------------------------------------------
  // Ending a turn and ending the game

  /** `endGame`: only the UI learns that the game is over; the game state keeps its status. */
  function AfterEndGame(s: ViewState, now: int): (r: ViewState)
    ensures r.game == s.game && r.config == s.config && r.difficulty == s.difficulty
    ensures s.game.None? ==> r == s
    ensures s.game.Some? ==>
      r.ui.gameStatus == Ended && r.ui.totalTurns == s.game.value.currentTurn
      && r.ui.cardsUsed == |s.game.value.discardPile|
  {
    if s.game.None? then s
    else
      var statistics := GameStatistics.Calculate(s.game.value, now);
      s.(ui := s.ui.(gameStatus := Ended, totalTurns := statistics.totalTurns, cardsUsed := statistics.totalCardsUsed))
  }

  /** What `endTurn` needs to run without an exception. */
  predicate CanEndTurn(s: ViewState) {
    && (s.game.Some? ==> s.game.value.HasCurrentPlayer())
    && (s.config.Some? && s.config.value.enableDDA ==> ApplyDDA.RulesUsable(s.config.value.ddaRules))
  }

  /** `endTurn`: the end check and the difficulty update run only when settings are present. */
  function AfterEndTurn(s: ViewState, now: int): (r: ViewState)
    requires CanEndTurn(s)
    ensures r.config == s.config
  {
    if s.game.None? then s
    else
      var state := s.game.value;
      if s.config.Some? && GameEnd.CheckEnd(state, s.config.value, now).0 then AfterEndGame(s, now)
      else
        var newState := ProcessTurn.EndTurn(state);
        assert newState.HasCurrentPlayer();
        var d := AfterUpdateDDA(s.(game := Some(newState)), newState, now);
        d.(ui := d.ui.(currentPlayerIndex := newState.currentPlayerIndex,
                       currentPlayerName := newState.CurrentPlayer().nickname,
                       turnPhase := newState.turnPhase, lastDiceResult := None))
  }

  /**
   * A turn always ends when no settings are held, however the game stands: no end check,
   * no difficulty update, and the next player is shown.
   */
  lemma WithoutSettingsTheTurnAlwaysEnds(s: ViewState, now: int)
    requires CanEndTurn(s) && s.game.Some? && s.config.None?
    ensures var r := AfterEndTurn(s, now);
      && r.game == Some(ProcessTurn.EndTurn(s.game.value))
      && r.difficulty == s.difficulty
      && r.ui.gameStatus == s.ui.gameStatus
      && r.ui.currentPlayerIndex == ProcessTurn.EndTurn(s.game.value).currentPlayerIndex
      && r.ui.turnPhase == Start && r.ui.lastDiceResult == None
  {
  }

  /**
   * When the end check fires, the turn does not advance: the game state is kept as it was
   * (still IN_PROGRESS) and only the UI shows ENDED and the totals.
   */
  lemma EndCheckStopsTheTurn(s: ViewState, now: int)
    requires CanEndTurn(s) && s.game.Some? && s.config.Some?
    requires GameEnd.CheckEnd(s.game.value, s.config.value, now).0
    ensures var r := AfterEndTurn(s, now);
      && r.game == s.game && r.difficulty == s.difficulty
      && r.ui.gameStatus == Ended && r.ui.totalTurns == s.game.value.currentTurn
  {
  }

  /** A continuing turn changes the game as `endTurn` does, and the deck at most. */
  lemma ContinuingTurnOnlyAdjustsTheDeck(s: ViewState, now: int)
    requires CanEndTurn(s) && s.game.Some?
    requires s.config.None? || !GameEnd.CheckEnd(s.game.value, s.config.value, now).0
    ensures var r := AfterEndTurn(s, now);
      var e := ProcessTurn.EndTurn(s.game.value);
      && r.game.Some? && r.game.value == e.(deck := r.game.value.deck)
      && r.ui.currentPlayerIndex == e.currentPlayerIndex && r.ui.turnPhase == Start
  {
  }

  /** Executing a card leaves the turn where it was: same player, turn, phase and doubles. */
  lemma CardExecutionKeepsTheTurn(gs: GameState, card: Card, target: Option<int>)
    requires CardEffect.CanExecute(gs, card, target)
    ensures var res := CardEffect.Execute(gs, card, target);
      var after := DrawCard.DiscardCard(res.updatedGameState, card);
      && after.currentPlayerIndex == gs.currentPlayerIndex && after.currentTurn == gs.currentTurn
      && after.turnPhase == gs.turnPhase && after.doubleCount == gs.doubleCount
      && after.discardPile == gs.discardPile + [card]
  {
  }

  // ---------------------------------------------------------------------------
  // The view model

  class GameViewModel {
    var uiState: GameUiState
    var gameState: Option<GameState>
    var sessionConfig: Option<SessionConfig>
    var difficultyState: DifficultyState

    function View(): ViewState
      reads this
    {
      ViewState(uiState, gameState, sessionConfig, difficultyState)
    }

    constructor ()
      ensures View() == ViewState(DefaultUiState, None, None, DefaultDifficultyState)
      ensures RosterValid(uiState.players)
    {
      uiState := DefaultUiState;
      gameState := None;
      sessionConfig := None;
      difficultyState := DefaultDifficultyState;
      DefaultRosterIsValid();
    }

    /** `addPlayer`: a sixth name at most, blank names refused, the name trimmed. */
    method AddPlayer(name: string)
      modifies this
      ensures |old(uiState.players)| < MaxPlayers && !IsBlank(name) ==>
        uiState == old(uiState).(players := old(uiState.players) + [Trim(name)])
      ensures !(|old(uiState.players)| < MaxPlayers && !IsBlank(name)) ==> uiState == old(uiState)
      ensures gameState == old(gameState) && sessionConfig == old(sessionConfig)
      ensures difficultyState == old(difficultyState)
      ensures old(RosterValid(uiState.players)) ==> RosterValid(uiState.players)
    {
      if |uiState.players| < MaxPlayers && !IsBlank(name) {
        var trimmed := Trim(name);
        assert !IsBlank(trimmed) by {
          assert !IsWhitespace(trimmed[0]);
        }
        uiState := uiState.(players := uiState.players + [trimmed]);
      }
    }

    /** `removePlayer`: only while more than two names are left; `removeAt` needs a valid index. */
    method RemovePlayer(index: int)
      requires |uiState.players| > MinPlayers ==> 0 <= index < |uiState.players|
      modifies this
      ensures |old(uiState.players)| > MinPlayers ==>
        uiState == old(uiState).(players := old(uiState.players)[..index] + old(uiState.players)[index + 1..])
      ensures |old(uiState.players)| <= MinPlayers ==> uiState == old(uiState)
      ensures gameState == old(gameState) && sessionConfig == old(sessionConfig)
      ensures difficultyState == old(difficultyState)
      ensures old(RosterValid(uiState.players)) ==> RosterValid(uiState.players)
    {
      if |uiState.players| > MinPlayers {
        var names := uiState.players;
        var rest := names[..index] + names[index + 1..];
        assert forall i :: 0 <= i < |rest| ==> rest[i] == if i < index then names[i] else names[i + 1];
        uiState := uiState.(players := rest);
      }
    }

    method SetSeverity(severity: Severity)
      modifies this
      ensures View() == old(View()).(ui := old(uiState).(selectedSeverity := severity))
    {
      uiState := uiState.(selectedSeverity := severity);
    }

    /**
     * `startGame`: with at least two names, the sample game. The settings are not set,
     * so `sessionConfig` stays as it was. The three clock readings are parameters.
     */
    method StartGame(sessionClock: int, seedClock: int, startClock: int)
      modifies this
      ensures |old(uiState.players)| < MinPlayers ==> View() == old(View())
      ensures |old(uiState.players)| >= MinPlayers ==>
        && gameState == Some(SampleGame(old(uiState.players), sessionClock, seedClock, startClock))
        && uiState == old(uiState).(isGameStarted := true, currentPlayerIndex := 0,
             currentPlayerName := old(uiState.players)[0],
             playerPositions := PlayerPositions(InitializeGame.InitialPlayers(old(uiState.players))),
             turnPhase := Start, gameStatus := InProgress)
      ensures sessionConfig == old(sessionConfig) && difficultyState == old(difficultyState)
    {
      if |uiState.players| < MinPlayers {
        return;
      }
      StartGameWithoutCards(sessionClock, seedClock, startClock);
    }

    method StartGameWithoutCards(sessionClock: int, seedClock: int, startClock: int)
      requires |uiState.players| > 0
      modifies this
      ensures gameState == Some(SampleGame(old(uiState.players), sessionClock, seedClock, startClock))
      ensures uiState == old(uiState).(isGameStarted := true, currentPlayerIndex := 0,
        currentPlayerName := old(uiState.players)[0],
        playerPositions := PlayerPositions(InitializeGame.InitialPlayers(old(uiState.players))),
        turnPhase := Start, gameStatus := InProgress)
      ensures sessionConfig == old(sessionConfig) && difficultyState == old(difficultyState)
    {
      var players := InitializeGame.InitialPlayers(uiState.players);
      var board := DefaultBoard();
      var deck := InitializeGame.SampleCards();
      gameState := Some(GameState("session_" + IntToString(sessionClock), seedClock, players, board, deck,
        [], 0, 1, Start, InProgress, Clockwise, None, None, [], 0, startClock));
      uiState := uiState.(isGameStarted := true, currentPlayerIndex := 0,
        currentPlayerName := players[0].nickname, playerPositions := PlayerPositions(players),
        turnPhase := Start, gameStatus := InProgress, players := uiState.players);
    }

    /** `handleDDAAction`; `now` is the clock reading the new card ids are made from. */
    method HandleDDAAction(action: DDAAction, now: int)
      modifies this
      ensures View() == ApplyDDAAction(old(View()), action, now)
    {
      match action
      case SuggestBreak =>
        uiState := uiState.(showDdaBreakSuggestion := true, ddaMessage := Some(BreakMessage));
      case ReducePenaltyProbability(reduction) =>
        ReducePenaltyProbability(reduction, now);
      case IncreaseRestProbability(_) =>
        if gameState.Some? {
          var state := gameState.value;
          gameState := Some(state.(deck := [DdaRestCard(now)] + state.deck));
        }
      case ResetDifficulty =>
        difficultyState := DefaultDifficultyState;
        uiState := uiState.(ddaMessage := Some(ResetMessage));
    }

    /** The penalty-reduction branch of `handleDDAAction`. */
    method ReducePenaltyProbability(reduction: real, now: int)
      modifies this
      ensures View() == ApplyDDAAction(old(View()), DDAAction.ReducePenaltyProbability(reduction), now)
    {
      if gameState.Some? {
        var r := ReducedView(View(), reduction, now);
        gameState := r.game;
        uiState := r.ui;
      }
    }

    /** `updateDDA(state)`: recompute the difficulty, then apply each proposed action in order. */
    method UpdateDDA(state: GameState, now: int)
      requires sessionConfig.Some? && sessionConfig.value.enableDDA ==>
        state.HasCurrentPlayer() && ApplyDDA.RulesUsable(sessionConfig.value.ddaRules)
      modifies this
      ensures View() == AfterUpdateDDA(old(View()), state, now)
    {
      if sessionConfig.Some? && sessionConfig.value.enableDDA {
        var newState, actions := ApplyDDA.UpdateDifficultyState(difficultyState, state, sessionConfig.value.ddaRules, now);
        difficultyState := newState;
        HandleDDAActions(actions, now);
      }
    }

    /** `actions.forEach { handleDDAAction(it) }`. */
    method HandleDDAActions(actions: seq<DDAAction>, now: int)
      modifies this
      ensures View() == ApplyDDAActions(old(View()), actions, now)
    {
      ghost var start := View();
      for i := 0 to |actions|
        invariant View() == ApplyDDAActions(start, actions[..i], now)
      {
        assert actions[..i + 1][..i] == actions[..i];
        HandleDDAAction(actions[i], now);
      }
      assert actions[..|actions|] == actions;
    }

    /** `endGame`: the statistics of the held game go to the UI. */
    method EndGame(now: int)
      modifies this
      ensures View() == AfterEndGame(old(View()), now)
    {
      if gameState.Some? {
        var statistics := GameStatistics.Calculate(gameState.value, now);
        uiState := uiState.(gameStatus := Ended, totalTurns := statistics.totalTurns,
          cardsUsed := statistics.totalCardsUsed);
      }
    }

    /** `forceEndGame`: `endGame` with the reason "user request", which is only logged. */
    method ForceEndGame(now: int)
      modifies this
      ensures View() == AfterEndGame(old(View()), now)
    {
      EndGame(now);
    }

    /** `endTurn`; one clock reading `now` stands for the end check's, the DDA's and the card ids'. */
    method EndTurn(now: int)
      requires CanEndTurn(View())
      modifies this
      ensures View() == AfterEndTurn(old(View()), now)
    {
      if gameState.None? {
        return;
      }
      var state := gameState.value;
      if sessionConfig.Some? {
        var (shouldEnd, _) := GameEnd.CheckEnd(state, sessionConfig.value, now);
        if shouldEnd {
          EndGame(now);
          return;
        }
      }
      var newState := ProcessTurn.EndTurn(state);
      gameState := Some(newState);
      UpdateDDA(newState, now);
      uiState := uiState.(currentPlayerIndex := newState.currentPlayerIndex,
        currentPlayerName := newState.CurrentPlayer().nickname,
        turnPhase := newState.turnPhase, lastDiceResult := None);
    }

    /**
     * `executeCard`: when a target must be chosen, only the UI changes; otherwise the card's
     * effect is applied and the card discarded. The turn is not ended here.
     */
    method ExecuteCard(targetPlayerIndex: Option<int>)
      requires gameState.Some? && uiState.currentCard.Some? ==>
        CardEffect.CanExecute(gameState.value, uiState.currentCard.value, targetPlayerIndex)
      modifies this
      ensures old(gameState).None? || old(uiState.currentCard).None? ==> View() == old(View())
      ensures old(gameState).Some? && old(uiState.currentCard).Some? ==>
        var card := old(uiState.currentCard).value;
        var res := CardEffect.Execute(old(gameState).value, card, targetPlayerIndex);
        if res.requiresPlayerSelection then
          && gameState == old(gameState)
          && uiState == old(uiState).(cardMessage := Some(res.message), requiresPlayerSelection := true,
                                      allowedPlayerIndices := res.allowedPlayerIndices)
        else
          && gameState == Some(DrawCard.DiscardCard(res.updatedGameState, card))
          && uiState == old(uiState).(currentCard := None, cardMessage := Some(res.message),
               showCardDialog := false, requiresPlayerSelection := false,
               playerPositions := PlayerPositions(res.updatedPlayers))
      ensures sessionConfig == old(sessionConfig) && difficultyState == old(difficultyState)
    {
      if gameState.None? || uiState.currentCard.None? {
        return;
      }
      var state := gameState.value;
      var card := uiState.currentCard.value;
      var result := CardEffect.Execute(state, card, targetPlayerIndex);
      if result.requiresPlayerSelection {
        uiState := uiState.(cardMessage := Some(result.message), requiresPlayerSelection := true,
          allowedPlayerIndices := result.allowedPlayerIndices);
        return;
      }
      gameState := Some(result.updatedGameState);
      gameState := Some(DrawCard.DiscardCard(result.updatedGameState, card));
      uiState := uiState.(currentCard := None, cardMessage := Some(result.message), showCardDialog := false,
        requiresPlayerSelection := false, playerPositions := PlayerPositions(result.updatedPlayers));
    }

    method DismissCardDialog()
      modifies this
      ensures View() == old(View()).(ui := old(uiState).(showCardDialog := false, currentCard := None,
        cardMessage := None, requiresPlayerSelection := false))
    {
      uiState := uiState.(showCardDialog := false, currentCard := None, cardMessage := None,
        requiresPlayerSelection := false);
    }

    method ConsumeDdaMessage()
      modifies this
      ensures View() == old(View()).(ui := old(uiState).(ddaMessage := None))
    {
      uiState := uiState.(ddaMessage := None);
    }

    method DismissBreakSuggestion()
      modifies this
      ensures View() == old(View()).(ui := old(uiState).(showDdaBreakSuggestion := false))
    {
      uiState := uiState.(showDdaBreakSuggestion := false);
    }

    /** `resetGame`: game, settings and UI back to their defaults; the difficulty state is kept. */
    method ResetGame()
      modifies this
      ensures View() == ViewState(DefaultUiState, None, None, old(difficultyState))
    {
      gameState := None;
      sessionConfig := None;
      uiState := DefaultUiState;
    }
  }

  /**
   * A freshly started view model never runs the end check or the difficulty update: its
   * settings stay empty through `startGame`, so every `endTurn` just passes the turn on.
   */
  method StartedGameSkipsTheEndCheck(vm: GameViewModel, sessionClock: int, seedClock: int, startClock: int, now: int)
    requires vm.sessionConfig.None? && |vm.uiState.players| >= MinPlayers
    modifies vm
    ensures vm.sessionConfig.None? && vm.difficultyState == old(vm.difficultyState)
    ensures vm.gameState == Some(ProcessTurn.EndTurn(SampleGame(old(vm.uiState.players), sessionClock, seedClock, startClock)))
  {
    vm.StartGame(sessionClock, seedClock, startClock);
    SampleGameIsPlayable(old(vm.uiState.players), sessionClock, seedClock, startClock);
    vm.EndTurn(now);
  }
}
