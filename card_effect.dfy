/**
 * What a drawn card does to the players and the game: penalties by target, missions and
 * rules that only display text, events that may reverse the direction, safe cards that
 * reset a streak.
 */
module CardEffect {
  import opened Wrappers
  import opened Kotlin
  import opened CardModel
  import opened PlayerModel
  import opened GameStateModel
  import opened ScalePenalty

  /**
   * The message shown for the outcome. Messages that embed the penalty multiplier keep
   * it as a number, since the decimal rendering of a Float is not modelled.
   */
  datatype Message =
    | PenaltySelfMessage(nickname: string, title: string, amount: real)
    | SelectTargetMessage
    | PenaltyTargetMessage(nickname: string, targetNickname: string, amount: real)
    | PenaltyAllMessage(amount: real)
    | PenaltyAllExceptSelfMessage(nickname: string, amount: real)
    | MissionMessage(description: string)
    | RuleMessage(description: string)
    | EventMessage(description: string)
    | SafeMessage(nickname: string, description: string)
  {
    /** The text of the messages that carry no multiplier. */
    function Text(): string
      requires SelectTargetMessage? || MissionMessage? || RuleMessage? || EventMessage? || SafeMessage?
    {
      match this
      case SelectTargetMessage => "벌칙을 받을 플레이어를 선택하세요"
      case MissionMessage(d) => "미션: " + d
      case RuleMessage(d) => "새로운 규칙: " + d
      case EventMessage(d) => "이벤트: " + d
      case SafeMessage(n, d) => n + "님 축하합니다! " + d
    }
  }

  datatype CardExecutionResult = CardExecutionResult(
    updatedGameState: GameState,
    updatedPlayers: seq<Player>,
    message: Message,
    requiresPlayerSelection: bool,
    allowedPlayerIndices: seq<int>)

  /** The same players in the same order: count and ids. */
  predicate SameIds(a: seq<Player>, b: seq<Player>) {
    |a| == |b| && forall i :: 0 <= i < |a| ==> a[i].id == b[i].id
  }

  /** The same seats: count, order, ids, nicknames and positions. */
  predicate SameSeats(a: seq<Player>, b: seq<Player>) {
    && SameIds(a, b)
    && forall i :: 0 <= i < |a| ==> a[i].nickname == b[i].nickname && a[i].position == b[i].position
  }

  predicate DistinctIds(ps: seq<Player>) {
    forall i, j :: 0 <= i < j < |ps| ==> ps[i].id != ps[j].id
  }

  /** `players.map { if (it.id == id) updated else it }`. */
  function ReplaceById(ps: seq<Player>, id: string, updated: Player): (r: seq<Player>)
    ensures |r| == |ps|
    ensures forall i :: 0 <= i < |ps| ==> r[i] == (if ps[i].id == id then updated else ps[i])
  {
    seq(|ps|, i requires 0 <= i < |ps| => if ps[i].id == id then updated else ps[i])
  }

  /** `players.indices.filter { it != skip }` over the indices from `lo` on. */
  function IndicesExcept(lo: int, n: int, skip: int): (r: seq<int>)
    ensures forall x :: x in r <==> lo <= x < n && x != skip
    ensures forall i, j :: 0 <= i < j < |r| ==> r[i] < r[j]
    ensures forall i :: 0 <= i < |r| ==> lo <= r[i]
    decreases n - lo
  {
    if lo >= n then []
    else (if lo != skip then [lo] else []) + IndicesExcept(lo + 1, n, skip)
  }

  /** The whole number of penalties a penalty card adds: the multiplier truncated by `toInt()`. */
  function PenaltyUnits(gs: GameState, card: Card): (u: int)
    requires gs.HasCurrentPlayer()
    ensures u >= 0 && u as real <= Scale(card.penaltyScale, gs, gs.CurrentPlayer())
  {
    Trunc(Scale(card.penaltyScale, gs, gs.CurrentPlayer()))
  }

  /** PENALTY on SELF: the current player (matched by id) takes the penalty and extends the streak. */
  function PenaltySelf(gs: GameState, card: Card): (res: CardExecutionResult)
    requires gs.HasCurrentPlayer()
    ensures res.updatedPlayers == res.updatedGameState.players
    ensures res.updatedGameState == gs.(players := res.updatedPlayers)
    ensures !res.requiresPlayerSelection && res.allowedPlayerIndices == []
    ensures SameIds(gs.players, res.updatedPlayers)
    ensures DistinctIds(gs.players) ==> SameSeats(gs.players, res.updatedPlayers)
    ensures var cur, u := gs.CurrentPlayer(), PenaltyUnits(gs, card);
      forall i :: 0 <= i < |gs.players| ==>
        res.updatedPlayers[i] == if gs.players[i].id == cur.id
          then cur.(penaltyCount := cur.penaltyCount + u, consecutivePenalties := cur.consecutivePenalties + 1)
          else gs.players[i]
  {
    var currentPlayer := gs.CurrentPlayer();
    var scaledPenalty := Scale(card.penaltyScale, gs, currentPlayer);
    var updatedPlayer := currentPlayer.(penaltyCount := currentPlayer.penaltyCount + PenaltyUnits(gs, card),
                                        consecutivePenalties := currentPlayer.consecutivePenalties + 1);
    var updatedPlayers := ReplaceById(gs.players, currentPlayer.id, updatedPlayer);
    CardExecutionResult(gs.(players := updatedPlayers), updatedPlayers,
      PenaltySelfMessage(currentPlayer.nickname, card.title, scaledPenalty), false, [])
  }

  /**
   * PENALTY on TARGET_ONE: without a target the caller is asked to pick one among everybody
   * but the current player; with a target, that seat takes the penalty and extends its streak.
   */
  function PenaltyTargetOne(gs: GameState, card: Card, targetPlayerIndex: Option<int>): (res: CardExecutionResult)
    requires gs.HasCurrentPlayer()
    requires targetPlayerIndex.Some? ==> 0 <= targetPlayerIndex.value < |gs.players|
    ensures res.updatedPlayers == res.updatedGameState.players
    ensures res.updatedGameState == gs.(players := res.updatedPlayers)
    ensures res.requiresPlayerSelection <==> targetPlayerIndex.None?
    ensures SameSeats(gs.players, res.updatedPlayers)
    ensures targetPlayerIndex.None? ==>
      res.updatedGameState == gs && res.allowedPlayerIndices == IndicesExcept(0, |gs.players|, gs.currentPlayerIndex)
    ensures targetPlayerIndex.Some? ==>
      var t, u := targetPlayerIndex.value, PenaltyUnits(gs, card);
      && res.allowedPlayerIndices == []
      && res.updatedPlayers == gs.players[t := gs.players[t].(
           penaltyCount := gs.players[t].penaltyCount + u,
           consecutivePenalties := gs.players[t].consecutivePenalties + 1)]
  {
    var currentPlayer := gs.CurrentPlayer();
    var scaledPenalty := Scale(card.penaltyScale, gs, currentPlayer);
    if targetPlayerIndex.None? then
      var allowedIndices := IndicesExcept(0, |gs.players|, gs.currentPlayerIndex);
      CardExecutionResult(gs, gs.players, SelectTargetMessage, true, allowedIndices)
    else
      var t := targetPlayerIndex.value;
      var targetPlayer := gs.players[t];
      var updatedTarget := targetPlayer.(penaltyCount := targetPlayer.penaltyCount + PenaltyUnits(gs, card),
                                         consecutivePenalties := targetPlayer.consecutivePenalties + 1);
      var updatedPlayers := gs.players[t := updatedTarget];
      CardExecutionResult(gs.(players := updatedPlayers), updatedPlayers,
        PenaltyTargetMessage(currentPlayer.nickname, targetPlayer.nickname, scaledPenalty), false, [])
  }

  /** PENALTY on ALL: everybody takes it; the current player's streak grows, every other resets. */
  function PenaltyAll(gs: GameState, card: Card): (res: CardExecutionResult)
    requires gs.HasCurrentPlayer()
    ensures res.updatedPlayers == res.updatedGameState.players
    ensures res.updatedGameState == gs.(players := res.updatedPlayers)
    ensures !res.requiresPlayerSelection && res.allowedPlayerIndices == []
    ensures SameSeats(gs.players, res.updatedPlayers)
    ensures var cur, u := gs.CurrentPlayer(), PenaltyUnits(gs, card);
      forall i :: 0 <= i < |gs.players| ==>
        res.updatedPlayers[i] == gs.players[i].(
          penaltyCount := gs.players[i].penaltyCount + u,
          consecutivePenalties := if gs.players[i].id == cur.id then gs.players[i].consecutivePenalties + 1 else 0)
  {
    var currentPlayer := gs.CurrentPlayer();
    var scaledPenalty := Scale(card.penaltyScale, gs, currentPlayer);
    var units := PenaltyUnits(gs, card);
    var updatedPlayers := seq(|gs.players|, i requires 0 <= i < |gs.players| =>
      var p := gs.players[i];
      p.(penaltyCount := p.penaltyCount + units,
         consecutivePenalties := if p.id == currentPlayer.id then p.consecutivePenalties + 1 else 0));
    CardExecutionResult(gs.(players := updatedPlayers), updatedPlayers, PenaltyAllMessage(scaledPenalty), false, [])
  }

  /** PENALTY on ALL_EXCEPT_SELF: everybody but the current player takes it; no streak changes. */
  function PenaltyAllExceptSelf(gs: GameState, card: Card): (res: CardExecutionResult)
    requires gs.HasCurrentPlayer()
    ensures res.updatedPlayers == res.updatedGameState.players
    ensures res.updatedGameState == gs.(players := res.updatedPlayers)
    ensures !res.requiresPlayerSelection && res.allowedPlayerIndices == []
    ensures SameSeats(gs.players, res.updatedPlayers)
    ensures var cur, u := gs.CurrentPlayer(), PenaltyUnits(gs, card);
      forall i :: 0 <= i < |gs.players| ==>
        res.updatedPlayers[i] == if gs.players[i].id == cur.id then gs.players[i]
                                 else gs.players[i].(penaltyCount := gs.players[i].penaltyCount + u)
  {
    var currentPlayer := gs.CurrentPlayer();
    var scaledPenalty := Scale(card.penaltyScale, gs, currentPlayer);
    var units := PenaltyUnits(gs, card);
    var updatedPlayers := seq(|gs.players|, i requires 0 <= i < |gs.players| =>
      var p := gs.players[i];
      if p.id == currentPlayer.id then p else p.(penaltyCount := p.penaltyCount + units));
    CardExecutionResult(gs.(players := updatedPlayers), updatedPlayers,
      PenaltyAllExceptSelfMessage(currentPlayer.nickname, scaledPenalty), false, [])
  }

  /** `executePenaltyCard`: dispatch on the target type. */
  function ExecutePenaltyCard(gs: GameState, card: Card, targetPlayerIndex: Option<int>): (res: CardExecutionResult)
    requires gs.HasCurrentPlayer()
    requires card.targetType == TargetOne && targetPlayerIndex.Some? ==> 0 <= targetPlayerIndex.value < |gs.players|
    ensures res.updatedPlayers == res.updatedGameState.players
    ensures res.updatedGameState == gs.(players := res.updatedPlayers)
    ensures res.requiresPlayerSelection <==> card.targetType == TargetOne && targetPlayerIndex.None?
    ensures SameIds(gs.players, res.updatedPlayers)
    ensures DistinctIds(gs.players) ==> SameSeats(gs.players, res.updatedPlayers)
  {
    match card.targetType
    case Self => PenaltySelf(gs, card)
    case TargetOne => PenaltyTargetOne(gs, card, targetPlayerIndex)
    case All => PenaltyAll(gs, card)
    case AllExceptSelf => PenaltyAllExceptSelf(gs, card)
  }

  /** `executeMissionCard`: the mission is only shown. */
  function ExecuteMissionCard(gs: GameState, card: Card): (res: CardExecutionResult)
    ensures res == CardExecutionResult(gs, gs.players, MissionMessage(card.description), false, [])
  {
    CardExecutionResult(gs, gs.players, MissionMessage(card.description), false, [])
  }

  /** `executeRuleCard`: the rule is only shown; `activeRules` is not touched. */
  function ExecuteRuleCard(gs: GameState, card: Card): (res: CardExecutionResult)
    ensures res == CardExecutionResult(gs, gs.players, RuleMessage(card.description), false, [])
  {
    CardExecutionResult(gs, gs.players, RuleMessage(card.description), false, [])
  }

  /** `executeEventCard`: a title mentioning "방향" (direction) reverses the play direction. */
  function ExecuteEventCard(gs: GameState, card: Card): (res: CardExecutionResult)
    ensures res.updatedGameState.direction != gs.direction <==> Contains(card.title, "방향")
    ensures res.updatedGameState == gs.(direction := res.updatedGameState.direction)
    ensures res.updatedPlayers == gs.players && !res.requiresPlayerSelection
  {
    var updatedState :=
      if Contains(card.title, "방향") then
        gs.(direction := if gs.direction == Clockwise then CounterClockwise else Clockwise)
      else gs;
    CardExecutionResult(updatedState, gs.players, EventMessage(card.description), false, [])
  }

  /** `executeSafeCard`: the current player's streak goes back to 0. */
  function ExecuteSafeCard(gs: GameState, card: Card): (res: CardExecutionResult)
    requires gs.HasCurrentPlayer()
    ensures res.updatedPlayers == res.updatedGameState.players
    ensures res.updatedGameState == gs.(players := res.updatedPlayers)
    ensures !res.requiresPlayerSelection
    ensures SameIds(gs.players, res.updatedPlayers)
    ensures DistinctIds(gs.players) ==> SameSeats(gs.players, res.updatedPlayers)
    ensures forall i :: 0 <= i < |gs.players| ==>
      res.updatedPlayers[i] == if gs.players[i].id == gs.CurrentPlayer().id
                               then gs.CurrentPlayer().(consecutivePenalties := 0) else gs.players[i]
  {
    var currentPlayer := gs.CurrentPlayer();
    var updatedPlayer := currentPlayer.(consecutivePenalties := 0);
    var updatedPlayers := ReplaceById(gs.players, currentPlayer.id, updatedPlayer);
    CardExecutionResult(gs.(players := updatedPlayers), updatedPlayers,
      SafeMessage(currentPlayer.nickname, card.description), false, [])
  }

  /** What `invoke` needs to not throw: a current player for penalties and safe cards, a valid target. */
  predicate CanExecute(gs: GameState, card: Card, targetPlayerIndex: Option<int>) {
    && ((card.cardType == Penalty || card.cardType == Safe) ==> gs.HasCurrentPlayer())
    && (card.cardType == Penalty && card.targetType == TargetOne && targetPlayerIndex.Some? ==>
          0 <= targetPlayerIndex.value < |gs.players|)
  }

  /** `invoke`: dispatch on the card type. */
  function Execute(gs: GameState, card: Card, targetPlayerIndex: Option<int>): (res: CardExecutionResult)
    requires CanExecute(gs, card, targetPlayerIndex)
    ensures res.requiresPlayerSelection <==>
      card.cardType == Penalty && card.targetType == TargetOne && targetPlayerIndex.None?
    ensures card.cardType != Event ==> res.updatedGameState == gs.(players := res.updatedGameState.players)
    ensures card.cardType == Event ==> res.updatedGameState == gs.(direction := res.updatedGameState.direction)
    ensures SameIds(gs.players, res.updatedGameState.players)
    ensures DistinctIds(gs.players) ==> SameSeats(gs.players, res.updatedGameState.players)
  {
    match card.cardType
    case Penalty => ExecutePenaltyCard(gs, card, targetPlayerIndex)
    case Mission => ExecuteMissionCard(gs, card)
    case Rule => ExecuteRuleCard(gs, card)
    case Event => ExecuteEventCard(gs, card)
    case Safe => ExecuteSafeCard(gs, card)
  }

  /** Counting the offered indices: one fewer than the seats when the skipped index is a seat. */
  lemma {:induction false} IndicesExceptLength(lo: int, n: int, skip: int)
    requires lo <= n
    ensures |IndicesExcept(lo, n, skip)| == if lo <= skip < n then n - lo - 1 else n - lo
    decreases n - lo
  {
    if lo < n {
      IndicesExceptLength(lo + 1, n, skip);
    }
  }

  /**
   * A TARGET_ONE penalty without a target changes nothing and offers every seat but the
   * current one, each once, in ascending order.
   */
  lemma SelectionOffersEveryoneElse(gs: GameState, card: Card)
    requires gs.HasCurrentPlayer() && card.cardType == Penalty && card.targetType == TargetOne
    ensures var res := Execute(gs, card, None);
      && res.requiresPlayerSelection && res.updatedGameState == gs
      && (forall x :: x in res.allowedPlayerIndices <==> 0 <= x < |gs.players| && x != gs.currentPlayerIndex)
      && (forall i, j :: 0 <= i < j < |res.allowedPlayerIndices| ==> res.allowedPlayerIndices[i] < res.allowedPlayerIndices[j])
      && |res.allowedPlayerIndices| == |gs.players| - 1
  {
    IndicesExceptLength(0, |gs.players|, gs.currentPlayerIndex);
  }

  /**
   * With distinct player ids, a SELF penalty and a safe card touch the current seat only:
   * the penalty adds its units and extends the streak, the safe card resets the streak.
   */
  lemma OnlyCurrentPlayerChanges(gs: GameState, card: Card)
    requires gs.HasCurrentPlayer() && DistinctIds(gs.players)
    requires (card.cardType == Penalty && card.targetType == Self) || card.cardType == Safe
    ensures var ps, ps', c := gs.players, Execute(gs, card, None).updatedGameState.players, gs.currentPlayerIndex;
      && |ps'| == |ps|
      && (forall i :: 0 <= i < |ps| && i != c ==> ps'[i] == ps[i])
      && (card.cardType == Safe ==> ps'[c] == ps[c].(consecutivePenalties := 0))
      && (card.cardType == Penalty ==> ps'[c] == ps[c].(
            penaltyCount := ps[c].penaltyCount + PenaltyUnits(gs, card),
            consecutivePenalties := ps[c].consecutivePenalties + 1))
  {
    var c := gs.currentPlayerIndex;
    forall i | 0 <= i < |gs.players| && i != c
      ensures gs.players[i].id != gs.CurrentPlayer().id
    {
      if i < c { assert gs.players[i].id != gs.players[c].id; }
      else { assert gs.players[c].id != gs.players[i].id; }
    }
  }

  /** Mission and rule cards leave the game exactly as it was and ask for no selection. */
  lemma MissionAndRuleChangeNothing(gs: GameState, card: Card, target: Option<int>)
    requires card.cardType == Mission || card.cardType == Rule
    ensures Execute(gs, card, target).updatedGameState == gs
    ensures Execute(gs, card, target).updatedPlayers == gs.players
    ensures !Execute(gs, card, target).requiresPlayerSelection
  {
  }
}
