/** The ordered checks that decide whether a running game ends, and the forced end. */
module GameEnd {
  import opened Wrappers
  import opened Kotlin
  import opened PlayerModel
  import opened GameStateModel
  import opened SessionModel

  /** The number of players with `isActive` set (`players.filter { it.isActive }.size`). */
  function ActiveCount(players: seq<Player>): (n: nat)
    ensures n <= |players|
    ensures n == 0 <==> forall i :: 0 <= i < |players| ==> !players[i].isActive
  {
    if players == [] then 0
    else (if players[0].isActive then 1 else 0) + ActiveCount(players[1..])
  }

  predicate RoundLimitReached(gs: GameState, config: SessionConfig) {
    config.maxRounds.Some? && gs.currentTurn >= config.maxRounds.value
  }

  predicate TimeLimitReached(gs: GameState, config: SessionConfig, now: int) {
    config.maxTimeMinutes.Some? && gs.ElapsedMinutes(now) >= config.maxTimeMinutes.value
  }

  predicate CardsExhausted(gs: GameState) {
    gs.deck == [] && gs.discardPile == []
  }

  predicate TooFewActive(gs: GameState) {
    ActiveCount(gs.players) < 2
  }

  function RoundReason(maxRounds: int): string {
    "최대 라운드 도달 (" + IntToString(maxRounds) + "라운드)"
  }

  function TimeReason(maxTimeMinutes: int): string {
    "최대 시간 도달 (" + IntToString(maxTimeMinutes) + "분)"
  }

  const ExhaustedReason: string := "모든 카드 소진"
  const TooFewActiveReason: string := "활성 플레이어 부족"

  /**
   * `invoke`: the four end conditions, checked in order; the first that holds gives the
   * reason. The clock reading is the parameter `now`.
   */
  function CheckEnd(gs: GameState, config: SessionConfig, now: int): (r: (bool, Option<string>))
    ensures r.0 <==> r.1.Some?
    ensures r.0 <==> RoundLimitReached(gs, config) || TimeLimitReached(gs, config, now)
                     || CardsExhausted(gs) || TooFewActive(gs)
    ensures RoundLimitReached(gs, config) ==> r.1 == Some(RoundReason(config.maxRounds.value))
    ensures !RoundLimitReached(gs, config) && TimeLimitReached(gs, config, now) ==>
      r.1 == Some(TimeReason(config.maxTimeMinutes.value))
    ensures !RoundLimitReached(gs, config) && !TimeLimitReached(gs, config, now) && CardsExhausted(gs) ==>
      r.1 == Some(ExhaustedReason)
    ensures (!RoundLimitReached(gs, config) && !TimeLimitReached(gs, config, now) && !CardsExhausted(gs)
             && TooFewActive(gs)) ==> r.1 == Some(TooFewActiveReason)
  {
    if config.maxRounds.Some? && gs.currentTurn >= config.maxRounds.value then
      (true, Some(RoundReason(config.maxRounds.value)))
    else if config.maxTimeMinutes.Some? && gs.ElapsedMinutes(now) >= config.maxTimeMinutes.value then
      (true, Some(TimeReason(config.maxTimeMinutes.value)))
    else if gs.deck == [] && gs.discardPile == [] then
      (true, Some(ExhaustedReason))
    else if ActiveCount(gs.players) < 2 then
      (true, Some(TooFewActiveReason))
    else
      (false, None)
  }

  /** A game with at most one player always ends, whatever the limits and piles. */
  lemma SmallTablesEnd(gs: GameState, config: SessionConfig, now: int)
    requires |gs.players| < 2
    ensures CheckEnd(gs, config, now).0
  {
  }

  /** Two active players and a card left keep a game without limits going. */
  lemma UnlimitedGameContinues(gs: GameState, config: SessionConfig, now: int, i: int, j: int)
    requires config.maxRounds.None? && config.maxTimeMinutes.None?
    requires gs.deck != [] || gs.discardPile != []
    requires 0 <= i < j < |gs.players| && gs.players[i].isActive && gs.players[j].isActive
    ensures CheckEnd(gs, config, now) == (false, None)
  {
    TwoActive(gs.players, i, j);
  }

  lemma {:induction false} TwoActive(players: seq<Player>, i: int, j: int)
    requires 0 <= i < j < |players| && players[i].isActive && players[j].isActive
    ensures ActiveCount(players) >= 2
    decreases |players|
  {
    if i == 0 {
      assert players[1..][j - 1] == players[j];
      assert ActiveCount(players[1..]) >= 1;
    } else {
      assert players[1..][i - 1] == players[i] && players[1..][j - 1] == players[j];
      TwoActive(players[1..], i - 1, j - 1);
    }
  }

  /** `forceEnd`: only the status changes; the reason argument (default "수동 종료") is ignored. */
  function ForceEnd(gs: GameState, reason: string): (r: GameState)
    ensures r.status == Ended
    ensures r == gs.(status := Ended)
  {
    gs.(status := Ended)
  }
}
