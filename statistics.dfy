/** End-of-game statistics: totals, one entry per player, the MVP and the play-time text. */
module GameStatistics {
  import opened Wrappers
  import opened Kotlin
  import opened PlayerModel
  import opened GameStateModel

  datatype PlayerStatistics = PlayerStatistics(
    player: Player,
    totalPenalties: int,
    consecutivePenaltiesMax: int,
    cardsCompleted: int,
    cardsSkipped: int)

  datatype Statistics = Statistics(
    totalTurns: int,
    totalPlayTime: int,
    totalCardsUsed: int,
    playerStats: seq<PlayerStatistics>,
    mvp: Option<Player>)

  /** The per-player entry: completed cards are counted as the penalty count, skips are always zero. */
  function StatsFor(p: Player): (s: PlayerStatistics)
    ensures s.player == p
    ensures s.totalPenalties == s.cardsCompleted == p.penaltyCount
    ensures s.consecutivePenaltiesMax == p.consecutivePenalties && s.cardsSkipped == 0
  {
    PlayerStatistics(p, p.penaltyCount, p.consecutivePenalties, p.penaltyCount, 0)
  }

  /**
   * `maxByOrNull { it.totalPenalties }`: scanning from `i` with the best index so far,
   * a later entry replaces the best only when strictly greater.
   */
  function MaxByFrom(stats: seq<PlayerStatistics>, best: nat, i: nat): (m: nat)
    requires best < i <= |stats|
    requires forall j :: 0 <= j < i ==> stats[j].totalPenalties <= stats[best].totalPenalties
    requires forall j :: 0 <= j < best ==> stats[j].totalPenalties < stats[best].totalPenalties
    ensures m < |stats|
    ensures forall j :: 0 <= j < |stats| ==> stats[j].totalPenalties <= stats[m].totalPenalties
    ensures forall j :: 0 <= j < m ==> stats[j].totalPenalties < stats[m].totalPenalties
    decreases |stats| - i
  {
    if i == |stats| then best
    else if stats[best].totalPenalties < stats[i].totalPenalties then MaxByFrom(stats, i, i + 1)
    else MaxByFrom(stats, best, i + 1)
  }

  /** The index of the first entry with the largest `totalPenalties`, or none for no entries. */
  function MaxByIndex(stats: seq<PlayerStatistics>): (m: Option<nat>)
    ensures m.None? <==> stats == []
    ensures m.Some? ==> (m.value < |stats|
      && (forall j :: 0 <= j < |stats| ==> stats[j].totalPenalties <= stats[m.value].totalPenalties)
      && (forall j :: 0 <= j < m.value ==> stats[j].totalPenalties < stats[m.value].totalPenalties))
  {
    if stats == [] then None else Some(MaxByFrom(stats, 0, 1))
  }

  /** `invoke`: the clock reading is the parameter `now`. */
  function Calculate(gs: GameState, now: int): (r: Statistics)
    ensures r.totalTurns == gs.currentTurn
    ensures r.totalPlayTime == now - gs.startTime
    ensures r.totalCardsUsed == |gs.discardPile|
    ensures |r.playerStats| == |gs.players|
    ensures forall i :: 0 <= i < |gs.players| ==> r.playerStats[i] == StatsFor(gs.players[i])
    ensures r.mvp.None? <==> gs.players == []
    ensures r.mvp.Some? ==> exists k :: (0 <= k < |gs.players| && r.mvp.value == gs.players[k]
      && (forall j :: 0 <= j < |gs.players| ==> gs.players[j].penaltyCount <= gs.players[k].penaltyCount)
      && (forall j :: 0 <= j < k ==> gs.players[j].penaltyCount < gs.players[k].penaltyCount))
  {
    var playerStats := seq(|gs.players|, i requires 0 <= i < |gs.players| => StatsFor(gs.players[i]));
    var best := MaxByIndex(playerStats);
    var mvp := if best.Some? then Some(playerStats[best.value].player) else None;
    assert best.Some? ==> forall j :: 0 <= j < |gs.players| ==>
      playerStats[j].totalPenalties == gs.players[j].penaltyCount;
    Statistics(gs.currentTurn, now - gs.startTime, |gs.discardPile|, playerStats, mvp)
  }

  /** Whole minutes and leftover seconds of a duration in milliseconds, all divisions truncating. */
  function PlayTimeParts(millis: int): (p: (int, int))
    ensures Quot(millis, 1000) == 60 * p.0 + p.1
    ensures millis >= 0 ==> p.0 >= 0 && 0 <= p.1 < 60
    ensures millis >= 0 ==> (60 * p.0 + p.1) * 1000 <= millis < (60 * p.0 + p.1 + 1) * 1000
    ensures millis < 0 ==> p.0 <= 0 && -60 < p.1 <= 0
  {
    var totalSeconds := Quot(millis, 1000);
    (Quot(totalSeconds, 60), Rem(totalSeconds, 60))
  }

  /** `formatPlayTime`: the minutes, then the seconds of the minute started, in Korean units. */
  function FormatPlayTime(millis: int): (text: string)
    ensures var p := PlayTimeParts(millis);
      var minutes := IntToString(p.0) + "분 ";
      var seconds := IntToString(p.1) + "초";
      |text| == |minutes| + |seconds| && text[..|minutes|] == minutes && text[|minutes|..] == seconds
  {
    var p := PlayTimeParts(millis);
    IntToString(p.0) + "분 " + IntToString(p.1) + "초"
  }

  /** Seconds are rendered with one digit below ten and two digits from ten to fifty-nine. */
  lemma SecondsFitTwoDigits(millis: int)
    requires millis >= 0
    ensures 1 <= |IntToString(PlayTimeParts(millis).1)| <= 2
  {
    var sec := PlayTimeParts(millis).1;
    if sec >= 10 {
      assert NatToString(sec) == NatToString(sec / 10) + [DigitChar(sec % 10)];
    }
  }

  /** A minute and a half is rendered "1분 30초". */
  lemma NinetySecondsExample()
    ensures FormatPlayTime(90000) == "1분 30초"
  {
    assert PlayTimeParts(90000) == (1, 30);
    assert NatToString(30) == NatToString(3) + [DigitChar(0)];
  }
}
