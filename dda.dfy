/**
 * Dynamic difficulty adjustment: fatigue from play time, penalty streak and rest cards;
 * a difficulty level derived from it; and the list of adjustments to suggest.
 */
module ApplyDDA {
  import opened Kotlin
  import opened PlayerModel
  import opened GameStateModel
  import opened DifficultyModel

  /** The tuning values the fatigue formula divides by. */
  predicate RulesUsable(rules: DDARule) {
    rules.fatigueLimitMinutes > 0 && rules.maxConsecutivePenalty > 0
  }

  /** Time-based fatigue: the share of the fatigue limit played, capped at 0.5. */
  function TimeFatigue(playTimeMinutes: int, rules: DDARule): (t: real)
    requires RulesUsable(rules)
    ensures 0.0 <= t <= 0.5
    ensures 0 <= playTimeMinutes ==>
      var share := playTimeMinutes as real / rules.fatigueLimitMinutes as real;
      (share <= 0.5 ==> t == share) && (share >= 0.5 ==> t == 0.5)
  {
    CoerceIn(playTimeMinutes as real / rules.fatigueLimitMinutes as real, 0.0, 0.5)
  }

  /** Streak-based fatigue: 0.4 times the share of the streak limit reached, capped at 0.4. */
  function PenaltyFatigue(consecutivePenalty: int, rules: DDARule): (p: real)
    requires RulesUsable(rules)
    ensures 0.0 <= p <= 0.4
    ensures consecutivePenalty >= rules.maxConsecutivePenalty ==> p == 0.4
  {
    CoerceIn(consecutivePenalty as real / rules.maxConsecutivePenalty as real * 0.4, 0.0, 0.4)
  }

  /** Rest cards take off 0.1 each, at most 0.3. */
  function RestReduction(restCardUsed: int): (r: real)
    ensures 0.0 <= r <= 0.3
    ensures 0 <= restCardUsed <= 3 ==> r == restCardUsed as real * 0.1
  {
    CoerceIn(restCardUsed as real * 0.1, 0.0, 0.3)
  }

  /** `calculateFatigue`: the clamped sum of the three parts. */
  function CalculateFatigue(playTimeMinutes: int, consecutivePenalty: int, restCardUsed: int, rules: DDARule): (f: real)
    requires RulesUsable(rules)
    ensures 0.0 <= f <= 1.0
    ensures f == CoerceIn(TimeFatigue(playTimeMinutes, rules) + PenaltyFatigue(consecutivePenalty, rules)
                          - RestReduction(restCardUsed), 0.0, 1.0)
    ensures f <= 0.9
  {
    var timeFatigue := TimeFatigue(playTimeMinutes, rules);
    var penaltyFatigue := PenaltyFatigue(consecutivePenalty, rules);
    var restReduction := RestReduction(restCardUsed);
    CoerceIn(timeFatigue + penaltyFatigue - restReduction, 0.0, 1.0)
  }

  /** Fatigue never falls when more time passes or the streak grows, and never rises with more rest. */
  lemma FatigueMonotone(m1: int, m2: int, c1: int, c2: int, r1: int, r2: int, rules: DDARule)
    requires RulesUsable(rules) && m1 <= m2 && c1 <= c2 && r2 <= r1
    ensures CalculateFatigue(m1, c1, r1, rules) <= CalculateFatigue(m2, c2, r2, rules)
  {
    var a := m1 as real / rules.fatigueLimitMinutes as real;
    var b := m2 as real / rules.fatigueLimitMinutes as real;
    assert a <= b by { DivMonotone(m1 as real, m2 as real, rules.fatigueLimitMinutes as real); }
    var c := c1 as real / rules.maxConsecutivePenalty as real;
    var d := c2 as real / rules.maxConsecutivePenalty as real;
    assert c <= d by { DivMonotone(c1 as real, c2 as real, rules.maxConsecutivePenalty as real); }
  }

  lemma DivMonotone(x: real, y: real, z: real)
    requires x <= y && z > 0.0
    ensures x / z <= y / z
  {
    assert y / z - x / z == (y - x) / z;
  }

  /**
   * Extreme fatigue (0.8 or more) needs at least 40% of the fatigue limit played and a streak
   * of at least three quarters of the streak limit.
   */
  lemma ExtremeFatigueNeedsTimeAndStreak(playTimeMinutes: int, consecutivePenalty: int, restCardUsed: int, rules: DDARule)
    requires RulesUsable(rules)
    requires CalculateFatigue(playTimeMinutes, consecutivePenalty, restCardUsed, rules) >= 0.8
    ensures playTimeMinutes as real >= 0.4 * rules.fatigueLimitMinutes as real
    ensures consecutivePenalty as real >= 0.75 * rules.maxConsecutivePenalty as real
  {
    var t := TimeFatigue(playTimeMinutes, rules);
    var p := PenaltyFatigue(consecutivePenalty, rules);
    assert t >= 0.4 && p >= 0.3;
    var lim := rules.fatigueLimitMinutes as real;
    var mx := rules.maxConsecutivePenalty as real;
    assert playTimeMinutes as real / lim >= 0.4;
    assert consecutivePenalty as real / mx * 0.4 >= 0.3;
    MulBack(playTimeMinutes as real, lim, 0.4);
    MulBack(consecutivePenalty as real, mx, 0.75);
  }

  lemma MulBack(x: real, z: real, k: real)
    requires z > 0.0 && x / z >= k
    ensures x >= k * z
  {
    assert x == (x / z) * z;
  }

  /** `calculateDifficultyLevel`: fatigue and a streak over two lower the difficulty. */
  function CalculateDifficultyLevel(fatigueLevel: real, consecutivePenalty: int): (d: real)
    ensures 0.5 <= d <= 1.5
    ensures fatigueLevel >= 0.0 ==> d <= 1.0
    ensures 0.0 <= fatigueLevel <= 1.0 && consecutivePenalty <= 2 ==> d == 1.0 - 0.3 * fatigueLevel
    ensures 0.0 <= fatigueLevel <= 1.0 && consecutivePenalty > 2 ==> d == 0.8 - 0.3 * fatigueLevel
  {
    var fatiguePenalty := fatigueLevel * 0.3;
    var penaltyPenalty := if consecutivePenalty > 2 then 0.2 else 0.0;
    CoerceIn(1.0 - fatiguePenalty - penaltyPenalty, 0.5, 1.5)
  }

  /** More fatigue never makes the game harder. */
  lemma DifficultyAntitone(f1: real, f2: real, cp: int)
    requires f1 <= f2
    ensures CalculateDifficultyLevel(f2, cp) <= CalculateDifficultyLevel(f1, cp)
  {
  }

  /** The actions in the order `updateDifficultyState` adds them. */
  function ExpectedActions(consecutivePenalty: int, playTimeMinutes: int, fatigueLevel: real, rules: DDARule): seq<DDAAction> {
    (if consecutivePenalty >= rules.maxConsecutivePenalty
     then [ReducePenaltyProbability(rules.penaltyReductionRate), IncreaseRestProbability(rules.restCardBoostRate)]
     else [])
    + (if playTimeMinutes >= rules.fatigueLimitMinutes && rules.enableAutoBreakSuggestion then [SuggestBreak] else [])
    + (if fatigueLevel >= 0.8 then [ReducePenaltyProbability(0.5), SuggestBreak] else [])
  }

  /**
   * `updateDifficultyState`: reads the current player's streak and the play time, then
   * builds the actions by conditional appends. The clock is the parameter `now`.
   */
  method UpdateDifficultyState(currentState: DifficultyState, gs: GameState, rules: DDARule, now: int)
    returns (state: DifficultyState, actions: seq<DDAAction>)
    requires gs.HasCurrentPlayer() && RulesUsable(rules)
    ensures var cp := gs.CurrentPlayer().consecutivePenalties;
      var minutes := gs.ElapsedMinutes(now);
      var f := CalculateFatigue(minutes, cp, currentState.restCardUsedCount, rules);
      && actions == ExpectedActions(cp, minutes, f, rules)
      && state == currentState.(currentDifficultyLevel := CalculateDifficultyLevel(f, cp),
                                consecutivePenaltyCount := cp, totalPlayTimeMinutes := minutes,
                                playerFatigueLevel := f, lastAdjustmentTime := now)
    ensures ResetDifficulty !in actions
    ensures |actions| <= 5
    ensures 0.5 <= state.currentDifficultyLevel <= 1.0 && 0.0 <= state.playerFatigueLevel <= 1.0
    ensures state.restCardUsedCount == currentState.restCardUsedCount
    ensures gs.CurrentPlayer().consecutivePenalties >= rules.maxConsecutivePenalty <==>
      |actions| >= 2 && actions[0] == ReducePenaltyProbability(rules.penaltyReductionRate)
      && actions[1] == IncreaseRestProbability(rules.restCardBoostRate)
    ensures SuggestBreak in actions <==>
      (gs.ElapsedMinutes(now) >= rules.fatigueLimitMinutes && rules.enableAutoBreakSuggestion)
      || state.playerFatigueLevel >= 0.8
  {
    var currentPlayer := gs.CurrentPlayer();
    var playTimeMinutes := gs.ElapsedMinutes(now);
    var consecutivePenalty := currentPlayer.consecutivePenalties;
    var fatigueLevel := CalculateFatigue(playTimeMinutes, consecutivePenalty, currentState.restCardUsedCount, rules);

    actions := [];
    if consecutivePenalty >= rules.maxConsecutivePenalty {
      actions := actions + [ReducePenaltyProbability(rules.penaltyReductionRate)];
      actions := actions + [IncreaseRestProbability(rules.restCardBoostRate)];
    }
    var afterStreak := actions;
    if playTimeMinutes >= rules.fatigueLimitMinutes && rules.enableAutoBreakSuggestion {
      actions := actions + [SuggestBreak];
    }
    var afterTime := actions;
    if fatigueLevel >= 0.8 {
      actions := actions + [ReducePenaltyProbability(0.5)];
      actions := actions + [SuggestBreak];
    }
    assert SuggestBreak !in afterStreak;
    assert SuggestBreak in afterTime <==> playTimeMinutes >= rules.fatigueLimitMinutes && rules.enableAutoBreakSuggestion;
    assert consecutivePenalty < rules.maxConsecutivePenalty && |actions| >= 1 ==>
      actions[0] == SuggestBreak || actions[0] == ReducePenaltyProbability(0.5);

    var newDifficultyLevel := CalculateDifficultyLevel(fatigueLevel, consecutivePenalty);
    state := currentState.(currentDifficultyLevel := newDifficultyLevel, consecutivePenaltyCount := consecutivePenalty,
                           totalPlayTimeMinutes := playTimeMinutes, playerFatigueLevel := fatigueLevel,
                           lastAdjustmentTime := now);
  }

  /** `recordRestCardUsed`: one more rest card, streak cleared, fatigue down by 0.2 but not below 0. */
  function RecordRestCardUsed(currentState: DifficultyState): (s: DifficultyState)
    ensures s.restCardUsedCount == currentState.restCardUsedCount + 1
    ensures s.consecutivePenaltyCount == 0
    ensures s.playerFatigueLevel == MaxReal(currentState.playerFatigueLevel - 0.2, 0.0)
    ensures s.playerFatigueLevel <= currentState.playerFatigueLevel || currentState.playerFatigueLevel < 0.0
    ensures s.currentDifficultyLevel == currentState.currentDifficultyLevel
    ensures s.totalPlayTimeMinutes == currentState.totalPlayTimeMinutes
    ensures s.lastAdjustmentTime == currentState.lastAdjustmentTime
  {
    currentState.(restCardUsedCount := currentState.restCardUsedCount + 1,
                  consecutivePenaltyCount := 0,
                  playerFatigueLevel := CoerceAtLeast(currentState.playerFatigueLevel - 0.2, 0.0))
  }
}
