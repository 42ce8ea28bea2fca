/** Dynamic difficulty adjustment: its state, its tuning rules and the actions it proposes. */
module DifficultyModel {

  datatype DifficultyState = DifficultyState(
    currentDifficultyLevel: real,
    consecutivePenaltyCount: int,
    totalPlayTimeMinutes: int,
    restCardUsedCount: int,
    playerFatigueLevel: real,
    lastAdjustmentTime: int)

  const DefaultDifficultyState: DifficultyState := DifficultyState(1.0, 0, 0, 0, 0.0, 0)

  datatype DDARule = DDARule(
    maxConsecutivePenalty: int,
    fatigueLimitMinutes: int,
    penaltyReductionRate: real,
    restCardBoostRate: real,
    autoRestAfterMinutes: int,
    enableAutoBreakSuggestion: bool)

  const DefaultDDARule: DDARule := DDARule(3, 60, 0.2, 0.3, 90, true)

  datatype DDAAction =
    | ReducePenaltyProbability(reduction: real)
    | IncreaseRestProbability(increase: real)
    | SuggestBreak
    | ResetDifficulty
}
