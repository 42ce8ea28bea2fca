/**
 * What a card pack changes about the generated map. The default of every field is the
 * identity for the way modifiers are combined: weights 1.0, no forced tiles, all rules
 * allowed, at most 3 consecutive penalties, multiplier 1.0, randomness 1.0, bias 0.
 */
module MapModifierModel {
  import opened TileModel

  /** A tile to place; position -1 means "at a random position". */
  datatype TileTemplate = TileTemplate(position: int, tileType: TileType, title: string, description: string)

  datatype TileWeightModifier = TileWeightModifier(
    cardWeight: real,
    eventWeight: real,
    safeWeight: real,
    trapWeight: real,
    forceIncludeTiles: seq<TileTemplate>)

  const DefaultTileWeights: TileWeightModifier := TileWeightModifier(1.0, 1.0, 1.0, 1.0, [])

  datatype WinCondition = CompleteRounds | ReachPosition | CollectItems | LastStanding

  datatype RuleModifier = RuleModifier(
    allowConsecutivePenalty: bool,
    maxConsecutivePenalty: int,
    penaltyMultiplier: real,
    enableDoubleBonus: bool,
    enableReverseDirection: bool,
    winCondition: WinCondition)

  const DefaultRules: RuleModifier := RuleModifier(true, 3, 1.0, true, true, CompleteRounds)

  datatype EventModifier = EventModifier(
    specialEventProbability: real,
    miniBossProbability: real,
    bonusRoundProbability: real,
    customEvents: seq<string>)

  const DefaultEvents: EventModifier := EventModifier(0.1, 0.0, 0.0, [])

  /** `biasValue` is added to the map seed; `randomnessLevel` scales the time perturbation. */
  datatype SeedBias = SeedBias(biasValue: int, randomnessLevel: real)

  const DefaultSeedBias: SeedBias := SeedBias(0, 1.0)

  datatype MapModifier = MapModifier(
    tileWeights: TileWeightModifier,
    rules: RuleModifier,
    events: EventModifier,
    seedBias: SeedBias)

  const DefaultMapModifier: MapModifier :=
    MapModifier(DefaultTileWeights, DefaultRules, DefaultEvents, DefaultSeedBias)
}
