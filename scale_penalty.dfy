/**
 * Penalty scaling: a streak of three or more penalties halves the amount, the multiplier
 * never drops below 0.5, and the detailed form converts it into a number of drinks.
 */
module ScalePenalty {
  import opened Kotlin
  import opened CardModel
  import opened PlayerModel
  import opened SessionModel
  import opened GameStateModel

  /** Penalties from the third one in a row on are halved. */
  const StreakThreshold: int := 3

  /** `invoke`: the multiplier applied to a penalty; the game state is not consulted. */
  function Scale(penaltyScale: real, gs: GameState, player: Player): (r: real)
    ensures r >= 0.5
    ensures player.consecutivePenalties >= StreakThreshold ==> r == MaxReal(penaltyScale * 0.5, 0.5)
    ensures player.consecutivePenalties < StreakThreshold ==> r == MaxReal(penaltyScale, 0.5)
  {
    var baseAmount := if player.consecutivePenalties >= StreakThreshold then penaltyScale * 0.5 else penaltyScale;
    CoerceAtLeast(baseAmount, 0.5)
  }

  /** A larger card scale never gives a smaller multiplier, and a streak never gives a larger one. */
  lemma ScaleMonotone(s1: real, s2: real, gs: GameState, p: Player, q: Player)
    requires s1 <= s2
    requires p.consecutivePenalties >= StreakThreshold || q.consecutivePenalties < StreakThreshold
    ensures Scale(s1, gs, p) <= Scale(s2, gs, q)
  {
  }

  /**
   * Penalty counts grow by the truncated multiplier, which can be 0 although the
   * multiplier is at least 0.5: a standard card on a three-penalty streak adds nothing.
   */
  lemma TruncatedScaleCanBeZero(gs: GameState, p: Player)
    requires p.consecutivePenalties == 3
    ensures Scale(1.0, gs, p) == 0.5 && Trunc(Scale(1.0, gs, p)) == 0
  {
  }

  /** `ScaledPenalty`. */
  datatype ScaledPenalty = ScaledPenalty(
    originalScale: real,
    scaledAmount: int,
    unit: string,
    displayText: string,
    isNonAlcohol: bool)

  /** The number of drinks before unit conversion: the scale rounded up, at least one. */
  function BaseDrinks(baseAmount: real): (n: int)
    ensures n >= 1 && n as real >= baseAmount
    ensures baseAmount > 1.0 ==> (n - 1) as real < baseAmount
  {
    CoerceAtLeastInt(Ceil(baseAmount), 1)
  }

  /** `convertToUnit`: sips are a third of a shot; any unit but sips and glasses becomes shots. */
  function ConvertToUnit(baseAmount: real, drinkUnit: string, drinkType: DrinkType): (res: (int, string))
    ensures res.0 >= 1 && res.0 as real >= baseAmount
    ensures drinkUnit == "모금" ==> res == (3 * BaseDrinks(baseAmount), "모금") && res.0 % 3 == 0
    ensures drinkUnit == "잔" ==> res == (BaseDrinks(baseAmount), "잔")
    ensures drinkUnit != "모금" && drinkUnit != "잔" ==> res == (BaseDrinks(baseAmount), "샷")
  {
    var finalAmount := BaseDrinks(baseAmount);
    if drinkUnit == "모금" then (finalAmount * 3, "모금")
    else if drinkUnit == "잔" then (finalAmount, "잔")
    else (finalAmount, "샷")
  }

  /** `generateDisplayText`: penalties and missions say "drink"; other cards show the amount only. */
  function GenerateDisplayText(amount: int, unit: string, cardType: CardType): (s: string)
    ensures StartsWith(s, IntToString(amount) + " " + unit)
    ensures (cardType == Penalty || cardType == Mission) <==> s == IntToString(amount) + " " + unit + " 마시기"
    ensures !(cardType == Penalty || cardType == Mission) ==> s == IntToString(amount) + " " + unit
  {
    var prefix := IntToString(amount) + " " + unit;
    if cardType == Penalty || cardType == Mission then
      var s := prefix + " 마시기";
      assert s[..|prefix|] == prefix;
      s
    else
      assert prefix[..|prefix|] == prefix;
      prefix
  }

  /** The amount after the streak halving, before rounding. */
  function StreakAdjusted(penaltyScale: real, player: Player): real {
    if player.consecutivePenalties >= StreakThreshold then penaltyScale * 0.5 else penaltyScale
  }

  /**
   * `scaleWithDetails`: a non-alcoholic session always gets one glass of water; otherwise
   * the streak-adjusted scale is rounded up to whole drinks in the session's unit.
   */
  function ScaleWithDetails(card: Card, player: Player, drinkType: DrinkType, drinkUnit: string): (sp: ScaledPenalty)
    ensures sp.originalScale == card.penaltyScale
    ensures sp.isNonAlcohol <==> drinkType == NonAlcohol
    ensures drinkType == NonAlcohol ==> sp == ScaledPenalty(card.penaltyScale, 1, "잔", "물 한 잔 마시기", true)
    ensures drinkType != NonAlcohol ==>
      && (sp.scaledAmount, sp.unit) == ConvertToUnit(StreakAdjusted(card.penaltyScale, player), drinkUnit, drinkType)
      && sp.displayText == GenerateDisplayText(sp.scaledAmount, sp.unit, card.cardType)
    ensures sp.scaledAmount >= 1
    ensures sp.unit == "모금" || sp.unit == "잔" || sp.unit == "샷"
  {
    var baseAmount := StreakAdjusted(card.penaltyScale, player);
    if drinkType == NonAlcohol then
      ScaledPenalty(card.penaltyScale, 1, "잔", "물 한 잔 마시기", true)
    else
      var (amount, unit) := ConvertToUnit(baseAmount, drinkUnit, drinkType);
      var displayText := GenerateDisplayText(amount, unit, card.cardType);
      ScaledPenalty(card.penaltyScale, amount, unit, displayText, false)
  }

  /** The detailed amount never understates the streak-adjusted scale, whatever the unit. */
  lemma DetailsRoundUp(card: Card, player: Player, drinkType: DrinkType, drinkUnit: string)
    requires drinkType != NonAlcohol
    ensures ScaleWithDetails(card, player, drinkType, drinkUnit).scaledAmount as real
            >= StreakAdjusted(card.penaltyScale, player)
  {
  }

  /** A standard card in shots on a three-penalty streak: half a shot rounds up to "1 샷 마시기". */
  lemma StreakExample(card: Card, player: Player)
    requires card.penaltyScale == 1.0 && card.cardType == Penalty && player.consecutivePenalties == 3
    ensures ScaleWithDetails(card, player, Soju, "샷") == ScaledPenalty(1.0, 1, "샷", "1 샷 마시기", false)
  {
    assert StreakAdjusted(card.penaltyScale, player) == 0.5;
    assert Ceil(0.5) == 1;
    assert IntToString(1) == "1";
  }
}
