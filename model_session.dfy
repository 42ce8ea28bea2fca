/** The settings a session is played with. */
module SessionModel {
  import opened Wrappers
  import opened CardModel
  import opened DifficultyModel

  datatype DrinkType = Soju | Beer | Cocktail | Wine | Makgeolli | NonAlcohol

  datatype SessionConfig = SessionConfig(
    playerNames: seq<string>,
    severityFilter: Severity,
    drinkType: DrinkType,
    drinkUnit: string,
    activatedCardPackIds: seq<string>,
    customCards: seq<Card>,
    useTwoDice: bool,
    maxRounds: Option<int>,
    maxTimeMinutes: Option<int>,
    enableDDA: bool,
    ddaRules: DDARule,
    autoSuggestBreaks: bool,
    isNonAlcoholMode: bool,
    enableOneHandMode: bool,
    enableQuickRestart: bool,
    activatedThemeSkinId: Option<string>,
    isPremiumUser: bool,
    showAds: bool)

  /** The constructor call with only the player names given. */
  function NewSessionConfig(playerNames: seq<string>): (c: SessionConfig)
    ensures c.playerNames == playerNames && c.severityFilter == Normal && c.drinkType == Soju
    ensures c.drinkUnit == "샷" && c.activatedCardPackIds == ["default"] && c.customCards == []
    ensures c.useTwoDice && c.maxRounds == None && c.maxTimeMinutes == None
    ensures c.enableDDA && c.ddaRules == DefaultDDARule
  {
    SessionConfig(playerNames, Normal, Soju, "샷", ["default"], [], true, None, None, true,
      DefaultDDARule, true, false, false, true, None, false, true)
  }
}
