/**
 * Setting up a new game from a session configuration: the activated card packs are looked
 * up, a board is generated from the base template, the players are seated and the deck is
 * assembled from the packs' cards under the session's severity filter.
 */
module InitializeGame {
  import opened Wrappers
  import opened Kotlin
  import opened Rand
  import opened CardModel
  import opened CardPackModel
  import opened PlayerModel
  import opened TileModel
  import opened MapModifierModel
  import opened MapTemplateModel
  import opened SessionModel
  import opened GameStateModel
  import GenerateMap

  // ---------------------------------------------------------------------------
  // Players

  function PlayerId(index: nat): (id: string)
    ensures |id| > 7 && id[..7] == "player_"
  {
    "player_" + IntToString(index)
  }

  /** Seats never share an id. */
  lemma PlayerIdsDistinct(i: nat, j: nat)
    requires i != j
    ensures PlayerId(i) != PlayerId(j)
  {
    if PlayerId(i) == PlayerId(j) {
      PrefixCancel("player_", IntToString(i), IntToString(j));
      IntToStringInjective(i, j);
    }
  }

  /** `playerNames.mapIndexed`: one fresh, active player per name, in name order. */
  function InitialPlayers(names: seq<string>): (players: seq<Player>)
    ensures |players| == |names|
    ensures forall i :: 0 <= i < |names| ==>
      players[i].id == PlayerId(i) && players[i].nickname == names[i]
    ensures forall i :: 0 <= i < |names| ==>
      (players[i].position == 0 && players[i].penaltyCount == 0
      && players[i].consecutivePenalties == 0 && players[i].isActive)
  {
    seq(|names|, i requires 0 <= i < |names| => NewPlayer(PlayerId(i), names[i]))
  }

  /** The seated players have pairwise distinct ids. */
  lemma InitialPlayersHaveDistinctIds(names: seq<string>)
    ensures forall i, j :: 0 <= i < j < |names| ==> InitialPlayers(names)[i].id != InitialPlayers(names)[j].id
  {
    forall i, j | 0 <= i < j < |names|
      ensures InitialPlayers(names)[i].id != InitialPlayers(names)[j].id
    {
      PlayerIdsDistinct(i, j);
    }
  }

  // ---------------------------------------------------------------------------
  // Card packs

  /** The packs whose id was asked for, in the order the repository lists them. */
  function PacksWithIds(packs: seq<CardPack>, packIds: seq<string>): (r: seq<CardPack>)
    ensures |r| <= |packs|
    ensures forall p :: p in r <==> p in packs && p.packId in packIds
    decreases |packs|
  {
    if packs == [] then []
    else
      var last := packs[|packs| - 1];
      PacksWithIds(packs[..|packs| - 1], packIds) + (if last.packId in packIds then [last] else [])
  }

  /**
   * `loadActivatedCardPacks`: the enabled packs (or the exception the repository threw)
   * are filtered by id; a failure gives no packs at all.
   */
  function LoadActivatedCardPacks(enabledPacks: Result<seq<CardPack>, string>, packIds: seq<string>): (r: seq<CardPack>)
    ensures enabledPacks.Failure? ==> r == []
    ensures enabledPacks.Success? ==> r == PacksWithIds(enabledPacks.value, packIds)
  {
    match enabledPacks
    case Success(packs) => PacksWithIds(packs, packIds)
    case Failure(_) => []
  }

  /** Filtering keeps the repository's order: the result is a subsequence of the input. */
  lemma {:induction false} PacksWithIdsIsSubsequence(packs: seq<CardPack>, packIds: seq<string>)
    ensures IsSubsequence(PacksWithIds(packs, packIds), packs)
    decreases |packs|
  {
    if packs != [] {
      var init := packs[..|packs| - 1];
      var last := packs[|packs| - 1];
      PacksWithIdsIsSubsequence(init, packIds);
      SubsequenceSnoc(PacksWithIds(init, packIds), init, last, last.packId in packIds);
      assert init + [last] == packs;
    }
  }

  /** `sub` is `s` with some elements dropped and the rest kept in order. */
  predicate IsSubsequence<T(==)>(sub: seq<T>, s: seq<T>)
    decreases |s|
  {
    if sub == [] then true
    else if s == [] then false
    else if sub[|sub| - 1] == s[|s| - 1] then IsSubsequence(sub[..|sub| - 1], s[..|s| - 1])
    else IsSubsequence(sub, s[..|s| - 1])
  }

  lemma SubsequenceSnoc<T>(sub: seq<T>, s: seq<T>, x: T, keep: bool)
    requires IsSubsequence(sub, s)
    ensures IsSubsequence(sub + (if keep then [x] else []), s + [x])
  {
    var t := s + [x];
    assert t[..|t| - 1] == s;
    if keep {
      var u := sub + [x];
      assert u[..|u| - 1] == sub;
    } else {
      assert sub + [] == sub;
      SubsequenceExtend(sub, s, x);
    }
  }

  /** Appending to the sequence keeps every subsequence. */
  lemma {:induction false} SubsequenceExtend<T>(sub: seq<T>, s: seq<T>, x: T)
    requires IsSubsequence(sub, s)
    ensures IsSubsequence(sub, s + [x])
    decreases |s|, 1
  {
    var t := s + [x];
    assert t[..|t| - 1] == s;
    if sub != [] && sub[|sub| - 1] == x {
      SubsequenceDropLast(sub, s);
    }
  }

  /** A subsequence of `s` stays one when its last element is dropped. */
  lemma {:induction false} SubsequenceDropLast<T>(sub: seq<T>, s: seq<T>)
    requires sub != [] && IsSubsequence(sub, s)
    ensures IsSubsequence(sub[..|sub| - 1], s)
    decreases |s|, 0
  {
    var init := sub[..|sub| - 1];
    var front, last := s[..|s| - 1], s[|s| - 1];
    assert front + [last] == s;
    if sub[|sub| - 1] == last {
      assert IsSubsequence(init, front);
    } else {
      assert IsSubsequence(sub, front);
      SubsequenceDropLast(sub, front);
    }
    SubsequenceExtend(init, front, last);
  }

  // ---------------------------------------------------------------------------
  // Base map

  const StartTileOfBase: Tile := Tile(0, StartTile, "출발", "게임 시작!")

  /** `createBaseMapTemplate`: 16 squares, START fixed at 0, 15 variable slots. */
  function BaseMapTemplate(): (t: MapTemplate)
    ensures t.boardSize == 16 && t.variableSlots == 15
    ensures t.fixedTiles == [StartTileOfBase]
    ensures t.defaultTileWeights == TileWeightModifier(0.4, 0.2, 0.2, 0.2, [])
  {
    MapTemplate("default", "기본 맵", "주류마블 기본 게임 보드", 16, [StartTileOfBase], 15,
      TileWeightModifier(0.4, 0.2, 0.2, 0.2, []))
  }

  /** The base template's slots add up to the board and its weights to one, with cards the likeliest. */
  lemma BaseTemplateIsConsistent()
    ensures var t := BaseMapTemplate();
      && |t.fixedTiles| + t.variableSlots == t.boardSize
      && t.fixedTiles[0].position == 0 && t.fixedTiles[0].tileType == StartTile
      && var w := t.defaultTileWeights;
        w.cardWeight + w.eventWeight + w.safeWeight + w.trapWeight == 1.0
        && w.cardWeight > w.eventWeight && w.eventWeight == w.safeWeight == w.trapWeight
  {
  }

  /** On the base board every forced tile can be placed, whatever the packs demand. */
  lemma BaseBoardPlacesAnyForcedTiles(forced: seq<TileTemplate>)
    ensures GenerateMap.ForcedPlaceable(forced, BaseMapTemplate().boardSize)
  {
  }

  // ---------------------------------------------------------------------------
  // Deck

  /** `createSampleCards`: the ten built-in cards. */
  function SampleCards(): (cards: seq<Card>)
    ensures |cards| == 10
  {
    [ Card("default_penalty_normal_001", "default", Penalty, Self, "원샷", "깔끔하게 원샷!", Severity.Normal, 1.0, None, false),
      Card("default_mission_mild_001", "default", Mission, Self, "자기소개 타임", "자신을 3가지 키워드로 소개하세요.", Mild, 1.0, None, false),
      Card("default_safe_mild_001", "default", Safe, Self, "벌칙 면제권", "이번 턴의 모든 벌칙에서 해방!", Mild, 0.0, None, false),
      Card("default_mission_normal_001", "default", Mission, Self, "밸런스 게임", "선택 후 이유 설명하기", Severity.Normal, 1.0, None, false),
      Card("default_rule_mild_001", "default", Rule, All, "금지어 게임", "다음 턴까지 '나' 사용 금지!", Mild, 1.0, None, false),
      Card("default_penalty_mild_001", "default", Penalty, Self, "물 한잔 원샷", "건강을 위해 물 한잔!", Mild, 0.0, None, false),
      Card("default_event_mild_001", "default", Event, All, "방향 전환", "게임 진행 방향이 바뀝니다!", Mild, 0.0, None, false),
      Card("default_penalty_normal_002", "default", Penalty, TargetOne, "너, 마셔라", "한 명을 지목해 1샷 선물!", Severity.Normal, 1.0, None, false),
      Card("default_mission_mild_003", "default", Mission, All, "건배사 제의", "멋진 건배사를 외치세요!", Mild, 1.0, None, false),
      Card("default_penalty_normal_003", "default", Penalty, Self, "러브샷", "왼쪽 사람과 러브샷!", Severity.Normal, 1.0, None, false) ]
  }

  /** The samples belong to the "default" pack, are built in, and include MILD and NORMAL cards. */
  lemma SampleCardsShape()
    ensures forall c :: c in SampleCards() ==> c.cardPackId == "default" && !c.isCustom
    ensures SampleCards()[1].severity == Mild && SampleCards()[0].severity == Severity.Normal
  {
  }

  /** The `when (config.severityFilter)` test on a card's severity. */
  predicate SeverityAllowed(filter: Severity, severity: Severity) {
    match filter
    case Mild => severity == Mild
    case Normal => severity in [Mild, Severity.Normal]
    case Spicy => true
  }

  /** The filter keeps exactly the severities up to the chosen one. */
  lemma SeverityAllowedIsUpTo(filter: Severity, severity: Severity)
    ensures SeverityAllowed(filter, severity) <==> severity.Rank() <= filter.Rank()
  {
    match severity
    case Mild =>
    case Normal =>
    case Spicy =>
  }

  function FilterBySeverity(cards: seq<Card>, filter: Severity): (r: seq<Card>)
    ensures |r| <= |cards|
    ensures forall c :: c in r <==> c in cards && SeverityAllowed(filter, c.severity)
    decreases |cards|
  {
    if cards == [] then []
    else
      var last := cards[|cards| - 1];
      FilterBySeverity(cards[..|cards| - 1], filter) + (if SeverityAllowed(filter, last.severity) then [last] else [])
  }

  /** The cards of every pack, pack by pack; `cardsOf` stands for the repository's `getCardsByPack`. */
  function PackCards(packs: seq<CardPack>, cardsOf: string -> seq<Card>): seq<Card>
    decreases |packs|
  {
    if packs == [] then []
    else PackCards(packs[..|packs| - 1], cardsOf) + cardsOf(packs[|packs| - 1].packId)
  }

  /** The collected cards are exactly those of the activated packs. */
  lemma {:induction false} PackCardsMembers(packs: seq<CardPack>, cardsOf: string -> seq<Card>, c: Card)
    ensures c in PackCards(packs, cardsOf) <==> exists i :: 0 <= i < |packs| && c in cardsOf(packs[i].packId)
    decreases |packs|
  {
    if packs != [] {
      var init := packs[..|packs| - 1];
      PackCardsMembers(init, cardsOf, c);
      assert forall i :: 0 <= i < |init| ==> init[i] == packs[i];
      if c in cardsOf(packs[|packs| - 1].packId) {
        assert 0 <= |packs| - 1 < |packs|;
      }
    }
  }

  /** The deck `buildDeck` returns. */
  function DeckOf(packs: seq<CardPack>, config: SessionConfig, cardsOf: string -> seq<Card>): seq<Card> {
    var allCards := PackCards(packs, cardsOf);
    var source := if allCards == [] then SampleCards() else allCards;
    var finalDeck := FilterBySeverity(source, config.severityFilter) + config.customCards;
    if finalDeck == [] then SampleCards() else finalDeck
  }

  /** The deck is never empty. */
  lemma DeckNeverEmpty(packs: seq<CardPack>, config: SessionConfig, cardsOf: string -> seq<Card>)
    ensures |DeckOf(packs, config, cardsOf)| > 0
  {
  }

  /** The session's custom cards close the deck, unfiltered, whatever their severity. */
  lemma CustomCardsCloseTheDeck(packs: seq<CardPack>, config: SessionConfig, cardsOf: string -> seq<Card>)
    requires config.customCards != []
    ensures var deck := DeckOf(packs, config, cardsOf);
      |config.customCards| <= |deck| && deck[|deck| - |config.customCards|..] == config.customCards
  {
  }

  /**
   * Apart from the custom cards and the final fallback, every card of the deck passed the
   * filter and comes from the packs, or from the samples when the packs had no cards.
   */
  lemma DeckCardsPassTheFilter(packs: seq<CardPack>, config: SessionConfig, cardsOf: string -> seq<Card>, c: Card)
    requires c in DeckOf(packs, config, cardsOf) && c !in config.customCards
    ensures DeckOf(packs, config, cardsOf) == SampleCards() || SeverityAllowed(config.severityFilter, c.severity)
    ensures PackCards(packs, cardsOf) != [] ==>
      (DeckOf(packs, config, cardsOf) == SampleCards() || exists i :: 0 <= i < |packs| && c in cardsOf(packs[i].packId))
    ensures PackCards(packs, cardsOf) == [] ==> c in SampleCards()
  {
    var all := PackCards(packs, cardsOf);
    var source := if all == [] then SampleCards() else all;
    var filtered := FilterBySeverity(source, config.severityFilter);
    if filtered + config.customCards != [] {
      assert c in filtered;
      PackCardsMembers(packs, cardsOf, c);
    }
  }

  /**
   * The last fallback is not filtered: a MILD session whose packs hold only SPICY cards and
   * which has no custom cards plays with all ten samples, NORMAL ones included.
   */
  lemma FallbackIgnoresTheFilter(config: SessionConfig, pack: CardPack, spicy: Card)
    requires config.severityFilter == Mild && config.customCards == [] && spicy.severity == Spicy
    ensures var cardsOf := (id: string) => [spicy];
      && DeckOf([pack], config, cardsOf) == SampleCards()
      && SampleCards()[0] in DeckOf([pack], config, cardsOf)
      && !SeverityAllowed(Mild, SampleCards()[0].severity)
  {
    var cardsOf := (id: string) => [spicy];
    assert PackCards([pack], cardsOf) == [spicy];
    assert FilterBySeverity([spicy], Mild) == [];
  }

  /** `buildDeck`: pack cards collected in a loop, then the sample fallback, the filter and the custom cards. */
  method BuildDeck(cardPacks: seq<CardPack>, config: SessionConfig, cardsOf: string -> seq<Card>)
    returns (deck: seq<Card>)
    ensures deck == DeckOf(cardPacks, config, cardsOf)
  {
    var allCards: seq<Card> := [];
    for i := 0 to |cardPacks|
      invariant allCards == PackCards(cardPacks[..i], cardsOf)
    {
      assert cardPacks[..i + 1][..i] == cardPacks[..i];
      allCards := allCards + cardsOf(cardPacks[i].packId);
    }
    assert cardPacks[..|cardPacks|] == cardPacks;
    ghost var collected := allCards;
    if allCards == [] {
      allCards := allCards + SampleCards();
      assert allCards == SampleCards();
    }
    assert allCards == if collected == [] then SampleCards() else collected;
    var filteredCards := FilterBySeverity(allCards, config.severityFilter);
    var finalDeck := filteredCards + config.customCards;
    deck := if finalDeck == [] then SampleCards() else finalDeck;
  }

  // ---------------------------------------------------------------------------
  // The initial state

  /**
   * `invoke`. The two clock readings are `seed` (taken before the map is generated) and
   * `now` (the start time); `randomComponent` is the time perturbation of the map seed and
   * `shuffleRandom` the generator `shuffled()` draws from.
   */
  method Invoke(config: SessionConfig, enabledPacks: Result<seq<CardPack>, string>, cardsOf: string -> seq<Card>,
                seed: int, randomComponent: int, shuffleRandom: Random, now: int)
    returns (gs: GameState)
    ensures var packs := LoadActivatedCardPacks(enabledPacks, config.activatedCardPackIds);
      var combined := GenerateMap.CombineAll(BaseMapTemplate().defaultTileWeights, packs);
      var finalSeed := GenerateMap.CalculateFinalSeed(seed, combined.seedBias, packs, randomComponent);
      && gs.board == GenerateMap.SortByPosition(GenerateMap.UnsortedTiles(BaseMapTemplate(), combined.tileWeights, Seeded(finalSeed)))
      && gs.deck == Shuffled(DeckOf(packs, config, cardsOf), shuffleRandom)
    ensures gs.sessionId == "session_" + IntToString(seed) && gs.randomSeed == seed
    ensures gs.players == InitialPlayers(config.playerNames)
    ensures gs.currentPlayerIndex == 0 && gs.currentTurn == 1
    ensures gs.turnPhase == Start && gs.status == InProgress && gs.direction == Clockwise
    ensures gs.discardPile == [] && gs.activeRules == [] && gs.doubleCount == 0
    ensures gs.lastDiceResult == None && gs.currentCard == None && gs.startTime == now
    ensures SortedByPosition(gs.board)
  {
    var activatedCardPacks := LoadActivatedCardPacks(enabledPacks, config.activatedCardPackIds);
    var baseTemplate := BaseMapTemplate();
    BaseBoardPlacesAnyForcedTiles(GenerateMap.CombineAll(baseTemplate.defaultTileWeights, activatedCardPacks).tileWeights.forceIncludeTiles);
    var generatedMap := GenerateMap.Execute(baseTemplate, activatedCardPacks, seed, randomComponent);
    var players := InitialPlayers(config.playerNames);
    var deck := BuildDeck(activatedCardPacks, config, cardsOf);
    gs := GameState("session_" + IntToString(seed), seed, players, generatedMap.tiles, Shuffled(deck, shuffleRandom),
      [], 0, 1, Start, InProgress, Clockwise, None, None, [], 0, now);
  }

  /** The initial deck is a non-empty permutation of the built deck. */
  lemma InitialDeckIsShuffledDeck(packs: seq<CardPack>, config: SessionConfig, cardsOf: string -> seq<Card>, shuffleRandom: Random)
    ensures var deck := DeckOf(packs, config, cardsOf);
      && multiset(Shuffled(deck, shuffleRandom)) == multiset(deck)
      && |Shuffled(deck, shuffleRandom)| > 0
  {
    DeckNeverEmpty(packs, config, cardsOf);
  }
}
