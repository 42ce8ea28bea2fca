/**
 * Map generation: the card packs' modifiers are folded into one, a seed is derived from
 * them, the board is laid out from fixed, forced and weighted random tiles, and the
 * special-rule lines are listed.
 */
module GenerateMap {
  import opened Kotlin
  import opened Wrappers
  import opened Rand
  import opened TileModel
  import opened MapModifierModel
  import opened MapTemplateModel
  import opened CardPackModel

  // ---------------------------------------------------------------------------
  // Combining modifiers

  /** `mergeRules`: switches are AND-ed, the streak limit is the smaller, the multipliers multiply, the later win condition wins. */
  function MergeRules(rule1: RuleModifier, rule2: RuleModifier): (r: RuleModifier)
    ensures r.allowConsecutivePenalty <==> rule1.allowConsecutivePenalty && rule2.allowConsecutivePenalty
    ensures r.maxConsecutivePenalty == Min(rule1.maxConsecutivePenalty, rule2.maxConsecutivePenalty)
    ensures r.penaltyMultiplier == rule1.penaltyMultiplier * rule2.penaltyMultiplier
    ensures r.enableDoubleBonus <==> rule1.enableDoubleBonus && rule2.enableDoubleBonus
    ensures r.enableReverseDirection <==> rule1.enableReverseDirection && rule2.enableReverseDirection
    ensures r.winCondition == rule2.winCondition
  {
    RuleModifier(
      rule1.allowConsecutivePenalty && rule2.allowConsecutivePenalty,
      Min(rule1.maxConsecutivePenalty, rule2.maxConsecutivePenalty),
      rule1.penaltyMultiplier * rule2.penaltyMultiplier,
      rule1.enableDoubleBonus && rule2.enableDoubleBonus,
      rule1.enableReverseDirection && rule2.enableReverseDirection,
      rule2.winCondition)
  }

  /** `mergeEvents`: the three probabilities are averaged pairwise, custom events concatenated. */
  function MergeEvents(event1: EventModifier, event2: EventModifier): (r: EventModifier)
    ensures r.customEvents == event1.customEvents + event2.customEvents
  {
    EventModifier(
      (event1.specialEventProbability + event2.specialEventProbability) / 2.0,
      (event1.miniBossProbability + event2.miniBossProbability) / 2.0,
      (event1.bonusRoundProbability + event2.bonusRoundProbability) / 2.0,
      event1.customEvents + event2.customEvents)
  }

  /** `m` is the midpoint of `a` and `b`: equally far from both, between them. */
  predicate Midway(a: real, m: real, b: real) {
    m - a == b - m && (a <= m <= b || b <= m <= a)
  }

  /** Each merged probability lies halfway between the two it merges. */
  lemma MergeEventsAverages(event1: EventModifier, event2: EventModifier)
    ensures var r := MergeEvents(event1, event2);
      && Midway(event1.specialEventProbability, r.specialEventProbability, event2.specialEventProbability)
      && Midway(event1.miniBossProbability, r.miniBossProbability, event2.miniBossProbability)
      && Midway(event1.bonusRoundProbability, r.bonusRoundProbability, event2.bonusRoundProbability)
  {
  }

  /** One step of `combineModifiers`' `forEach`: a pack without a modifier changes nothing. */
  function ApplyPack(acc: MapModifier, pack: CardPack): (r: MapModifier)
    ensures pack.mapModifier.None? ==> r == acc
  {
    match pack.mapModifier
    case None => acc
    case Some(m) =>
      MapModifier(
        TileWeightModifier(
          acc.tileWeights.cardWeight * m.tileWeights.cardWeight,
          acc.tileWeights.eventWeight * m.tileWeights.eventWeight,
          acc.tileWeights.safeWeight * m.tileWeights.safeWeight,
          acc.tileWeights.trapWeight * m.tileWeights.trapWeight,
          acc.tileWeights.forceIncludeTiles + m.tileWeights.forceIncludeTiles),
        MergeRules(acc.rules, m.rules),
        MergeEvents(acc.events, m.events),
        SeedBias(acc.seedBias.biasValue + m.seedBias.biasValue,
                 (acc.seedBias.randomnessLevel + m.seedBias.randomnessLevel) / 2.0))
  }

  /** The fold `combineModifiers` computes, over the packs in order, from the template weights and the defaults. */
  function CombineAll(baseWeights: TileWeightModifier, packs: seq<CardPack>): MapModifier
    decreases |packs|
  {
    if packs == [] then MapModifier(baseWeights, DefaultRules, DefaultEvents, DefaultSeedBias)
    else ApplyPack(CombineAll(baseWeights, packs[..|packs| - 1]), packs[|packs| - 1])
  }

  /** `combineModifiers`: four accumulators updated pack by pack. */
  method CombineModifiers(baseWeights: TileWeightModifier, cardPacks: seq<CardPack>) returns (combined: MapModifier)
    ensures combined == CombineAll(baseWeights, cardPacks)
  {
    var tileWeights := baseWeights;
    var rules := DefaultRules;
    var events := DefaultEvents;
    var seedBias := DefaultSeedBias;
    for i := 0 to |cardPacks|
      invariant MapModifier(tileWeights, rules, events, seedBias) == CombineAll(baseWeights, cardPacks[..i])
    {
      assert cardPacks[..i + 1][..i] == cardPacks[..i];
      var pack := cardPacks[i];
      if pack.mapModifier.Some? {
        var modifier := pack.mapModifier.value;
        tileWeights := TileWeightModifier(
          tileWeights.cardWeight * modifier.tileWeights.cardWeight,
          tileWeights.eventWeight * modifier.tileWeights.eventWeight,
          tileWeights.safeWeight * modifier.tileWeights.safeWeight,
          tileWeights.trapWeight * modifier.tileWeights.trapWeight,
          tileWeights.forceIncludeTiles + modifier.tileWeights.forceIncludeTiles);
        rules := MergeRules(rules, modifier.rules);
        events := MergeEvents(events, modifier.events);
        seedBias := SeedBias(seedBias.biasValue + modifier.seedBias.biasValue,
                             (seedBias.randomnessLevel + modifier.seedBias.randomnessLevel) / 2.0);
      }
    }
    assert cardPacks[..|cardPacks|] == cardPacks;
    combined := MapModifier(tileWeights, rules, events, seedBias);
  }

  /** Packs without a modifier leave the template weights and every default as they are. */
  lemma {:induction false} NoModifiersNoEffect(baseWeights: TileWeightModifier, packs: seq<CardPack>)
    requires forall i :: 0 <= i < |packs| ==> packs[i].mapModifier.None?
    ensures CombineAll(baseWeights, packs) == MapModifier(baseWeights, DefaultRules, DefaultEvents, DefaultSeedBias)
    decreases |packs|
  {
    if packs != [] {
      NoModifiersNoEffect(baseWeights, packs[..|packs| - 1]);
    }
  }

  datatype WeightKind = CardWeight | EventWeight | SafeWeight | TrapWeight

  function WeightOf(w: TileWeightModifier, kind: WeightKind): real {
    match kind
    case CardWeight => w.cardWeight
    case EventWeight => w.eventWeight
    case SafeWeight => w.safeWeight
    case TrapWeight => w.trapWeight
  }

  /** What one pack multiplies a weight by: 1 without a modifier. */
  function PackFactor(pack: CardPack, kind: WeightKind): real {
    if pack.mapModifier.Some? then WeightOf(pack.mapModifier.value.tileWeights, kind) else 1.0
  }

  /** `start` multiplied, pack by pack, by the weight of every pack that carries a modifier. */
  function WeightFold(start: real, packs: seq<CardPack>, kind: WeightKind): real
    decreases |packs|
  {
    if packs == [] then start
    else WeightFold(start, packs[..|packs| - 1], kind) * PackFactor(packs[|packs| - 1], kind)
  }

  lemma ApplyPackWeight(acc: MapModifier, pack: CardPack, kind: WeightKind)
    ensures WeightOf(ApplyPack(acc, pack).tileWeights, kind) == WeightOf(acc.tileWeights, kind) * PackFactor(pack, kind)
  {
  }

  /** Each combined weight is the template weight times every pack's weight, in pack order. */
  lemma {:induction false} CombinedWeightIsProduct(baseWeights: TileWeightModifier, packs: seq<CardPack>, kind: WeightKind)
    ensures WeightOf(CombineAll(baseWeights, packs).tileWeights, kind) == WeightFold(WeightOf(baseWeights, kind), packs, kind)
    decreases |packs|
  {
    if packs != [] {
      var init, last := packs[..|packs| - 1], packs[|packs| - 1];
      CombinedWeightIsProduct(baseWeights, init, kind);
      ApplyPackWeight(CombineAll(baseWeights, init), last, kind);
    }
  }

  /** A zero weight in any pack's modifier makes the combined weight zero. */
  lemma {:induction false} ZeroWeightAbsorbs(baseWeights: TileWeightModifier, packs: seq<CardPack>, kind: WeightKind, k: int)
    requires 0 <= k < |packs| && packs[k].mapModifier.Some?
    requires WeightOf(packs[k].mapModifier.value.tileWeights, kind) == 0.0
    ensures WeightOf(CombineAll(baseWeights, packs).tileWeights, kind) == 0.0
  {
    FactorZero(WeightOf(baseWeights, kind), packs, kind, k);
    CombinedWeightIsProduct(baseWeights, packs, kind);
  }

  lemma {:induction false} FactorZero(start: real, packs: seq<CardPack>, kind: WeightKind, k: int)
    requires 0 <= k < |packs| && packs[k].mapModifier.Some?
    requires WeightOf(packs[k].mapModifier.value.tileWeights, kind) == 0.0
    ensures WeightFold(start, packs, kind) == 0.0
    decreases |packs|
  {
    if k < |packs| - 1 {
      FactorZero(start, packs[..|packs| - 1], kind, k);
    }
  }

  /** The forced tiles of the packs' modifiers, concatenated in pack order. */
  function ForcedOf(packs: seq<CardPack>): seq<TileTemplate>
    decreases |packs|
  {
    if packs == [] then []
    else
      var last := packs[|packs| - 1];
      ForcedOf(packs[..|packs| - 1])
        + (if last.mapModifier.Some? then last.mapModifier.value.tileWeights.forceIncludeTiles else [])
  }

  lemma {:induction false} CombinedForcedTiles(baseWeights: TileWeightModifier, packs: seq<CardPack>)
    ensures CombineAll(baseWeights, packs).tileWeights.forceIncludeTiles == baseWeights.forceIncludeTiles + ForcedOf(packs)
    decreases |packs|
  {
    if packs != [] {
      CombinedForcedTiles(baseWeights, packs[..|packs| - 1]);
    }
  }

  /** The win condition of the last pack with a modifier, or the default. */
  function LastWinCondition(packs: seq<CardPack>): WinCondition
    decreases |packs|
  {
    if packs == [] then CompleteRounds
    else if packs[|packs| - 1].mapModifier.Some? then packs[|packs| - 1].mapModifier.value.rules.winCondition
    else LastWinCondition(packs[..|packs| - 1])
  }

  /**
   * The combined rules: consecutive penalties are allowed only if every modifier allows them,
   * the streak limit is at most the default 3 and at most every modifier's, and the win
   * condition is the last modifier's.
   */
  lemma {:induction false} CombinedRules(baseWeights: TileWeightModifier, packs: seq<CardPack>)
    ensures var r := CombineAll(baseWeights, packs).rules;
      && (r.allowConsecutivePenalty <==>
           forall i :: 0 <= i < |packs| && packs[i].mapModifier.Some? ==> packs[i].mapModifier.value.rules.allowConsecutivePenalty)
      && r.maxConsecutivePenalty <= 3
      && (forall i :: 0 <= i < |packs| && packs[i].mapModifier.Some? ==>
           r.maxConsecutivePenalty <= packs[i].mapModifier.value.rules.maxConsecutivePenalty)
      && r.winCondition == LastWinCondition(packs)
    decreases |packs|
  {
    if packs != [] {
      var init := packs[..|packs| - 1];
      CombinedRules(baseWeights, init);
      assert forall i :: 0 <= i < |init| ==> init[i] == packs[i];
    }
  }

  /**
   * Starting from the default level 1.0 and averaging with non-negative pack levels, the
   * combined randomness level stays positive.
   */
  lemma {:induction false} RandomnessStaysPositive(baseWeights: TileWeightModifier, packs: seq<CardPack>)
    requires forall i :: 0 <= i < |packs| && packs[i].mapModifier.Some? ==> packs[i].mapModifier.value.seedBias.randomnessLevel >= 0.0
    ensures CombineAll(baseWeights, packs).seedBias.randomnessLevel > 0.0
    decreases |packs|
  {
    if packs != [] {
      var init := packs[..|packs| - 1];
      assert forall i :: 0 <= i < |init| ==> init[i] == packs[i];
      RandomnessStaysPositive(baseWeights, init);
    }
  }

  /** Averaging keeps the special-event probability inside [0, 1] when every pack's is. */
  lemma {:induction false} EventProbabilityStaysInRange(baseWeights: TileWeightModifier, packs: seq<CardPack>)
    requires forall i :: 0 <= i < |packs| && packs[i].mapModifier.Some? ==>
      0.0 <= packs[i].mapModifier.value.events.specialEventProbability <= 1.0
    ensures 0.0 <= CombineAll(baseWeights, packs).events.specialEventProbability <= 1.0
    decreases |packs|
  {
    if packs != [] {
      var init := packs[..|packs| - 1];
      assert forall i :: 0 <= i < |init| ==> init[i] == packs[i];
      EventProbabilityStaysInRange(baseWeights, init);
      var last := packs[|packs| - 1];
      if last.mapModifier.Some? {
        MergeEventsAverages(CombineAll(baseWeights, init).events, last.mapModifier.value.events);
      }
    }
  }

  // ---------------------------------------------------------------------------
  // The seed

  function PackIds(packs: seq<CardPack>): (ids: seq<string>)
    ensures |ids| == |packs| && forall i :: 0 <= i < |packs| ==> ids[i] == packs[i].packId
  {
    seq(|packs|, i requires 0 <= i < |packs| => packs[i].packId)
  }

  /**
   * `calculateFinalSeed`: base seed plus bias plus the hash of the joined pack ids, plus,
   * when the randomness level is positive, the truncated product of the level with
   * `randomComponent` (the generator output seeded by the clock, here a parameter).
   */
  function CalculateFinalSeed(baseSeed: int, seedBias: SeedBias, cardPacks: seq<CardPack>, randomComponent: int): (s: int)
    ensures seedBias.randomnessLevel <= 0.0 ==>
      s == baseSeed + seedBias.biasValue + HashCode(JoinToString(PackIds(cardPacks), "|"))
    ensures seedBias.randomnessLevel > 0.0 ==>
      s == baseSeed + seedBias.biasValue + HashCode(JoinToString(PackIds(cardPacks), "|"))
           + Trunc(randomComponent as real * seedBias.randomnessLevel)
  {
    var finalSeed := baseSeed + seedBias.biasValue;
    var packHash := HashCode(JoinToString(PackIds(cardPacks), "|"));
    var hashed := finalSeed + packHash;
    if seedBias.randomnessLevel > 0.0 then hashed + Trunc(randomComponent as real * seedBias.randomnessLevel)
    else hashed
  }

  /** With combined modifiers of non-negative levels the clock-based term is always added. */
  lemma PerturbationAlwaysApplies(baseWeights: TileWeightModifier, packs: seq<CardPack>, baseSeed: int, randomComponent: int)
    requires forall i :: 0 <= i < |packs| && packs[i].mapModifier.Some? ==> packs[i].mapModifier.value.seedBias.randomnessLevel >= 0.0
    ensures var bias := CombineAll(baseWeights, packs).seedBias;
      CalculateFinalSeed(baseSeed, bias, packs, randomComponent)
        == baseSeed + bias.biasValue + HashCode(JoinToString(PackIds(packs), "|"))
           + Trunc(randomComponent as real * bias.randomnessLevel)
  {
    RandomnessStaysPositive(baseWeights, packs);
  }

  // ---------------------------------------------------------------------------
  // Tiles

  /** Reading a tile type back from its title. */
  function TypeOfTitle(title: string): Option<TileType> {
    if title == "출발" then Some(StartTile)
    else if title == "카드" then Some(CardTile)
    else if title == "이벤트" then Some(EventTile)
    else if title == "휴식" then Some(SafeTile)
    else if title == "함정" then Some(TrapTile)
    else None
  }

  /** `getTileTitle`: the title names the type, so different types get different titles. */
  function TileTitle(t: TileType): (title: string)
    ensures TypeOfTitle(title) == Some(t)
  {
    match t
    case StartTile => "출발"
    case CardTile => assert "카드"[0] != "출발"[0]; "카드"
    case EventTile => assert "이벤트"[0] != "출발"[0] && "이벤트"[0] != "카드"[0]; "이벤트"
    case SafeTile =>
      assert "휴식"[0] != "출발"[0] && "휴식"[0] != "카드"[0] && "휴식"[0] != "이벤트"[0];
      "휴식"
    case TrapTile =>
      assert "함정"[0] != "출발"[0] && "함정"[0] != "카드"[0] && "함정"[0] != "이벤트"[0] && "함정"[0] != "휴식"[0];
      "함정"
  }

  /** Reading a tile type back from its description. */
  function TypeOfDescription(description: string): Option<TileType> {
    if description == "게임 시작!" then Some(StartTile)
    else if description == "카드를 뽑으세요" then Some(CardTile)
    else if description == "특별 이벤트!" then Some(EventTile)
    else if description == "잠시 쉬어가세요" then Some(SafeTile)
    else if description == "벌칙 2배!" then Some(TrapTile)
    else None
  }

  /** `getTileDescription`: the description, too, tells the types apart. */
  function TileDescription(t: TileType): (description: string)
    ensures TypeOfDescription(description) == Some(t)
  {
    match t
    case StartTile => "게임 시작!"
    case CardTile => assert "카드를 뽑으세요"[0] != "게임 시작!"[0]; "카드를 뽑으세요"
    case EventTile =>
      assert "특별 이벤트!"[0] != "게임 시작!"[0] && "특별 이벤트!"[0] != "카드를 뽑으세요"[0];
      "특별 이벤트!"
    case SafeTile =>
      assert "잠시 쉬어가세요"[0] != "게임 시작!"[0] && "잠시 쉬어가세요"[0] != "카드를 뽑으세요"[0]
        && "잠시 쉬어가세요"[0] != "특별 이벤트!"[0];
      "잠시 쉬어가세요"
    case TrapTile =>
      assert "벌칙 2배!"[0] != "게임 시작!"[0] && "벌칙 2배!"[0] != "카드를 뽑으세요"[0]
        && "벌칙 2배!"[0] != "특별 이벤트!"[0] && "벌칙 2배!"[0] != "잠시 쉬어가세요"[0];
      "벌칙 2배!"
  }

  /** Different tile types get different titles and different descriptions. */
  lemma TitleIdentifiesType(a: TileType, b: TileType)
    requires TileTitle(a) == TileTitle(b) || TileDescription(a) == TileDescription(b)
    ensures a == b
  {
    if TileTitle(a) == TileTitle(b) {
      assert TypeOfTitle(TileTitle(a)) == Some(b);
    } else {
      assert TypeOfDescription(TileDescription(a)) == Some(b);
    }
  }

  /**
   * `selectTileType`: one float from the generator scaled by the total weight, compared
   * against the cumulative card, event and safe weights; everything beyond is a trap.
   */
  function SelectTileType(weights: TileWeightModifier, random: Random): (res: (TileType, Random))
    ensures res.1 == NextFloat(random).1
    ensures var total := weights.cardWeight + weights.eventWeight + weights.safeWeight + weights.trapWeight;
      var v := NextFloat(random).0 * total;
      && (res.0 == CardTile <==> v < weights.cardWeight)
      && (res.0 == EventTile <==> !(v < weights.cardWeight) && v < weights.cardWeight + weights.eventWeight)
      && (res.0 == SafeTile <==> !(v < weights.cardWeight) && !(v < weights.cardWeight + weights.eventWeight)
                                 && v < weights.cardWeight + weights.eventWeight + weights.safeWeight)
      && (res.0 == TrapTile <==> !(v < weights.cardWeight) && !(v < weights.cardWeight + weights.eventWeight)
                                 && !(v < weights.cardWeight + weights.eventWeight + weights.safeWeight))
    ensures res.0 != StartTile
  {
    var totalWeight := weights.cardWeight + weights.eventWeight + weights.safeWeight + weights.trapWeight;
    var (u, next) := NextFloat(random);
    var randomValue := u * totalWeight;
    var cumulative1 := 0.0 + weights.cardWeight;
    var cumulative2 := cumulative1 + weights.eventWeight;
    var cumulative3 := cumulative2 + weights.safeWeight;
    var t := if randomValue < cumulative1 then CardTile
      else if randomValue < cumulative2 then EventTile
      else if randomValue < cumulative3 then SafeTile
      else TrapTile;
    (t, next)
  }

  /** With non-negative weights summing to zero every slot becomes a trap. */
  lemma ZeroTotalGivesTrap(weights: TileWeightModifier, random: Random)
    requires weights.cardWeight >= 0.0 && weights.eventWeight >= 0.0 && weights.safeWeight >= 0.0 && weights.trapWeight >= 0.0
    requires weights.cardWeight + weights.eventWeight + weights.safeWeight + weights.trapWeight == 0.0
    ensures SelectTileType(weights, random).0 == TrapTile
  {
  }

  /** When only the card weight is positive every slot becomes a card tile. */
  lemma OnlyCardWeightGivesCards(weights: TileWeightModifier, random: Random)
    requires weights.cardWeight > 0.0 && weights.eventWeight == 0.0 && weights.safeWeight == 0.0 && weights.trapWeight == 0.0
    ensures SelectTileType(weights, random).0 == CardTile
  {
    var u := NextFloat(random).0;
    assert u * weights.cardWeight < 1.0 * weights.cardWeight;
  }

  /** A forced tile at -1 can be placed only on a board with at least one square. */
  predicate ForcedPlaceable(forced: seq<TileTemplate>, boardSize: int) {
    forall i :: 0 <= i < |forced| && forced[i].position == -1 ==> boardSize > 0
  }

  /** One forced tile: a given position is kept, -1 draws `nextInt(boardSize)`. */
  function PlaceOne(t: TileTemplate, boardSize: int, random: Random): (res: (Tile, Random))
    requires t.position == -1 ==> boardSize > 0
  {
    var (position, r1) := if t.position == -1 then NextInt(random, boardSize) else (t.position, random);
    (Tile(position, t.tileType, t.title, t.description), r1)
  }

  /** The forced-tile loop over the templates in order; the generator is threaded through. */
  function PlaceForced(forced: seq<TileTemplate>, boardSize: int, random: Random): (res: (seq<Tile>, Random))
    requires ForcedPlaceable(forced, boardSize)
    ensures |res.0| == |forced|
    decreases |forced|
  {
    if forced == [] then ([], random)
    else
      var init := forced[..|forced| - 1];
      assert ForcedPlaceable(init, boardSize) by {
        assert forall i :: 0 <= i < |init| ==> init[i] == forced[i];
      }
      var (tiles, r1) := PlaceForced(init, boardSize, random);
      var (tile, r2) := PlaceOne(forced[|forced| - 1], boardSize, r1);
      (tiles + [tile], r2)
  }

  /** Extending the loop by the template at index `i`. */
  lemma PlaceForcedSnoc(forced: seq<TileTemplate>, boardSize: int, random: Random, i: int)
    requires ForcedPlaceable(forced, boardSize) && 0 <= i < |forced|
    ensures ForcedPlaceable(forced[..i], boardSize) && ForcedPlaceable(forced[..i + 1], boardSize)
    ensures var prev := PlaceForced(forced[..i], boardSize, random);
      var next := PlaceOne(forced[i], boardSize, prev.1);
      PlaceForced(forced[..i + 1], boardSize, random) == (prev.0 + [next.0], next.1)
  {
    var s := forced[..i + 1];
    assert s[..|s| - 1] == forced[..i] && s[|s| - 1] == forced[i];
    assert forall k :: 0 <= k < i + 1 ==> s[k] == forced[k];
  }

  /** A forced tile keeps its type, title and description and its position unless that is -1; -1 lands inside the board. */
  predicate PlacedFrom(tile: Tile, t: TileTemplate, boardSize: int) {
    && tile.tileType == t.tileType && tile.name == t.title && tile.description == t.description
    && (t.position != -1 ==> tile.position == t.position)
    && (t.position == -1 ==> 0 <= tile.position < boardSize)
  }

  lemma {:induction false} PlaceForcedKeepsTemplates(forced: seq<TileTemplate>, boardSize: int, random: Random)
    requires ForcedPlaceable(forced, boardSize)
    ensures forall i :: 0 <= i < |forced| ==> PlacedFrom(PlaceForced(forced, boardSize, random).0[i], forced[i], boardSize)
    decreases |forced|
  {
    if forced != [] {
      var init := forced[..|forced| - 1];
      assert forall i :: 0 <= i < |init| ==> init[i] == forced[i];
      assert ForcedPlaceable(init, boardSize);
      PlaceForcedKeepsTemplates(init, boardSize, random);
    }
  }

  /** The positions occupied by the tiles placed so far. */
  function Positions(tiles: seq<Tile>): set<int> {
    set i | 0 <= i < |tiles| :: tiles[i].position
  }

  /** `(p until n).filter { it !in occupied }`. */
  function FreeFrom(p: int, n: int, occupied: set<int>): seq<int>
    decreases n - p
  {
    if p >= n then [] else (if p in occupied then [] else [p]) + FreeFrom(p + 1, n, occupied)
  }

  predicate Increasing(r: seq<int>) {
    forall i, j :: 0 <= i < j < |r| ==> r[i] < r[j]
  }

  /** The free positions are exactly those of [p, n) not occupied, in increasing order. */
  lemma {:induction false} FreeFromSpec(p: int, n: int, occupied: set<int>)
    ensures forall x :: x in FreeFrom(p, n, occupied) <==> p <= x < n && x !in occupied
    ensures Increasing(FreeFrom(p, n, occupied))
    decreases n - p
  {
    if p < n {
      FreeFromSpec(p + 1, n, occupied);
      var rest := FreeFrom(p + 1, n, occupied);
      assert forall j :: 0 <= j < |rest| ==> p < rest[j] by {
        forall j | 0 <= j < |rest| ensures p < rest[j] { assert rest[j] in rest; }
      }
      var r := FreeFrom(p, n, occupied);
      assert Increasing(rest);
      if p !in occupied {
        assert r == [p] + rest;
        forall i, j | 0 <= i < j < |r| ensures r[i] < r[j] {
          assert r[j] == rest[j - 1];
          if i > 0 { assert r[i] == rest[i - 1]; }
        }
      }
    }
  }

  /** The filler loop: one weighted random tile per free position, in order. */
  function FillSlots(positions: seq<int>, weights: TileWeightModifier, random: Random): (res: (seq<Tile>, Random))
    ensures |res.0| == |positions|
    decreases |positions|
  {
    if positions == [] then ([], random)
    else
      var (tileType, r1) := SelectTileType(weights, random);
      var (rest, r2) := FillSlots(positions[1..], weights, r1);
      ([Tile(positions[0], tileType, TileTitle(tileType), TileDescription(tileType))] + rest, r2)
  }

  /** Unfolding the filler loop at position `p`. */
  lemma FillStep(p: int, n: int, occupied: set<int>, weights: TileWeightModifier, random: Random)
    requires p < n
    ensures p in occupied ==> FillSlots(FreeFrom(p, n, occupied), weights, random)
                              == FillSlots(FreeFrom(p + 1, n, occupied), weights, random)
    ensures p !in occupied ==>
      var (tileType, r1) := SelectTileType(weights, random);
      var rest := FillSlots(FreeFrom(p + 1, n, occupied), weights, r1);
      FillSlots(FreeFrom(p, n, occupied), weights, random)
        == ([Tile(p, tileType, TileTitle(tileType), TileDescription(tileType))] + rest.0, rest.1)
  {
    var rest := FreeFrom(p + 1, n, occupied);
    if p in occupied {
      assert FreeFrom(p, n, occupied) == rest;
    } else {
      assert FreeFrom(p, n, occupied) == [p] + rest;
      assert ([p] + rest)[1..] == rest;
    }
  }

  /** A filler is never a start tile and carries the title and description of its type. */
  predicate IsFiller(tile: Tile, position: int) {
    tile.position == position && tile.tileType != StartTile
    && tile.name == TileTitle(tile.tileType) && tile.description == TileDescription(tile.tileType)
  }

  lemma {:induction false} FillSlotsShape(positions: seq<int>, weights: TileWeightModifier, random: Random)
    ensures forall i :: 0 <= i < |positions| ==> IsFiller(FillSlots(positions, weights, random).0[i], positions[i])
    decreases |positions|
  {
    if positions != [] {
      var (tileType, r1) := SelectTileType(weights, random);
      FillSlotsShape(positions[1..], weights, r1);
      var rest := FillSlots(positions[1..], weights, r1).0;
      assert FillSlots(positions, weights, random).0
        == [Tile(positions[0], tileType, TileTitle(tileType), TileDescription(tileType))] + rest;
      forall i | 1 <= i < |positions|
        ensures IsFiller(FillSlots(positions, weights, random).0[i], positions[i])
      {
        assert positions[1..][i - 1] == positions[i];
      }
    }
  }

  /** How many leading tiles of a sorted list have a position not greater than `p`. */
  function InsertionPoint(sorted: seq<Tile>, p: int): (k: nat)
    requires SortedByPosition(sorted)
    ensures k <= |sorted|
    ensures forall i :: 0 <= i < k ==> sorted[i].position <= p
    ensures forall i :: k <= i < |sorted| ==> sorted[i].position > p
    decreases |sorted|
  {
    if sorted == [] || sorted[|sorted| - 1].position <= p then |sorted|
    else InsertionPoint(sorted[..|sorted| - 1], p)
  }

  lemma InsertKeepsOrder(sorted: seq<Tile>, t: Tile, k: nat)
    requires SortedByPosition(sorted) && k <= |sorted|
    requires forall i :: 0 <= i < k ==> sorted[i].position <= t.position
    requires forall i :: k <= i < |sorted| ==> sorted[i].position > t.position
    ensures SortedByPosition(sorted[..k] + [t] + sorted[k..])
  {
    var r := sorted[..k] + [t] + sorted[k..];
    forall i, j | 0 <= i < j < |r| ensures r[i].position <= r[j].position {
      if j < k {
        assert r[i] == sorted[i] && r[j] == sorted[j];
      } else if j == k {
        assert r[i] == sorted[i] && r[j] == t;
      } else if i == k {
        assert r[i] == t && r[j] == sorted[j - 1];
      } else if i < k {
        assert r[i] == sorted[i] && r[j] == sorted[j - 1];
      } else {
        assert r[i] == sorted[i - 1] && r[j] == sorted[j - 1];
      }
    }
  }

  /** Inserts `t` after every tile whose position is not greater, so equal positions keep their order. */
  function InsertByPosition(sorted: seq<Tile>, t: Tile): (r: seq<Tile>)
    requires SortedByPosition(sorted)
    ensures SortedByPosition(r)
    ensures multiset(r) == multiset(sorted) + multiset{t}
  {
    var k := InsertionPoint(sorted, t.position);
    InsertKeepsOrder(sorted, t, k);
    assert sorted == sorted[..k] + sorted[k..];
    sorted[..k] + [t] + sorted[k..]
  }

  /** `sortedBy { it.position }`: a stable insertion sort. */
  function SortByPosition(tiles: seq<Tile>): (r: seq<Tile>)
    ensures SortedByPosition(r)
    ensures multiset(r) == multiset(tiles)
    decreases |tiles|
  {
    if tiles == [] then []
    else
      assert tiles == tiles[..|tiles| - 1] + [tiles[|tiles| - 1]];
      InsertByPosition(SortByPosition(tiles[..|tiles| - 1]), tiles[|tiles| - 1])
  }

  /** The fixed tiles followed by the forced tiles, as placed before filling. */
  function PlacedTiles(template: MapTemplate, weights: TileWeightModifier, random: Random): (res: (seq<Tile>, Random))
    requires ForcedPlaceable(weights.forceIncludeTiles, template.boardSize)
  {
    var (forcedTiles, r1) := PlaceForced(weights.forceIncludeTiles, template.boardSize, random);
    (template.fixedTiles + forcedTiles, r1)
  }

  /** The fillers: one per position of [0, boardSize) the placed tiles leave free. */
  function Fillers(template: MapTemplate, weights: TileWeightModifier, random: Random): seq<Tile>
    requires ForcedPlaceable(weights.forceIncludeTiles, template.boardSize)
  {
    var (placed, r1) := PlacedTiles(template, weights, random);
    FillSlots(FreeFrom(0, template.boardSize, Positions(placed)), weights, r1).0
  }

  /** The tiles `generateTiles` produces, before sorting. */
  function UnsortedTiles(template: MapTemplate, weights: TileWeightModifier, random: Random): seq<Tile>
    requires ForcedPlaceable(weights.forceIncludeTiles, template.boardSize)
  {
    PlacedTiles(template, weights, random).0 + Fillers(template, weights, random)
  }

  /** The forced-tile loop of `generateTiles`, appending to the fixed tiles. */
  method PlaceForcedTiles(template: MapTemplate, forced: seq<TileTemplate>, random: Random)
    returns (placed: seq<Tile>, rng: Random)
    requires ForcedPlaceable(forced, template.boardSize)
    ensures (placed, rng) == (template.fixedTiles + PlaceForced(forced, template.boardSize, random).0,
                              PlaceForced(forced, template.boardSize, random).1)
  {
    placed := template.fixedTiles;
    rng := random;
    var i := 0;
    assert forced[..0] == [];
    assert ForcedPlaceable(forced[..0], template.boardSize);
    assert PlaceForced(forced[..0], template.boardSize, random) == ([], random);
    assert template.fixedTiles + [] == template.fixedTiles;
    while i < |forced|
      invariant 0 <= i <= |forced|
      invariant (placed, rng) == (template.fixedTiles + PlaceForced(forced[..i], template.boardSize, random).0,
                                  PlaceForced(forced[..i], template.boardSize, random).1)
    {
      var tileTemplate := forced[i];
      var position := tileTemplate.position;
      var next := rng;
      if tileTemplate.position == -1 {
        var (p, r1) := NextInt(rng, template.boardSize);
        position, next := p, r1;
      }
      var tile := Tile(position, tileTemplate.tileType, tileTemplate.title, tileTemplate.description);
      assert (tile, next) == PlaceOne(tileTemplate, template.boardSize, rng);
      PlaceForcedSnoc(forced, template.boardSize, random, i);
      ghost var prev := PlaceForced(forced[..i], template.boardSize, random);
      assert prev.1 == rng;
      assert PlaceForced(forced[..i + 1], template.boardSize, random) == (prev.0 + [tile], next);
      assert placed + [tile] == template.fixedTiles + (prev.0 + [tile]);
      placed := placed + [tile];
      rng := next;
      i := i + 1;
    }
    assert forced[..i] == forced;
  }

  /** The filler loop of `generateTiles`: one weighted tile per free position, appended in order. */
  method FillFreePositions(placed: seq<Tile>, boardSize: int, weights: TileWeightModifier, random: Random)
    returns (tiles: seq<Tile>)
    ensures tiles == placed + FillSlots(FreeFrom(0, boardSize, Positions(placed)), weights, random).0
  {
    var occupiedPositions := Positions(placed);
    ghost var goal := placed + FillSlots(FreeFrom(0, boardSize, occupiedPositions), weights, random).0;
    tiles := placed;
    var rng := random;
    var position := 0;
    while position < boardSize
      invariant 0 <= position
      invariant tiles + FillSlots(FreeFrom(position, boardSize, occupiedPositions), weights, rng).0 == goal
      decreases boardSize - position
    {
      FillStep(position, boardSize, occupiedPositions, weights, rng);
      if position !in occupiedPositions {
        var (tileType, r1) := SelectTileType(weights, rng);
        tiles := tiles + [Tile(position, tileType, TileTitle(tileType), TileDescription(tileType))];
        rng := r1;
      }
      position := position + 1;
    }
  }

  /** `generateTiles`: fixed tiles, then forced tiles, then fillers for the free positions, sorted. */
  method GenerateTiles(template: MapTemplate, weights: TileWeightModifier, random: Random) returns (tiles: seq<Tile>)
    requires ForcedPlaceable(weights.forceIncludeTiles, template.boardSize)
    ensures tiles == SortByPosition(UnsortedTiles(template, weights, random))
    ensures SortedByPosition(tiles)
  {
    var placed, rng := PlaceForcedTiles(template, weights.forceIncludeTiles, random);
    var unsorted := FillFreePositions(placed, template.boardSize, weights, rng);
    tiles := SortByPosition(unsorted);
  }

  /**
   * The board is sorted and holds exactly the fixed tiles, the forced tiles and the fillers;
   * the fixed tiles come first among the placed ones and the forced ones follow their templates.
   */
  lemma GeneratedTilesArePlacedAndFillers(template: MapTemplate, weights: TileWeightModifier, random: Random)
    requires ForcedPlaceable(weights.forceIncludeTiles, template.boardSize)
    ensures var placed := PlacedTiles(template, weights, random).0;
      var forced := weights.forceIncludeTiles;
      && SortedByPosition(SortByPosition(UnsortedTiles(template, weights, random)))
      && multiset(SortByPosition(UnsortedTiles(template, weights, random))) == multiset(placed + Fillers(template, weights, random))
      && |placed| == |template.fixedTiles| + |forced|
      && placed[..|template.fixedTiles|] == template.fixedTiles
      && (forall i :: 0 <= i < |forced| ==> PlacedFrom(placed[|template.fixedTiles| + i], forced[i], template.boardSize))
  {
    PlaceForcedKeepsTemplates(weights.forceIncludeTiles, template.boardSize, random);
  }

  /**
   * Every filler sits on a position of [0, boardSize) that no fixed or forced tile occupies,
   * every such position gets exactly one filler, in increasing order, and fillers are never
   * start tiles and carry the title and description of their type.
   */
  lemma FillersCoverFreePositions(template: MapTemplate, weights: TileWeightModifier, random: Random)
    requires ForcedPlaceable(weights.forceIncludeTiles, template.boardSize)
    ensures var occupied := Positions(PlacedTiles(template, weights, random).0);
      var fillers := Fillers(template, weights, random);
      CoversFree(fillers, template.boardSize, occupied)
  {
    var (placed, r1) := PlacedTiles(template, weights, random);
    FillSlotsCoverFree(template.boardSize, Positions(placed), weights, r1);
  }

  /** One filler on each free position of [0, n), in increasing order, and nothing else. */
  predicate CoversFree(fillers: seq<Tile>, n: int, occupied: set<int>) {
    && (forall i :: 0 <= i < |fillers| ==> fillers[i].position !in occupied && 0 <= fillers[i].position < n)
    && (forall i, j :: 0 <= i < j < |fillers| ==> fillers[i].position < fillers[j].position)
    && (forall p :: 0 <= p < n && p !in occupied ==> exists i :: 0 <= i < |fillers| && fillers[i].position == p)
    && (forall i :: 0 <= i < |fillers| ==> IsFiller(fillers[i], fillers[i].position))
  }

  lemma FillSlotsCoverFree(n: int, occupied: set<int>, weights: TileWeightModifier, random: Random)
    ensures CoversFree(FillSlots(FreeFrom(0, n, occupied), weights, random).0, n, occupied)
  {
    var free := FreeFrom(0, n, occupied);
    FreeFromSpec(0, n, occupied);
    FillSlotsShape(free, weights, random);
    var fillers := FillSlots(free, weights, random).0;
    forall i | 0 <= i < |fillers|
      ensures fillers[i].position !in occupied && 0 <= fillers[i].position < n
    {
      assert fillers[i].position == free[i] && free[i] in free;
    }
    forall p | 0 <= p < n && p !in occupied
      ensures exists i :: 0 <= i < |fillers| && fillers[i].position == p
    {
      assert p in free;
      var i :| 0 <= i < |free| && free[i] == p;
      assert fillers[i].position == p;
    }
  }

  /**
   * The board can hold more tiles than `boardSize`: on a one-square board with a fixed start
   * tile, a forced tile at -1 lands on the same square whatever the generator gives.
   */
  lemma BoardCanExceedSize(random: Random, weights: TileWeightModifier, trap: TileTemplate)
    requires trap.position == -1 && weights.forceIncludeTiles == [trap]
    ensures var template := MapTemplate("t", "t", "", 1, [Tile(0, StartTile, "출발", "")], 0, weights);
      var tiles := SortByPosition(UnsortedTiles(template, weights, random));
      |tiles| == 2 && tiles[0].position == tiles[1].position == 0
  {
    var template := MapTemplate("t", "t", "", 1, [Tile(0, StartTile, "출발", "")], 0, weights);
    PlaceForcedKeepsTemplates(weights.forceIncludeTiles, 1, random);
    var placed := PlacedTiles(template, weights, random).0;
    assert |placed| == 2 && placed[0].position == 0 && placed[1].position == 0;
    assert Positions(placed) == {0};
    assert FreeFrom(1, 1, {0}) == [];
    assert FreeFrom(0, 1, {0}) == [];
    var unsorted := UnsortedTiles(template, weights, random);
    assert unsorted == placed;
    var tiles := SortByPosition(unsorted);
    assert multiset(tiles) == multiset(placed);
    assert |tiles| == 2;
    assert tiles[0] in multiset(placed) && tiles[1] in multiset(placed);
  }

  // ---------------------------------------------------------------------------
  // Special rules

  function StreakLine(maxConsecutivePenalty: int): (s: string)
    ensures |s| > 0 && s[0] == '연'
  {
    "연속 벌칙 제한: 최대 " + IntToString(maxConsecutivePenalty) + "회"
  }

  /** The multiplier as a whole percentage, truncated as `toInt()` does. */
  function StrengthLine(penaltyMultiplier: real): (s: string)
    ensures |s| > 0 && s[0] == '벌'
  {
    "벌칙 강도: " + IntToString(Trunc(penaltyMultiplier * 100.0)) + "%"
  }

  function NoBonusLine(): (s: string)
    ensures |s| > 0 && s[0] == '더'
  {
    "더블 보너스 비활성화"
  }

  /** The three rule lines, each present exactly when its rule departs from the default. */
  function RuleLines(rules: RuleModifier): (r: seq<string>)
    ensures |r| <= 3
  {
    (if !rules.allowConsecutivePenalty then [StreakLine(rules.maxConsecutivePenalty)] else [])
    + (if rules.penaltyMultiplier != 1.0 then [StrengthLine(rules.penaltyMultiplier)] else [])
    + (if !rules.enableDoubleBonus then [NoBonusLine()] else [])
  }

  /** The three conditional appends build `RuleLines`. */
  lemma RuleLinesSteps(rules: RuleModifier, afterStreak: seq<string>, afterStrength: seq<string>, afterBonus: seq<string>)
    requires afterStreak == if !rules.allowConsecutivePenalty then [StreakLine(rules.maxConsecutivePenalty)] else []
    requires afterStrength == if rules.penaltyMultiplier != 1.0 then afterStreak + [StrengthLine(rules.penaltyMultiplier)] else afterStreak
    requires afterBonus == if !rules.enableDoubleBonus then afterStrength + [NoBonusLine()] else afterStrength
    ensures afterBonus == RuleLines(rules)
  {
  }

  /** Each rule line is present exactly when its rule departs from the default. */
  lemma RuleLinesPresent(rules: RuleModifier)
    ensures var r := RuleLines(rules);
      && (StreakLine(rules.maxConsecutivePenalty) in r <==> !rules.allowConsecutivePenalty)
      && (StrengthLine(rules.penaltyMultiplier) in r <==> rules.penaltyMultiplier != 1.0)
      && (NoBonusLine() in r <==> !rules.enableDoubleBonus)
      && (rules.allowConsecutivePenalty && rules.penaltyMultiplier == 1.0 && rules.enableDoubleBonus ==> r == [])
  {
    var a, b, c := StreakLine(rules.maxConsecutivePenalty), StrengthLine(rules.penaltyMultiplier), NoBonusLine();
    assert a != b && a != c && b != c by {
      assert a[0] != b[0] && a[0] != c[0] && b[0] != c[0];
    }
  }

  function PackLine(pack: CardPack): string {
    pack.name + " 효과 활성화"
  }

  /** One line per pack that carries a modifier, in pack order. */
  function PackLines(packs: seq<CardPack>): seq<string>
    decreases |packs|
  {
    if packs == [] then []
    else
      var last := packs[|packs| - 1];
      PackLines(packs[..|packs| - 1]) + (if last.mapModifier.Some? then [PackLine(last)] else [])
  }

  /** Extending the pack loop by the pack at index `i`. */
  lemma PackLinesSnoc(packs: seq<CardPack>, i: int)
    requires 0 <= i < |packs|
    ensures PackLines(packs[..i + 1])
      == PackLines(packs[..i]) + (if packs[i].mapModifier.Some? then [PackLine(packs[i])] else [])
  {
    assert packs[..i + 1][..i] == packs[..i];
  }

  lemma {:induction false} PackLinesLength(packs: seq<CardPack>)
    ensures |PackLines(packs)| <= |packs|
    decreases |packs|
  {
    if packs != [] {
      PackLinesLength(packs[..|packs| - 1]);
    }
  }

  /** Packs without modifiers add no line; when every pack has one, line `i` names pack `i`. */
  lemma {:induction false} PackLinesFollowPacks(packs: seq<CardPack>)
    ensures (forall i :: 0 <= i < |packs| ==> packs[i].mapModifier.None?) ==> PackLines(packs) == []
    ensures (forall i :: 0 <= i < |packs| ==> packs[i].mapModifier.Some?) ==>
      |PackLines(packs)| == |packs| && forall i :: 0 <= i < |packs| ==> PackLines(packs)[i] == PackLine(packs[i])
    decreases |packs|
  {
    if packs != [] {
      var init := packs[..|packs| - 1];
      assert forall i :: 0 <= i < |init| ==> init[i] == packs[i];
      PackLinesFollowPacks(init);
    }
  }

  /** The pack loop of `generateSpecialRules`. */
  method AppendPackLines(lines: seq<string>, cardPacks: seq<CardPack>) returns (r: seq<string>)
    ensures r == lines + PackLines(cardPacks)
  {
    r := lines;
    for i := 0 to |cardPacks|
      invariant r == lines + PackLines(cardPacks[..i])
    {
      PackLinesSnoc(cardPacks, i);
      if cardPacks[i].mapModifier.Some? {
        r := r + [PackLine(cardPacks[i])];
      }
    }
    assert cardPacks[..|cardPacks|] == cardPacks;
  }

  /** `generateSpecialRules`: the rule lines, then one line per pack with a modifier. */
  method GenerateSpecialRules(rules: RuleModifier, cardPacks: seq<CardPack>) returns (specialRules: seq<string>)
    ensures specialRules == RuleLines(rules) + PackLines(cardPacks)
    ensures |specialRules| <= 3 + |cardPacks|
  {
    specialRules := [];
    if !rules.allowConsecutivePenalty {
      specialRules := specialRules + [StreakLine(rules.maxConsecutivePenalty)];
    }
    ghost var afterStreak := specialRules;
    if rules.penaltyMultiplier != 1.0 {
      specialRules := specialRules + [StrengthLine(rules.penaltyMultiplier)];
    }
    ghost var afterStrength := specialRules;
    if !rules.enableDoubleBonus {
      specialRules := specialRules + [NoBonusLine()];
    }
    RuleLinesSteps(rules, afterStreak, afterStrength, specialRules);
    specialRules := AppendPackLines(specialRules, cardPacks);
    PackLinesLength(cardPacks);
  }

  // ---------------------------------------------------------------------------
  // The whole map

  /**
   * `execute`: the generated map of a template and packs. `randomComponent` stands for the
   * clock-seeded value that perturbs the seed.
   */
  method Execute(baseTemplate: MapTemplate, activatedCardPacks: seq<CardPack>, seed: int, randomComponent: int)
    returns (m: GeneratedMap)
    requires ForcedPlaceable(CombineAll(baseTemplate.defaultTileWeights, activatedCardPacks).tileWeights.forceIncludeTiles,
                             baseTemplate.boardSize)
    ensures var combined := CombineAll(baseTemplate.defaultTileWeights, activatedCardPacks);
      && m.appliedModifiers == combined
      && m.seed == CalculateFinalSeed(seed, combined.seedBias, activatedCardPacks, randomComponent)
      && m.sessionId == "session_" + IntToString(m.seed)
      && m.activatedCardPacks == PackIds(activatedCardPacks)
      && m.tiles == SortByPosition(UnsortedTiles(baseTemplate, combined.tileWeights, Seeded(m.seed)))
      && m.specialRules == RuleLines(combined.rules) + PackLines(activatedCardPacks)
    ensures SortedByPosition(m.tiles)
  {
    var combinedModifier := CombineModifiers(baseTemplate.defaultTileWeights, activatedCardPacks);
    var finalSeed := CalculateFinalSeed(seed, combinedModifier.seedBias, activatedCardPacks, randomComponent);
    var generatedTiles := GenerateTiles(baseTemplate, combinedModifier.tileWeights, Seeded(finalSeed));
    var specialRules := GenerateSpecialRules(combinedModifier.rules, activatedCardPacks);
    m := GeneratedMap("session_" + IntToString(finalSeed), finalSeed, PackIds(activatedCardPacks),
                      generatedTiles, combinedModifier, specialRules);
  }
}
