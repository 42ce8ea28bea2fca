/**
 * The card repository's own logic: cards and card packs are stored as database rows whose
 * enum fields are the constants' names and whose map modifier is a JSON string. The card
 * table is modelled as a map from `cardId` (its primary key) to the stored row; the JSON
 * codec is a pair of parameters.
 */
module CardRepository {
  import opened Wrappers
  import opened CardModel
  import opened CardPackModel
  import opened MapModifierModel

  /** A row of the `cards` table. */
  datatype CardEntity = CardEntity(
    cardId: string,
    cardPackId: string,
    cardType: string,
    targetType: string,
    title: string,
    description: string,
    severity: string,
    penaltyScale: real,
    imageUrl: Option<string>,
    isCustom: bool)

  /** A row of the `card_packs` table. */
  datatype CardPackEntity = CardPackEntity(
    packId: string,
    name: string,
    description: string,
    theme: string,
    imageUrl: Option<string>,
    thumbnailUrl: Option<string>,
    cardCount: int,
    isCustom: bool,
    isEnabled: bool,
    isPremium: bool,
    price: real,
    mapModifierJson: Option<string>)

  // ---------------------------------------------------------------------------
  // Enum names

  /** `CardType.valueOf`: `None` where Kotlin throws `IllegalArgumentException`. */
  function CardTypeValueOf(name: string): (r: Option<CardType>)
    ensures r.Some? ==> r.value.Name() == name
  {
    if name == "MISSION" then Some(Mission)
    else if name == "PENALTY" then Some(Penalty)
    else if name == "RULE" then Some(Rule)
    else if name == "EVENT" then Some(Event)
    else if name == "SAFE" then Some(Safe)
    else None
  }

  function TargetTypeValueOf(name: string): (r: Option<TargetType>)
    ensures r.Some? ==> r.value.Name() == name
  {
    if name == "SELF" then Some(Self)
    else if name == "TARGET_ONE" then Some(TargetOne)
    else if name == "ALL" then Some(All)
    else if name == "ALL_EXCEPT_SELF" then Some(AllExceptSelf)
    else None
  }

  function SeverityValueOf(name: string): (r: Option<Severity>)
    ensures r.Some? ==> r.value.Name() == name
  {
    if name == "MILD" then Some(Mild)
    else if name == "NORMAL" then Some(Severity.Normal)
    else if name == "SPICY" then Some(Spicy)
    else None
  }

  /** `valueOf(x.name) == x` for the three enums, and `valueOf` accepts nothing but names. */
  lemma EnumNamesRoundTrip(t: CardType, g: TargetType, s: Severity, name: string)
    ensures CardTypeValueOf(t.Name()) == Some(t)
    ensures TargetTypeValueOf(g.Name()) == Some(g)
    ensures SeverityValueOf(s.Name()) == Some(s)
    ensures CardTypeValueOf(name).None? <==> forall x: CardType :: x.Name() != name
    ensures TargetTypeValueOf(name).None? <==> forall x: TargetType :: x.Name() != name
    ensures SeverityValueOf(name).None? <==> forall x: Severity :: x.Name() != name
  {
    match t
    case Mission => case Penalty => case Rule => case Event => case Safe =>
    match g
    case Self => case TargetOne => case All => case AllExceptSelf =>
    match s
    case Mild => case Normal => case Spicy =>
    forall x: CardType ensures CardTypeValueOf(x.Name()) == Some(x) {
      match x
      case Mission => case Penalty => case Rule => case Event => case Safe =>
    }
    forall x: TargetType ensures TargetTypeValueOf(x.Name()) == Some(x) {
      match x
      case Self => case TargetOne => case All => case AllExceptSelf =>
    }
    forall x: Severity ensures SeverityValueOf(x.Name()) == Some(x) {
      match x
      case Mild => case Normal => case Spicy =>
    }
  }

  // ---------------------------------------------------------------------------
  // Card conversions

  /** `Card.toEntity(isCustom)`: enums by name, the custom flag as given. */
  function ToEntity(c: Card, isCustom: bool): (e: CardEntity)
    ensures e.cardId == c.cardId && e.cardPackId == c.cardPackId
    ensures e.cardType == c.cardType.Name() && e.targetType == c.targetType.Name()
    ensures e.severity == c.severity.Name()
    ensures e.title == c.title && e.description == c.description
    ensures e.penaltyScale == c.penaltyScale && e.imageUrl == c.imageUrl && e.isCustom == isCustom
  {
    CardEntity(c.cardId, c.cardPackId, c.cardType.Name(), c.targetType.Name(), c.title, c.description,
      c.severity.Name(), c.penaltyScale, c.imageUrl, isCustom)
  }

  /** `CardEntity.toDomain`: fails, as `valueOf` throws, on the first field holding an unknown name. */
  function ToDomain(e: CardEntity): (r: Result<Card, string>)
    ensures r.Success? <==>
      CardTypeValueOf(e.cardType).Some? && TargetTypeValueOf(e.targetType).Some? && SeverityValueOf(e.severity).Some?
    ensures r.Success? ==>
      (r.value.cardId == e.cardId && r.value.cardPackId == e.cardPackId && r.value.title == e.title
      && r.value.description == e.description && r.value.penaltyScale == e.penaltyScale
      && r.value.imageUrl == e.imageUrl && r.value.isCustom == e.isCustom)
    ensures r.Success? ==>
      (r.value.cardType == CardTypeValueOf(e.cardType).value
      && r.value.targetType == TargetTypeValueOf(e.targetType).value
      && r.value.severity == SeverityValueOf(e.severity).value)
    ensures r.Failure? ==> r.error in {e.cardType, e.targetType, e.severity}
  {
    match CardTypeValueOf(e.cardType)
    case None => Failure(e.cardType)
    case Some(cardType) =>
      match TargetTypeValueOf(e.targetType)
      case None => Failure(e.targetType)
      case Some(targetType) =>
        match SeverityValueOf(e.severity)
        case None => Failure(e.severity)
        case Some(severity) =>
          Success(Card(e.cardId, e.cardPackId, cardType, targetType, e.title, e.description, severity,
            e.penaltyScale, e.imageUrl, e.isCustom))
  }

  /** Storing a card and reading it back gives the card itself. */
  lemma CardRoundTrip(c: Card)
    ensures ToDomain(ToEntity(c, c.isCustom)) == Success(c)
  {
    EnumNamesRoundTrip(c.cardType, c.targetType, c.severity, "");
  }

  /** A row that reads back as a card is exactly what storing that card writes. */
  lemma EntityRoundTrip(e: CardEntity)
    requires ToDomain(e).Success?
    ensures ToEntity(ToDomain(e).value, e.isCustom) == e
  {
  }

  /** Every row `toDomain` accepts has names of real constants in its enum fields. */
  lemma AcceptedRowsUseNames(e: CardEntity)
    ensures ToDomain(e).Success? <==>
      (exists t: CardType :: t.Name() == e.cardType) && (exists g: TargetType :: g.Name() == e.targetType)
      && (exists s: Severity :: s.Name() == e.severity)
  {
    EnumNamesRoundTrip(Mission, Self, Mild, e.cardType);
    EnumNamesRoundTrip(Mission, Self, Mild, e.targetType);
    EnumNamesRoundTrip(Mission, Self, Mild, e.severity);
  }

  // ---------------------------------------------------------------------------
  // Queries and updates on the card table

  /** The `severities` list `getCardsBySeverity` asks the table for. */
  function SeverityNames(maxSeverity: Severity): (names: seq<string>)
    ensures |names| == maxSeverity.Rank() + 1
  {
    match maxSeverity
    case Mild => ["MILD"]
    case Normal => ["MILD", "NORMAL"]
    case Spicy => ["MILD", "NORMAL", "SPICY"]
  }

  /** The list names exactly the severities up to the maximum, in increasing order. */
  lemma SeverityNamesAreUpTo(maxSeverity: Severity, s: Severity)
    ensures s.Name() in SeverityNames(maxSeverity) <==> s.Rank() <= maxSeverity.Rank()
    ensures forall i :: 0 <= i < |SeverityNames(maxSeverity)| ==>
      SeverityValueOf(SeverityNames(maxSeverity)[i]).Some?
      && SeverityValueOf(SeverityNames(maxSeverity)[i]).value.Rank() == i
  {
    match s
    case Mild => case Normal => case Spicy =>
  }

  /** `SELECT * ... WHERE severity IN (:severities)` over the rows in table order. */
  function RowsWithSeverity(rows: seq<CardEntity>, names: seq<string>): (r: seq<CardEntity>)
    ensures forall e :: e in r <==> e in rows && e.severity in names
    decreases |rows|
  {
    if rows == [] then []
    else
      var last := rows[|rows| - 1];
      RowsWithSeverity(rows[..|rows| - 1], names) + (if last.severity in names then [last] else [])
  }

  /** `.map { it.toDomain() }`: the first row that fails to convert fails the whole query. */
  function ToDomainAll(rows: seq<CardEntity>): (r: Result<seq<Card>, string>)
    ensures r.Success? ==> |r.value| == |rows| && forall i :: 0 <= i < |rows| ==> ToDomain(rows[i]) == Success(r.value[i])
    ensures r.Success? <==> forall i :: 0 <= i < |rows| ==> ToDomain(rows[i]).Success?
    decreases |rows|
  {
    if rows == [] then Success([])
    else
      match ToDomain(rows[0])
      case Failure(err) => Failure(err)
      case Success(c) =>
        match ToDomainAll(rows[1..])
        case Failure(err) => Failure(err)
        case Success(cs) => Success([c] + cs)
  }

  /** A row whose severity is a name at most as strong as `maxSeverity`. */
  predicate AtMost(e: CardEntity, maxSeverity: Severity) {
    SeverityValueOf(e.severity).Some? && SeverityValueOf(e.severity).value.Rank() <= maxSeverity.Rank()
  }

  /** The query over the selected rows fails exactly when one of them does not convert. */
  lemma {:induction false} SelectedRowsConvert(rows: seq<CardEntity>, maxSeverity: Severity)
    ensures var names := SeverityNames(maxSeverity);
      ToDomainAll(RowsWithSeverity(rows, names)).Success? <==>
        forall e :: e in rows && e.severity in names ==> ToDomain(e).Success?
  {
    var names := SeverityNames(maxSeverity);
    var selected := RowsWithSeverity(rows, names);
    if forall e :: e in rows && e.severity in names ==> ToDomain(e).Success? {
      forall i | 0 <= i < |selected| ensures ToDomain(selected[i]).Success? {
        assert selected[i] in selected;
      }
    } else {
      var e :| e in rows && e.severity in names && !ToDomain(e).Success?;
      assert e in selected;
      var i :| 0 <= i < |selected| && selected[i] == e;
    }
  }

  /** Every row at most as strong as the maximum is among the converted cards. */
  lemma {:induction false} LighterRowsReturned(rows: seq<CardEntity>, maxSeverity: Severity, cards: seq<Card>)
    requires ToDomainAll(RowsWithSeverity(rows, SeverityNames(maxSeverity))) == Success(cards)
    ensures forall e :: e in rows && AtMost(e, maxSeverity) ==> ToDomain(e).value in cards
  {
    var selected := RowsWithSeverity(rows, SeverityNames(maxSeverity));
    forall e | e in rows && AtMost(e, maxSeverity)
      ensures ToDomain(e).value in cards
    {
      var v := SeverityValueOf(e.severity).value;
      EnumNamesRoundTrip(Mission, Self, v, e.severity);
      SeverityNamesAreUpTo(maxSeverity, v);
      assert e in selected;
      var i :| 0 <= i < |selected| && selected[i] == e;
      assert ToDomain(selected[i]) == Success(cards[i]);
    }
  }

  /**
   * `getCardsBySeverity(maxSeverity)`: fails exactly when a selected row does not convert;
   * otherwise every readable row at most as strong as the maximum comes back converted.
   */
  function GetCardsBySeverity(rows: seq<CardEntity>, maxSeverity: Severity): (r: Result<seq<Card>, string>)
    ensures r.Success? <==>
      forall e :: e in rows && e.severity in SeverityNames(maxSeverity) ==> ToDomain(e).Success?
    ensures r.Success? ==> forall e :: e in rows && AtMost(e, maxSeverity) ==> ToDomain(e).value in r.value
  {
    var r := ToDomainAll(RowsWithSeverity(rows, SeverityNames(maxSeverity)));
    SelectedRowsConvert(rows, maxSeverity);
    if r.Success? then LighterRowsReturned(rows, maxSeverity, r.value); r else r
  }

  /** Every card `getCardsBySeverity` returns is at most as strong as the maximum asked for. */
  lemma CardsBySeverityRespectMaximum(rows: seq<CardEntity>, maxSeverity: Severity)
    requires GetCardsBySeverity(rows, maxSeverity).Success?
    ensures forall c :: c in GetCardsBySeverity(rows, maxSeverity).value ==> c.severity.Rank() <= maxSeverity.Rank()
  {
    var selected := RowsWithSeverity(rows, SeverityNames(maxSeverity));
    var cards := GetCardsBySeverity(rows, maxSeverity).value;
    forall c | c in cards
      ensures c.severity.Rank() <= maxSeverity.Rank()
    {
      var i :| 0 <= i < |cards| && cards[i] == c;
      assert ToDomain(selected[i]) == Success(c);
      assert selected[i] in selected;
      EnumNamesRoundTrip(Mission, Self, c.severity, "");
      SeverityNamesAreUpTo(maxSeverity, c.severity);
    }
  }

  /** The card table, keyed by the primary key `cardId`. */
  type CardTable = map<string, CardEntity>

  /** `saveCustomCard`: an insert-or-replace of the card with its custom flag forced on. */
  function SaveCustomCard(table: CardTable, card: Card): (r: CardTable)
    ensures card.cardId in r && r[card.cardId].isCustom
    ensures ToDomain(r[card.cardId]) == Success(card.(isCustom := true))
    ensures r.Keys == table.Keys + {card.cardId}
    ensures forall id :: id in table && id != card.cardId ==> r[id] == table[id]
  {
    CardRoundTrip(card.(isCustom := true));
    table[card.cardId := ToEntity(card, true)]
  }

  /** `deleteCustomCard`: deletes the row with that id, custom or not; other rows are untouched. */
  function DeleteCustomCard(table: CardTable, cardId: string): (r: CardTable)
    ensures cardId !in r
    ensures r.Keys == table.Keys - {cardId}
    ensures forall id :: id in r ==> r[id] == table[id]
  {
    table - {cardId}
  }

  // ---------------------------------------------------------------------------
  // Card pack conversions

  /**
   * `CardPack.toEntity`: every field copied, the modifier serialised with `toJson`.
   * `toJson` stands for Gson.
   */
  function PackToEntity(p: CardPack, toJson: MapModifier -> string): (e: CardPackEntity)
    ensures e.packId == p.packId && e.name == p.name && e.description == p.description && e.theme == p.theme
    ensures e.imageUrl == p.imageUrl && e.thumbnailUrl == p.thumbnailUrl && e.cardCount == p.cardCount
    ensures e.isCustom == p.isCustom && e.isEnabled == p.isEnabled && e.isPremium == p.isPremium
    ensures e.price == p.price
    ensures e.mapModifierJson.None? <==> p.mapModifier.None?
  {
    CardPackEntity(p.packId, p.name, p.description, p.theme, p.imageUrl, p.thumbnailUrl, p.cardCount,
      p.isCustom, p.isEnabled, p.isPremium, p.price,
      match p.mapModifier case None => None case Some(m) => Some(toJson(m)))
  }

  /**
   * `CardPackEntity.toDomain`: every field copied; `fromJson` stands for Gson's parser and
   * gives `None` where it throws, which the repository turns into a null modifier.
   */
  function PackToDomain(e: CardPackEntity, fromJson: string -> Option<MapModifier>): (p: CardPack)
    ensures p.packId == e.packId && p.name == e.name && p.description == e.description && p.theme == e.theme
    ensures p.imageUrl == e.imageUrl && p.thumbnailUrl == e.thumbnailUrl && p.cardCount == e.cardCount
    ensures p.isCustom == e.isCustom && p.isEnabled == e.isEnabled && p.isPremium == e.isPremium
    ensures p.price == e.price
    ensures e.mapModifierJson.None? ==> p.mapModifier.None?
    ensures e.mapModifierJson.Some? ==> p.mapModifier == fromJson(e.mapModifierJson.value)
  {
    CardPack(e.packId, e.name, e.description, e.theme, e.imageUrl, e.thumbnailUrl, e.cardCount,
      e.isCustom, e.isEnabled, e.isPremium, e.price,
      match e.mapModifierJson case None => None case Some(json) => fromJson(json))
  }

  /** With a codec that reads back what it writes, a pack survives a store and reload unchanged. */
  lemma PackRoundTrip(p: CardPack, toJson: MapModifier -> string, fromJson: string -> Option<MapModifier>)
    requires forall m :: fromJson(toJson(m)) == Some(m)
    ensures PackToDomain(PackToEntity(p, toJson), fromJson) == p
  {
  }

  /** `getEnabledCardPacks`: the rows flagged enabled, converted in table order. */
  function EnabledPacks(rows: seq<CardPackEntity>, fromJson: string -> Option<MapModifier>): (r: seq<CardPack>)
    ensures |r| <= |rows|
    ensures forall p :: p in r ==> p.isEnabled
    ensures forall e :: e in rows && e.isEnabled ==> PackToDomain(e, fromJson) in r
    ensures forall p :: p in r ==> exists e :: e in rows && e.isEnabled && p == PackToDomain(e, fromJson)
    decreases |rows|
  {
    if rows == [] then []
    else
      var init := rows[..|rows| - 1];
      var last := rows[|rows| - 1];
      assert rows == init + [last];
      EnabledPacks(init, fromJson) + (if last.isEnabled then [PackToDomain(last, fromJson)] else [])
  }
}
