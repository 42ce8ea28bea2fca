/**
 * The detail view of one card pack: the pack, its cards and how those cards are spread
 * over card types and severities (`groupingBy { ... }.eachCount()`).
 */
module CardPackDetails {
  import opened Wrappers
  import opened CardModel
  import opened CardPackModel

  datatype CardPackDetails = CardPackDetails(
    cardPack: CardPack,
    cards: seq<Card>,
    cardTypeDistribution: map<string, int>,
    severityDistribution: map<string, int>)

  /** `find { it.packId == packId }`: the first pack with that id, or null. */
  function FindPack(packs: seq<CardPack>, packId: string): (r: Option<CardPack>)
    ensures r.None? <==> forall i :: 0 <= i < |packs| ==> packs[i].packId != packId
    ensures r.Some? ==> exists i :: (0 <= i < |packs| && packs[i] == r.value && packId == r.value.packId
      && forall j :: 0 <= j < i ==> packs[j].packId != packId)
    decreases |packs|
  {
    if packs == [] then None
    else if packs[0].packId == packId then Some(packs[0])
    else
      var r := FindPack(packs[1..], packId);
      assert forall j :: 0 < j < |packs| ==> packs[j] == packs[1..][j - 1];
      if r.Some? then
        ghost var k :| 0 <= k < |packs[1..]| && packs[1..][k] == r.value && packId == r.value.packId
          && forall j :: 0 <= j < k ==> packs[1..][j].packId != packId;
        assert packs[k + 1] == r.value;
        assert forall j :: 0 <= j < k + 1 ==> packs[j].packId != packId;
        r
      else r
  }

  /** `eachCount` over the grouping keys. */
  function CountBy(keys: seq<string>): (counts: map<string, int>)
    ensures forall k :: k in counts <==> k in keys
    ensures forall k :: k in counts ==> counts[k] == multiset(keys)[k]
    decreases |keys|
  {
    if keys == [] then map[]
    else
      var init := keys[..|keys| - 1];
      var last := keys[|keys| - 1];
      assert keys == init + [last];
      var counts := CountBy(init);
      counts[last := (if last in counts then counts[last] else 0) + 1]
  }

  function TypeNames(cards: seq<Card>): (names: seq<string>)
    ensures |names| == |cards| && forall i :: 0 <= i < |cards| ==> names[i] == cards[i].cardType.Name()
  {
    seq(|cards|, i requires 0 <= i < |cards| => cards[i].cardType.Name())
  }

  function SeverityNames(cards: seq<Card>): (names: seq<string>)
    ensures |names| == |cards| && forall i :: 0 <= i < |cards| ==> names[i] == cards[i].severity.Name()
  {
    seq(|cards|, i requires 0 <= i < |cards| => cards[i].severity.Name())
  }

  /**
   * `invoke(packId)`: `allPacks` and `cardsOf` stand for the repository's `getAllCardPacks`
   * and `getCardsByPack`.
   */
  function GetCardPackDetails(allPacks: seq<CardPack>, cardsOf: string -> seq<Card>, packId: string): (r: Option<CardPackDetails>)
    ensures r.None? <==> forall i :: 0 <= i < |allPacks| ==> allPacks[i].packId != packId
    ensures r.Some? ==> r.value.cardPack == FindPack(allPacks, packId).value && r.value.cards == cardsOf(packId)
  {
    match FindPack(allPacks, packId)
    case None => None
    case Some(cardPack) =>
      var cards := cardsOf(packId);
      Some(CardPackDetails(cardPack, cards, CountBy(TypeNames(cards)), CountBy(SeverityNames(cards))))
  }

  // ---------------------------------------------------------------------------
  // The counts add up to the number of cards

  ghost function Pick(keys: set<string>): (k: string)
    requires keys != {}
    ensures k in keys
  {
    var k :| k in keys; k
  }

  /** The sum of `counts[k]` over the keys in `keys`. */
  ghost function SumOver(counts: map<string, int>, keys: set<string>): int
    requires keys <= counts.Keys
    decreases keys
  {
    if keys == {} then 0
    else
      var k := Pick(keys);
      counts[k] + SumOver(counts, keys - {k})
  }

  /** The sum may be split at any key, not only at the one `Pick` chooses. */
  lemma {:induction false} SumOverSplit(counts: map<string, int>, keys: set<string>, k: string)
    requires keys <= counts.Keys && k in keys
    ensures SumOver(counts, keys) == counts[k] + SumOver(counts, keys - {k})
    decreases keys
  {
    var p := Pick(keys);
    if p != k {
      SumOverSplit(counts, keys - {p}, k);
      SumOverSplit(counts, keys - {k}, p);
      assert keys - {p} - {k} == keys - {k} - {p};
    }
  }

  /** Only the values at the summed keys matter. */
  lemma {:induction false} SumOverAgree(a: map<string, int>, b: map<string, int>, keys: set<string>)
    requires keys <= a.Keys && keys <= b.Keys
    requires forall k :: k in keys ==> a[k] == b[k]
    ensures SumOver(a, keys) == SumOver(b, keys)
    decreases keys
  {
    if keys != {} {
      var p := Pick(keys);
      SumOverAgree(a, b, keys - {p});
    }
  }

  /** Summed over all its keys, a distribution counts every key once. */
  lemma {:induction false} CountsAddUp(keys: seq<string>)
    ensures SumOver(CountBy(keys), CountBy(keys).Keys) == |keys|
    decreases |keys|
  {
    if keys != [] {
      var init := keys[..|keys| - 1];
      var last := keys[|keys| - 1];
      var before := CountBy(init);
      var after := CountBy(keys);
      CountsAddUp(init);
      assert after == before[last := (if last in before then before[last] else 0) + 1];
      if last in before {
        assert after.Keys == before.Keys;
        SumOverSplit(after, after.Keys, last);
        SumOverSplit(before, before.Keys, last);
        SumOverAgree(after, before, before.Keys - {last});
      } else {
        assert after.Keys - {last} == before.Keys;
        SumOverSplit(after, after.Keys, last);
        SumOverAgree(after, before, before.Keys);
      }
    }
  }

  /** Both distributions of a pack's details sum to the number of its cards. */
  lemma DistributionsSumToCardCount(allPacks: seq<CardPack>, cardsOf: string -> seq<Card>, packId: string)
    requires GetCardPackDetails(allPacks, cardsOf, packId).Some?
    ensures var d := GetCardPackDetails(allPacks, cardsOf, packId).value;
      && SumOver(d.cardTypeDistribution, d.cardTypeDistribution.Keys) == |d.cards|
      && SumOver(d.severityDistribution, d.severityDistribution.Keys) == |d.cards|
  {
    var cards := cardsOf(packId);
    CountsAddUp(TypeNames(cards));
    CountsAddUp(SeverityNames(cards));
  }

  /** Each present card type maps to the number of cards of that type. */
  lemma TypeDistributionCounts(allPacks: seq<CardPack>, cardsOf: string -> seq<Card>, packId: string, t: CardType)
    requires GetCardPackDetails(allPacks, cardsOf, packId).Some?
    ensures var d := GetCardPackDetails(allPacks, cardsOf, packId).value;
      && (t.Name() in d.cardTypeDistribution <==> exists c :: c in d.cards && c.cardType == t)
      && (t.Name() in d.cardTypeDistribution ==> d.cardTypeDistribution[t.Name()] == multiset(TypeNames(d.cards))[t.Name()])
  {
    var cards := cardsOf(packId);
    var names := TypeNames(cards);
    forall c | c in cards && c.cardType == t ensures t.Name() in names {
      var i :| 0 <= i < |cards| && cards[i] == c;
      assert names[i] == t.Name();
    }
    if t.Name() in names {
      var i :| 0 <= i < |names| && names[i] == t.Name();
      CardTypeNamesDiffer(cards[i].cardType, t);
      assert cards[i] in cards;
    }
  }

  /** Each present severity maps to the number of cards of that severity. */
  lemma SeverityDistributionCounts(allPacks: seq<CardPack>, cardsOf: string -> seq<Card>, packId: string, v: Severity)
    requires GetCardPackDetails(allPacks, cardsOf, packId).Some?
    ensures var d := GetCardPackDetails(allPacks, cardsOf, packId).value;
      && (v.Name() in d.severityDistribution <==> exists c :: c in d.cards && c.severity == v)
      && (v.Name() in d.severityDistribution ==> d.severityDistribution[v.Name()] == multiset(SeverityNames(d.cards))[v.Name()])
  {
    var cards := cardsOf(packId);
    var names := SeverityNames(cards);
    forall c | c in cards && c.severity == v ensures v.Name() in names {
      var i :| 0 <= i < |cards| && cards[i] == c;
      assert names[i] == v.Name();
    }
    if v.Name() in names {
      var i :| 0 <= i < |names| && names[i] == v.Name();
      SeverityNamesDiffer(cards[i].severity, v);
      assert cards[i] in cards;
    }
  }

  lemma SeverityNamesDiffer(a: Severity, b: Severity)
    requires a.Name() == b.Name()
    ensures a == b
  {
    assert a.Name()[0] == b.Name()[0];
  }

  lemma CardTypeNamesDiffer(a: CardType, b: CardType)
    requires a.Name() == b.Name()
    ensures a == b
  {
    assert a.Name()[0] == b.Name()[0];
    match a
    case Mission => case Penalty => assert a.Name()[1] == b.Name()[1]; case Rule => case Event => case Safe =>
  }
}
