/**
 * The deck edit behind the view model's "reduce penalty probability" adjustment: take a
 * share of the penalty cards out of the deck and put as many copies of one safe card in.
 */
module DdaDeck {
  import opened Kotlin
  import opened CardModel
  import Rand

  /** `filter { it.cardType == PENALTY }`. */
  function PenaltyCards(deck: seq<Card>): (r: seq<Card>)
    decreases |deck|
  {
    if deck == [] then []
    else
      var init := deck[..|deck| - 1];
      var last := deck[|deck| - 1];
      assert deck == init + [last];
      PenaltyCards(init) + (if last.cardType == Penalty then [last] else [])
  }

  /** `removeAll(removed)`: every card equal to one in `removed` goes, all its copies included. */
  function Without(deck: seq<Card>, removed: seq<Card>): (r: seq<Card>)
    decreases |deck|
  {
    if deck == [] then []
    else
      var init := deck[..|deck| - 1];
      var last := deck[|deck| - 1];
      assert deck == init + [last];
      Without(init, removed) + (if last !in removed then [last] else [])
  }

  /** The cards `removeAll(removed)` takes out, in deck order. */
  function Among(deck: seq<Card>, removed: seq<Card>): (r: seq<Card>)
    decreases |deck|
  {
    if deck == [] then []
    else
      var init := deck[..|deck| - 1];
      var last := deck[|deck| - 1];
      assert deck == init + [last];
      Among(init, removed) + (if last in removed then [last] else [])
  }

  /** `take(n)`: the first `n` elements, or all of them when there are fewer. */
  function Take(s: seq<Card>, n: int): (r: seq<Card>)
    ensures |r| == if n <= 0 then 0 else if n < |s| then n else |s|
    ensures r == s[..|r|]
  {
    if n <= 0 then [] else if n < |s| then s[..n] else s
  }

  /** `repeat(n) { add(card) }`, as a list of its own. */
  function Repeat(card: Card, n: nat): (r: seq<Card>)
    ensures |r| == n && forall c :: c in r ==> c == card
    decreases n
  {
    if n == 0 then [] else Repeat(card, n - 1) + [card]
  }

  /** `(penaltyCards.size * reduction).toInt()`: how many safe cards go in. */
  function ReplacementCount(deck: seq<Card>, reduction: real): int {
    Trunc(|PenaltyCards(deck)| as real * reduction)
  }

  /** The deck once `n` penalty cards have been swapped for `n` copies of `safeCard` (before the shuffle). */
  function ReplaceCards(deck: seq<Card>, n: nat, safeCard: Card): seq<Card> {
    Without(deck, Take(PenaltyCards(deck), n)) + Repeat(safeCard, n)
  }

  predicate Distinct(s: seq<Card>) {
    forall i, j :: 0 <= i < j < |s| ==> s[i] != s[j]
  }

  /**
   * `deck.toMutableList()`, `removeAll(penaltyCards.take(n))` and `n` times `add(safeCard)`;
   * `replaced` says whether the edit was made at all.
   */
  method ReplacePenaltyCards(deck: seq<Card>, reduction: real, safeCard: Card)
    returns (edited: seq<Card>, replaced: bool)
    ensures replaced <==> ReplacementCount(deck, reduction) > 0 && PenaltyCards(deck) != []
    ensures replaced ==> edited == ReplaceCards(deck, ReplacementCount(deck, reduction), safeCard)
    ensures !replaced ==> edited == deck
  {
    edited := deck;
    var penaltyCards := PenaltyCards(deck);
    var cardsToReplace := ReplacementCount(deck, reduction);
    replaced := cardsToReplace > 0 && |penaltyCards| > 0;
    if replaced {
      var removed := Take(penaltyCards, cardsToReplace);
      edited := Without(edited, removed);
      edited := AddCopies(edited, safeCard, cardsToReplace);
    }
  }

  /** The edit followed by `shuffled(Random(seed))`, as the adjustment does it. */
  method ReplaceAndShuffle(deck: seq<Card>, reduction: real, safeCard: Card, seed: int)
    returns (shuffled: seq<Card>, replaced: bool)
    ensures replaced <==> ReplacementCount(deck, reduction) > 0 && PenaltyCards(deck) != []
    ensures replaced ==>
      shuffled == Rand.ShuffledWithSeed(ReplaceCards(deck, ReplacementCount(deck, reduction), safeCard), seed)
    ensures !replaced ==> shuffled == deck
  {
    var edited;
    edited, replaced := ReplacePenaltyCards(deck, reduction, safeCard);
    shuffled := deck;
    if replaced {
      shuffled := Rand.ShuffledWithSeed(edited, seed);
    }
  }

  /** `repeat(n) { deck.add(card) }`. */
  method AddCopies(deck: seq<Card>, card: Card, n: nat) returns (r: seq<Card>)
    ensures r == deck + Repeat(card, n)
  {
    r := deck;
    for k := 0 to n
      invariant r == deck + Repeat(card, k)
    {
      r := r + [card];
    }
  }

  // ---------------------------------------------------------------------------
  // Counting what the edit does

  /** Every card is either kept or removed. */
  lemma {:induction false} WithoutAmongSplit(deck: seq<Card>, removed: seq<Card>)
    ensures |Without(deck, removed)| + |Among(deck, removed)| == |deck|
    decreases |deck|
  {
    if deck != [] {
      WithoutAmongSplit(deck[..|deck| - 1], removed);
    }
  }

  /** Only penalty cards are removed when only penalty cards are named. */
  lemma {:induction false} AmongPenalties(deck: seq<Card>, removed: seq<Card>)
    requires forall c :: c in removed ==> c.cardType == Penalty
    ensures Among(deck, removed) == Among(PenaltyCards(deck), removed)
    decreases |deck|
  {
    if deck != [] {
      var init := deck[..|deck| - 1];
      var last := deck[|deck| - 1];
      AmongPenalties(init, removed);
      AmongSnoc(PenaltyCards(init), last, removed);
      if last.cardType == Penalty {
        assert PenaltyCards(deck) == PenaltyCards(init) + [last];
      } else {
        assert PenaltyCards(deck) == PenaltyCards(init);
      }
    }
  }

  lemma AmongSnoc(s: seq<Card>, x: Card, removed: seq<Card>)
    ensures Among(s + [x], removed) == Among(s, removed) + (if x in removed then [x] else [])
  {
    assert (s + [x])[..|s + [x]| - 1] == s;
  }

  lemma WithoutSnoc(s: seq<Card>, x: Card, removed: seq<Card>)
    ensures Without(s + [x], removed) == Without(s, removed) + (if x !in removed then [x] else [])
  {
    assert (s + [x])[..|s + [x]| - 1] == s;
  }

  lemma PenaltySnoc(s: seq<Card>, x: Card)
    ensures PenaltyCards(s + [x]) == PenaltyCards(s) + (if x.cardType == Penalty then [x] else [])
  {
    assert (s + [x])[..|s + [x]| - 1] == s;
  }

  /** Filtering penalties and removing cards commute. */
  lemma {:induction false} PenaltiesWithout(deck: seq<Card>, removed: seq<Card>)
    ensures PenaltyCards(Without(deck, removed)) == Without(PenaltyCards(deck), removed)
    decreases |deck|
  {
    if deck != [] {
      var init := deck[..|deck| - 1];
      var last := deck[|deck| - 1];
      PenaltiesWithout(init, removed);
      WithoutSnoc(PenaltyCards(init), last, removed);
      if last !in removed {
        assert Without(deck, removed) == Without(init, removed) + [last];
        PenaltySnoc(Without(init, removed), last);
      } else {
        assert Without(deck, removed) == Without(init, removed);
      }
      if last.cardType == Penalty {
        assert PenaltyCards(deck) == PenaltyCards(init) + [last];
      } else {
        assert PenaltyCards(deck) == PenaltyCards(init);
      }
    }
  }

  lemma {:induction false} PenaltiesAppend(a: seq<Card>, b: seq<Card>)
    ensures PenaltyCards(a + b) == PenaltyCards(a) + PenaltyCards(b)
    decreases |b|
  {
    if b == [] {
      assert a + b == a;
    } else {
      var init := b[..|b| - 1];
      var last := b[|b| - 1];
      PenaltiesAppend(a, init);
      assert a + b == (a + init) + [last];
      PenaltySnoc(a + init, last);
    }
  }

  lemma {:induction false} NoPenaltiesRepeated(card: Card, n: nat)
    requires card.cardType != Penalty
    ensures PenaltyCards(Repeat(card, n)) == []
    decreases n
  {
    if n > 0 {
      NoPenaltiesRepeated(card, n - 1);
      PenaltySnoc(Repeat(card, n - 1), card);
    }
  }

  lemma {:induction false} PenaltyCardsArePenalties(deck: seq<Card>)
    ensures forall c :: c in PenaltyCards(deck) ==> c.cardType == Penalty
    decreases |deck|
  {
    if deck != [] {
      PenaltyCardsArePenalties(deck[..|deck| - 1]);
    }
  }

  /** A positive truncated share `(p * rate).toInt()` with `rate <= 1` is at most `p`. */
  lemma AtMostAll(p: nat, rate: real)
    requires Trunc(p as real * rate) > 0 && rate <= 1.0
    ensures Trunc(p as real * rate) <= p
  {
    var x := p as real * rate;
    assert x >= 0.0;
    assert x <= p as real by {
      assert p as real * (1.0 - rate) >= 0.0;
    }
  }

  /** A prefix-or-whole of a list keeps every one of its elements when filtered by itself. */
  lemma {:induction false} AmongAll(s: seq<Card>, removed: seq<Card>)
    requires forall c :: c in s ==> c in removed
    ensures Among(s, removed) == s
    decreases |s|
  {
    if s != [] {
      AmongAll(s[..|s| - 1], removed);
      assert s == s[..|s| - 1] + [s[|s| - 1]];
    }
  }

  /** In a list without repeats, the first `k` elements are exactly those among them. */
  lemma {:induction false} AmongPrefix(s: seq<Card>, k: nat, m: nat)
    requires Distinct(s) && k <= m <= |s|
    ensures Among(s[..m], s[..k]) == s[..k]
    decreases m
  {
    if m == k {
      AmongAll(s[..k], s[..k]);
    } else {
      AmongPrefix(s, k, m - 1);
      assert s[..m] == s[..m - 1] + [s[m - 1]];
      AmongSnoc(s[..m - 1], s[m - 1], s[..k]);
      assert s[m - 1] !in s[..k];
    }
  }

  /** With distinct penalty cards, the edit removes `min(n, #penalties)` cards. */
  lemma RemovedCount(deck: seq<Card>, n: int)
    requires Distinct(PenaltyCards(deck)) && n >= 0
    ensures |Without(deck, Take(PenaltyCards(deck), n))| == |deck| - Min(n, |PenaltyCards(deck)|)
    ensures |PenaltyCards(Without(deck, Take(PenaltyCards(deck), n)))| == |PenaltyCards(deck)| - Min(n, |PenaltyCards(deck)|)
  {
    var p := PenaltyCards(deck);
    var removed := Take(p, n);
    PenaltyCardsArePenalties(deck);
    forall c | c in removed ensures c.cardType == Penalty {
      assert c in p;
    }
    AmongPenalties(deck, removed);
    AmongPrefix(p, |removed|, |p|);
    assert p[..|p|] == p;
    WithoutAmongSplit(deck, removed);
    PenaltiesWithout(deck, removed);
    WithoutAmongSplit(p, removed);
  }

  /**
   * The edit swaps penalty cards for safe cards: with distinct penalty cards, `n` safe cards
   * come in, `min(n, #penalties)` penalty cards go out, and no new penalty card appears.
   */
  lemma ReplacementSwapsPenalties(deck: seq<Card>, n: nat, safeCard: Card)
    requires safeCard.cardType != Penalty && Distinct(PenaltyCards(deck))
    ensures var p := |PenaltyCards(deck)|;
      && |ReplaceCards(deck, n, safeCard)| == |deck| - Min(n, p) + n
      && |PenaltyCards(ReplaceCards(deck, n, safeCard))| == p - Min(n, p)
      && multiset(ReplaceCards(deck, n, safeCard))[safeCard] >= n
  {
    var kept := Without(deck, Take(PenaltyCards(deck), n));
    RemovedCount(deck, n);
    PenaltiesAppend(kept, Repeat(safeCard, n));
    NoPenaltiesRepeated(safeCard, n);
    RepeatCount(safeCard, n);
    assert multiset(kept + Repeat(safeCard, n)) == multiset(kept) + multiset(Repeat(safeCard, n));
  }

  lemma {:induction false} RepeatCount(card: Card, n: nat)
    ensures multiset(Repeat(card, n))[card] == n
    decreases n
  {
    if n > 0 {
      RepeatCount(card, n - 1);
      assert multiset(Repeat(card, n)) == multiset(Repeat(card, n - 1)) + multiset{card};
    }
  }

  /** For a reduction rate of at most 1 the deck keeps its size and loses exactly `n` penalties. */
  lemma ReductionKeepsDeckSize(deck: seq<Card>, reduction: real, safeCard: Card)
    requires ReplacementCount(deck, reduction) > 0 && safeCard.cardType != Penalty
    requires Distinct(PenaltyCards(deck)) && reduction <= 1.0
    ensures |ReplaceCards(deck, ReplacementCount(deck, reduction), safeCard)| == |deck|
    ensures |PenaltyCards(ReplaceCards(deck, ReplacementCount(deck, reduction), safeCard))|
      == |PenaltyCards(deck)| - ReplacementCount(deck, reduction)
  {
    AtMostAll(|PenaltyCards(deck)|, reduction);
    ReplacementKeepsSize(deck, ReplacementCount(deck, reduction), safeCard);
  }

  lemma ReplacementKeepsSize(deck: seq<Card>, n: nat, safeCard: Card)
    requires safeCard.cardType != Penalty && Distinct(PenaltyCards(deck)) && n <= |PenaltyCards(deck)|
    ensures |ReplaceCards(deck, n, safeCard)| == |deck|
    ensures |PenaltyCards(ReplaceCards(deck, n, safeCard))| == |PenaltyCards(deck)| - n
  {
    ReplacementSwapsPenalties(deck, n, safeCard);
  }

  /**
   * `removeAll` removes every copy: a deck holding the same penalty card twice, halved,
   * loses both copies for the single safe card it gains, and shrinks.
   */
  lemma DuplicatePenaltiesAllGo(p: Card, safeCard: Card)
    requires p.cardType == Penalty && safeCard.cardType != Penalty
    ensures ReplacementCount([p, p], 0.5) == 1
    ensures ReplaceCards([p, p], 1, safeCard) == [safeCard]
  {
    assert [p, p][..1] == [p];
    assert PenaltyCards([p]) == [p] by {
      assert [p] == [] + [p];
    }
    assert PenaltyCards([p, p]) == [p, p];
    assert Without([p], [p]) == [] by {
      assert [p] == [] + [p];
    }
    assert Without([p, p], [p]) == [];
    assert Repeat(safeCard, 1) == [safeCard];
  }
}
