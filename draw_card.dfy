/** Drawing from the deck, with the discard pile reshuffled in when the deck runs out. */
module DrawCard {
  import opened Wrappers
  import opened Rand
  import opened CardModel
  import opened GameStateModel

  /** `drawFromDeck`: the head of a non-empty deck is taken off; nothing else moves. */
  function DrawFromDeck(gs: GameState): (res: (Card, GameState))
    requires gs.deck != []
    ensures res.0 == gs.deck[0] && res.1 == gs.(deck := gs.deck[1..])
    ensures multiset(gs.deck) == multiset(res.1.deck) + multiset{res.0}
  {
    assert gs.deck == [gs.deck[0]] + gs.deck[1..];
    var card := gs.deck[0];
    var newDeck := gs.deck[1..];
    (card, gs.(deck := newDeck))
  }

  /** The discard pile, shuffled with `randomSeed + currentTurn`, as the new deck. */
  function Reshuffled(gs: GameState): (r: GameState)
    ensures |r.deck| == |gs.discardPile|
    ensures multiset(r.deck) == multiset(gs.discardPile)
    ensures r == gs.(deck := r.deck, discardPile := [])
  {
    gs.(deck := ShuffledWithSeed(gs.discardPile, gs.TurnSeed()), discardPile := [])
  }

  /**
   * `invoke`: no card when both piles are empty; otherwise the head of the deck, after the
   * discard pile has been shuffled into an empty deck. Unlike the turn engine's draw, the
   * state's `currentCard` is not set.
   */
  function Draw(gs: GameState): (res: (Option<Card>, GameState))
    ensures gs.deck == [] && gs.discardPile == [] ==> res == (None, gs)
    ensures gs.deck != [] ==> res == (Some(gs.deck[0]), gs.(deck := gs.deck[1..]))
    ensures gs.deck == [] && gs.discardPile != [] ==>
      var deck := Reshuffled(gs).deck;
      res == (Some(deck[0]), gs.(deck := deck[1..], discardPile := []))
    ensures res.0.Some? <==> (gs.deck != [] || gs.discardPile != [])
    ensures res.0.Some? ==>
      multiset(gs.deck) + multiset(gs.discardPile)
      == multiset(res.1.deck) + multiset(res.1.discardPile) + multiset{res.0.value}
  {
    if gs.deck == [] then
      if gs.discardPile == [] then
        (None, gs)
      else
        var reshuffledState := Reshuffled(gs);
        var (card, next) := DrawFromDeck(reshuffledState);
        (Some(card), next)
    else
      var (card, next) := DrawFromDeck(gs);
      (Some(card), next)
  }

  /** `discardCard`: the card goes to the end of the discard pile. */
  function DiscardCard(gs: GameState, card: Card): (r: GameState)
    ensures r == gs.(discardPile := r.discardPile)
    ensures |r.discardPile| == |gs.discardPile| + 1
    ensures r.discardPile[..|gs.discardPile|] == gs.discardPile && r.discardPile[|gs.discardPile|] == card
  {
    gs.(discardPile := gs.discardPile + [card])
  }

  /** Drawing a card and discarding it again keeps the pool of cards in deck and discard pile. */
  lemma DrawThenDiscard(gs: GameState)
    requires gs.deck != [] || gs.discardPile != []
    ensures var (card, next) := Draw(gs);
      card.Some? &&
      multiset(DiscardCard(next, card.value).deck) + multiset(DiscardCard(next, card.value).discardPile)
      == multiset(gs.deck) + multiset(gs.discardPile)
  {
    var (card, next) := Draw(gs);
    var after := DiscardCard(next, card.value);
    assert after.discardPile == next.discardPile + [card.value];
  }

  /** Two states with the same cards, seed and turn draw the same card into the same deck. */
  lemma DrawDeterministic(a: GameState, b: GameState)
    requires a.deck == b.deck && a.discardPile == b.discardPile
    requires a.TurnSeed() == b.TurnSeed()
    ensures Draw(a).0 == Draw(b).0 && Draw(a).1.deck == Draw(b).1.deck
  {
  }
}
