/**
 * Creating, updating and deleting the user's own cards: `require` guards in front of one
 * repository call. A failed `require` throws `IllegalArgumentException` with the guard's
 * message; here it is a `Failure` carrying that message.
 */
module CustomCards {
  import opened Wrappers
  import opened Kotlin
  import opened CardModel
  import opened CardRepository

  const NotCustomMessage: string := "Card must be marked as custom"
  const OnlyCustomMessage: string := "Only custom cards can be updated"
  const BlankIdMessage: string := "Card ID must not be blank"
  const BlankTitleMessage: string := "Card title must not be blank"

  /** What both the create and the update guard accept. */
  predicate Acceptable(card: Card) {
    card.isCustom && !IsBlank(card.cardId) && !IsBlank(card.title)
  }

  /** `CreateCustomCardUseCase.invoke`: the three guards in order, then the save. */
  function CreateCustomCard(table: CardTable, card: Card): (r: Result<CardTable, string>)
    ensures r.Success? <==> Acceptable(card)
    ensures r.Success? ==> r.value == SaveCustomCard(table, card)
    ensures !card.isCustom ==> r == Failure(NotCustomMessage)
    ensures card.isCustom && IsBlank(card.cardId) ==> r == Failure(BlankIdMessage)
    ensures card.isCustom && !IsBlank(card.cardId) && IsBlank(card.title) ==> r == Failure(BlankTitleMessage)
  {
    if !card.isCustom then Failure(NotCustomMessage)
    else if IsBlank(card.cardId) then Failure(BlankIdMessage)
    else if IsBlank(card.title) then Failure(BlankTitleMessage)
    else Success(SaveCustomCard(table, card))
  }

  /** `UpdateCustomCardUseCase.invoke`: the same guards with its own first message. */
  function UpdateCustomCard(table: CardTable, card: Card): (r: Result<CardTable, string>)
    ensures r.Success? <==> Acceptable(card)
    ensures r.Success? ==> r.value == SaveCustomCard(table, card)
    ensures !card.isCustom ==> r == Failure(OnlyCustomMessage)
    ensures card.isCustom && IsBlank(card.cardId) ==> r == Failure(BlankIdMessage)
    ensures card.isCustom && !IsBlank(card.cardId) && IsBlank(card.title) ==> r == Failure(BlankTitleMessage)
  {
    if !card.isCustom then Failure(OnlyCustomMessage)
    else if IsBlank(card.cardId) then Failure(BlankIdMessage)
    else if IsBlank(card.title) then Failure(BlankTitleMessage)
    else Success(SaveCustomCard(table, card))
  }

  /**
   * Update accepts exactly what create accepts and writes the same row; an accepted card
   * is stored as given, since it is already flagged custom.
   */
  lemma UpdateAgreesWithCreate(table: CardTable, card: Card)
    ensures UpdateCustomCard(table, card).Success? <==> CreateCustomCard(table, card).Success?
    ensures CreateCustomCard(table, card).Success? ==>
      (UpdateCustomCard(table, card) == CreateCustomCard(table, card)
      && ToDomain(CreateCustomCard(table, card).value[card.cardId]) == Success(card))
  {
    if card.isCustom {
      assert card.(isCustom := true) == card;
    }
  }

  /** The description is never looked at: any description goes with an acceptable id and title. */
  lemma DescriptionIsNotChecked(table: CardTable, card: Card, description: string)
    requires CreateCustomCard(table, card).Success?
    ensures CreateCustomCard(table, card.(description := description)).Success?
  {
  }

  /** `DeleteCustomCardUseCase.invoke`: a non-blank id is passed on unchanged. */
  function DeleteCustomCardById(table: CardTable, cardId: string): (r: Result<CardTable, string>)
    ensures r.Success? <==> !IsBlank(cardId)
    ensures r.Success? ==> r.value == DeleteCustomCard(table, cardId)
    ensures r.Failure? ==> r.error == BlankIdMessage
  {
    if IsBlank(cardId) then Failure(BlankIdMessage) else Success(DeleteCustomCard(table, cardId))
  }

  /** Empty and whitespace-only ids are refused. */
  lemma BlankIdsAreRefused(table: CardTable)
    ensures DeleteCustomCardById(table, "").Failure?
    ensures DeleteCustomCardById(table, " \t ").Failure?
  {
    assert IsBlank(" \t ") by {
      assert forall i :: 0 <= i < 3 ==> " \t "[i] in {' ', '\t'};
    }
  }

  /** No custom-flag or existence check: a built-in card's row can be deleted, and so can a missing id. */
  lemma DeleteDoesNotCheckTheFlag(table: CardTable, cardId: string)
    requires cardId in table && !table[cardId].isCustom && !IsBlank(cardId)
    ensures DeleteCustomCardById(table, cardId).Success?
    ensures cardId !in DeleteCustomCardById(table, cardId).value
    ensures DeleteCustomCardById(map[], cardId) == Success(map[])
  {
  }

  /** `generateCardId`: "custom_" followed by the clock reading `now`. */
  function GenerateCardId(now: int): (id: string)
    ensures StartsWith(id, "custom_") && !IsBlank(id)
  {
    var id := "custom_" + IntToString(now);
    assert id[0] == 'c';
    id
  }

  /** Ids generated at different instants differ. */
  lemma GeneratedIdsDiffer(t1: int, t2: int)
    requires t1 != t2
    ensures GenerateCardId(t1) != GenerateCardId(t2)
  {
    if GenerateCardId(t1) == GenerateCardId(t2) {
      PrefixCancel("custom_", IntToString(t1), IntToString(t2));
      IntToStringInjective(t1, t2);
    }
  }
}
