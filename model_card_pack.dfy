/** A card pack: a bundle of cards that may also reshape the board. */
module CardPackModel {
  import opened Wrappers
  import opened MapModifierModel

  datatype CardPack = CardPack(
    packId: string,
    name: string,
    description: string,
    theme: string,
    imageUrl: Option<string>,
    thumbnailUrl: Option<string>,
    cardCount: int,
    isCustom: bool,
    isEnabled: bool,
    isPremium: bool,
    price: real,
    mapModifier: Option<MapModifier>)
}
