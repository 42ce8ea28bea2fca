/** The base layout a map is generated from, and the generated map. */
module MapTemplateModel {
  import opened TileModel
  import opened MapModifierModel

  datatype MapTemplate = MapTemplate(
    templateId: string,
    name: string,
    description: string,
    boardSize: int,
    fixedTiles: seq<Tile>,
    variableSlots: int,
    defaultTileWeights: TileWeightModifier)

  datatype GeneratedMap = GeneratedMap(
    sessionId: string,
    seed: int,
    activatedCardPacks: seq<string>,
    tiles: seq<Tile>,
    appliedModifiers: MapModifier,
    specialRules: seq<string>)
}
