/** A square of the board. */
module TileModel {

  datatype TileType = StartTile | CardTile | EventTile | SafeTile | TrapTile

  /** `position` counts from 0; `description` defaults to the empty string. */
  datatype Tile = Tile(position: int, tileType: TileType, name: string, description: string)

  /** The tiles are listed in non-decreasing order of position. */
  predicate SortedByPosition(tiles: seq<Tile>) {
    forall i, j :: 0 <= i < j < |tiles| ==> tiles[i].position <= tiles[j].position
  }
}
