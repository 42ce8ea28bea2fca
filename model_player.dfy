/** A player at the table. */
module PlayerModel {

  datatype ToleranceLevel = Light | Normal | Hard

  datatype Player = Player(
    id: string,
    nickname: string,
    position: int,
    toleranceLevel: ToleranceLevel,
    penaltyCount: int,
    consecutivePenalties: int,
    isActive: bool,
    hasShield: bool)

  /** The constructor call with every defaulted parameter left at its default. */
  function NewPlayer(id: string, nickname: string): (p: Player)
    ensures p.id == id && p.nickname == nickname
    ensures p.position == 0 && p.penaltyCount == 0 && p.consecutivePenalties == 0
    ensures p.toleranceLevel == Normal && p.isActive && !p.hasShield
  {
    Player(id, nickname, 0, Normal, 0, 0, true, false)
  }
}
