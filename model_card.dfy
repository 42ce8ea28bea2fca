/** Cards: their kind, whom they hit, how hard, and the card record itself. */
module CardModel {
  import opened Wrappers

  datatype CardType = Mission | Penalty | Rule | Event | Safe {
    /** The enum constant's `name`, as stored in the database. */
    function Name(): string {
      match this
      case Mission => "MISSION"
      case Penalty => "PENALTY"
      case Rule => "RULE"
      case Event => "EVENT"
      case Safe => "SAFE"
    }
  }

  datatype TargetType = Self | TargetOne | All | AllExceptSelf {
    function Name(): string {
      match this
      case Self => "SELF"
      case TargetOne => "TARGET_ONE"
      case All => "ALL"
      case AllExceptSelf => "ALL_EXCEPT_SELF"
    }
  }

  datatype Severity = Mild | Normal | Spicy {
    function Name(): string {
      match this
      case Mild => "MILD"
      case Normal => "NORMAL"
      case Spicy => "SPICY"
    }

    /** Declaration order, which is the order of increasing strength. */
    function Rank(): int {
      match this
      case Mild => 0
      case Normal => 1
      case Spicy => 2
    }
  }

  /** A card; `penaltyScale` defaults to 1.0, `imageUrl` to null and `isCustom` to false. */
  datatype Card = Card(
    cardId: string,
    cardPackId: string,
    cardType: CardType,
    targetType: TargetType,
    title: string,
    description: string,
    severity: Severity,
    penaltyScale: real,
    imageUrl: Option<string>,
    isCustom: bool)

  /** The constructor call with the three optional parameters left at their defaults. */
  function NewCard(cardId: string, cardPackId: string, cardType: CardType, targetType: TargetType,
                   title: string, description: string, severity: Severity): (c: Card)
    ensures c.penaltyScale == 1.0 && c.imageUrl == None && !c.isCustom
    ensures c.cardId == cardId && c.cardType == cardType && c.targetType == targetType
  {
    Card(cardId, cardPackId, cardType, targetType, title, description, severity, 1.0, None, false)
  }
}
