/** The outcome of a dice roll. */
module DiceModel {
  import opened Wrappers

  /** `dice2` is present only when two dice are rolled. */
  datatype DiceResult = DiceResult(dice1: int, dice2: Option<int>, total: int, isDouble: bool)

  function FromSingleDice(value: int): (d: DiceResult)
    ensures d.dice1 == value && d.dice2 == None
    ensures d.total == value && !d.isDouble
  {
    DiceResult(value, None, value, false)
  }

  function FromTwoDice(value1: int, value2: int): (d: DiceResult)
    ensures d.dice1 == value1 && d.dice2 == Some(value2)
    ensures d.total == value1 + value2
    ensures d.isDouble <==> value1 == value2
  {
    DiceResult(value1, Some(value2), value1 + value2, value1 == value2)
  }
}
