/**
  The +/- buttons beside each numeric field of the form: "increase" adds one, "decrease"
  subtracts one only while the value is above 1.
 */
module Controls {

  /** The two button actions. */
  datatype Action = Increase | Decrease

  /** The field value after one click. */
  function Click(action: Action, value: int): (updated: int)
    ensures action == Increase ==> updated > value
    ensures action == Decrease ==> updated <= value
    ensures updated != value <==> action == Increase || value > 1
    ensures value - 1 <= updated <= value + 1
  {
    match action
    case Increase => value + 1
    case Decrease => if value > 1 then value - 1 else value
  }

  /** Clicking never takes a value of at least 1 below 1. */
  lemma ClickKeepsPositive(action: Action, value: int)
    requires value >= 1
    ensures Click(action, value) >= 1
  {
  }

  /** "Decrease" undoes "increase" on a value of at least 1. */
  lemma DecreaseUndoesIncrease(value: int)
    requires value >= 1
    ensures Click(Decrease, Click(Increase, value)) == value
  {
  }

  /** "Increase" undoes "decrease" when the decrease took effect. */
  lemma IncreaseUndoesDecrease(value: int)
    requires value > 1
    ensures Click(Increase, Click(Decrease, value)) == value
  {
  }
}
