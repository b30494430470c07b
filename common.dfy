/** Types shared by every part of the model. */
module Common {

  /** A value that the source represents as `null` when absent. */
  datatype Option<+T> = None | Some(value: T)

  /**
   * The settlement status strings the source stores on predictions, coupon
   * picks and coupons ('pending', 'won', 'lost', 'void', 'partially_won').
   * Predictions and picks only ever use the first four.
   */
  datatype BetStatus = Pending | Won | Lost | Void | PartiallyWon

  /** The string the database column holds for each status. */
  function StatusName(s: BetStatus): (name: string)
    ensures name != []
  {
    match s
    case Pending => "pending"
    case Won => "won"
    case Lost => "lost"
    case Void => "void"
    case PartiallyWon => "partially_won"
  }

  /** Distinct statuses are stored as distinct strings. */
  lemma StatusNameInjective(a: BetStatus, b: BetStatus)
    requires StatusName(a) == StatusName(b)
    ensures a == b
  {
  }

  /** PHP's `empty()`/truthiness test on a string: "" and "0" are falsy. */
  predicate FalsyString(s: string)
  {
    s == "" || s == "0"
  }
}
