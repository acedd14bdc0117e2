/** The success-or-failure values that stand in for the exceptions the entity setters throw. */
module Results {

  /** A possibly-null reference: `None` is C#'s `null`. */
  datatype Option<+T> = None | Some(value: T)

  /** The name of the property or parameter an exception reports. */
  datatype Param =
    | Name | Sku | Quantity | Price | MinAge | Percent | Add
    | Title | Genre | MinPlayers | MaxPlayers | DurationMinutes

  /**
   * The exception a setter or behaviour method throws, with the property it concerns.
   * For the two out-of-range errors and the null error that property is the
   * exception's `ParamName`. `Argument` is thrown with a message only, so its
   * `ParamName` is null and the property appears only in the message text.
   */
  datatype Error =
    | ArgumentNull(param: Param)        // ArgumentNullException
    | ArgumentOutOfRange(param: Param)  // ArgumentOutOfRangeException
    | Argument(param: Param)            // ArgumentException
    | Overflow                           // OverflowException of a `checked` sum

  /** A validated value, or the exception its check throws. */
  datatype Result<+T> = Ok(value: T) | Err(error: Error)

  /**
   * What a setter call did. `Committed` carries whether the change notification
   * fired (old and new value differ as strings); `Rejected` means the setter threw
   * before assigning anything.
   */
  datatype Outcome = Committed(changed: bool) | Rejected(error: Error)
}
