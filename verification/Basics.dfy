/** Result types shared by every component: a raised exception of the program is an
    error value here. */
module Basics {
  datatype Option<+T> = None | Some(value: T)

  datatype Error =
    | InvalidValue        // a constructor or method refused its arguments
    | InsufficientCash    // the order costs more than the account's buying power
    | InsufficientShares  // the order sells more than the position holds
    | NotFound            // the addressed row does not exist
    | WrongState          // the entity's life cycle forbids the operation
    | Mismatch            // two objects that must agree (symbol, account) do not
    | Duplicate           // a unique key is already taken
    | Unavailable         // a quote source or the database failed

  datatype Result<+T> = Ok(value: T) | Err(error: Error)

  datatype Outcome = Pass | Fail(error: Error)
}
