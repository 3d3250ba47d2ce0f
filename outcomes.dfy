/**
 * How an account operation ended. The C++ ledgers signal a rejected request by
 * throwing `invalid_argument` or `runtime_error` (and then, in most variants,
 * catching it at once) or by taking an `else` branch that prints an error; the
 * model returns which of those paths was taken instead.
 */
module Outcomes {

  datatype Outcome =
    | Ok                  // the request was carried out
    | InvalidAmount       // the amount was not positive
    | InsufficientFunds   // the debit (plus fee, where charged) exceeds the balance
    | FeeExceedsDeposit   // a chequing deposit does not exceed the transaction fee

  /** The smallest opening balance every variant accepts as an initial deposit. */
  const MinimumOpeningBalance: real := 1000.0
}
