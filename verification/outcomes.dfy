/** Outcomes of the inventory operations: an optional value, a success-or-error
    result, and the failures the stock and production routes report. */
module Outcomes {

  datatype Option<+T> = None | Some(value: T)

  datatype Result<+T> = Ok(value: T) | Err(error: Error)

  /** The failures the routes report instead of raising. */
  datatype Error =
    | NotEnoughStock(current: real)     // an `out` move larger than the item's quantity
    | InvalidDate                       // a day that is not a calendar date
    | WriteRaised(step: nat)            // the staged write at this position raised
    | ProductionFailed(cause: Error)    // a production record that was rolled back

  /** The user-facing text carried by the redirect (or the 400 detail). */
  function Message(e: Error): string
  {
    match e
    case NotEnoughStock(_) => "Not enough stock."
    case InvalidDate => "Fecha inválida"
    case WriteRaised(_) => "write failed"
    case ProductionFailed(cause) => "PRO falló: " + Message(cause)
  }

  predicate IsPrefix(p: string, s: string)
  {
    |p| <= |s| && s[..|p|] == p
  }
}
