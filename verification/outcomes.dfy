/** Failure-carrying values shared by every operation of the model.

    The service reports failures as HTTP error responses; here each kind of
    failure is a constructor of `Error`, and an operation that can fail
    returns a `Result`. A failing operation returns no store, so a failure
    never changes anything. */
module Outcomes {

  /** A nullable value: a database column declared `null=True`, or an
      optional key of a request body. */
  datatype Option<+T> = None | Some(value: T) {
    /** The value, or `default` when absent (Python's `dict.get(key, default)`). */
    function GetOr(default: T): T {
      match this
      case Some(v) => v
      case None => default
    }
  }

  /** The failure kinds the core distinguishes. */
  datatype Error =
    | Validation         // a required request field is missing or falsy (400)
    | NotFound           // a referenced record does not exist (404)
    | Conflict           // the customer already holds that subscription (409)
    | InsufficientStock  // the chosen spare part has no stock (400)
    | NoInventory        // no inventory item exists at all (404)
    | MultipleFound      // a `.get()` lookup matched more than one row (uncaught, 500)

  datatype Result<+T> = Ok(value: T) | Err(error: Error)
}
