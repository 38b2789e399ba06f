/** The few JavaScript runtime notions the session layer relies on:
    nullable values, truthiness of strings, and thrown values. */
module Js {

  /** A value that may be `null` (or `undefined`). */
  datatype Option<+T> = None | Some(value: T) {

    predicate IsFailure() {
      None?
    }

    function PropagateFailure<U>(): Option<U>
      requires None?
    {
      None
    }

    function Extract(): T
      requires Some?
    {
      value
    }
  }

  /** JavaScript truthiness of a nullable string: `null` and `""` are falsy. */
  predicate Truthy(v: Option<string>) {
    v.Some? && v.value != ""
  }

  /** A thrown value: an `Error` instance carrying its message, or anything else. */
  datatype Thrown = Error(message: string) | NonError

  /** How a call completes: with a value, or by throwing. */
  datatype Completion<+T> = Normal(value: T) | Threw(exc: Thrown)
}
