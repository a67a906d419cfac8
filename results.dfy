/** Outcomes shared by every part of the model.

    The engine is a Rust library built in the default (debug) profile, where an
    arithmetic overflow, an out-of-range array index or an `unwrap` on a missing
    value aborts the program.  The model makes each of those aborts an explicit
    `Panic` result instead of a precondition, so that the inputs which crash the
    engine are visible in the contracts. */
module Results {

  datatype Option<+T> = None | Some(value: T)

  /** Why the Rust code would abort. */
  datatype PanicReason =
    | IndexOutOfBounds   // `board[i]` or `mask[i]` with i >= 64
    | ArithmeticOverflow // u8 / u32 / usize arithmetic leaving its range
    | UnwrapOnNone       // `.unwrap()` on a failed lookup or parse

  /** Either the value the Rust code returns, or the panic that ends it. */
  datatype Result<+T> = Ok(value: T) | Panic(reason: PanicReason) {

    predicate IsFailure() {
      Panic?
    }

    function PropagateFailure<U>(): Result<U>
      requires Panic?
    {
      Panic(reason)
    }

    function Extract(): T
      requires Ok?
    {
      value
    }
  }
}
