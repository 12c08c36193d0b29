/** The failure-compatible Option type used for operations that can panic. */
module Wrappers {

  /** `None` stands for a Rust panic; `Some(v)` for a normal return with value `v`. */
  datatype Option<+T> = None | Some(value: T) {

    predicate IsFailure() {
      None?
    }

    function PropagateFailure<U>(): Option<U>
      requires None?
    {
      None
    }

    function Extract(): T
      requires Some?
    {
      value
    }
  }
}
