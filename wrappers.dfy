/** Option and Result, the two container shapes the folder needs besides
    sequences: `Option` for the 0-or-1 results of `fold_opt_expr` and
    `fold_attribute`, `Result` for a fold that either rebuilds a node or hits
    one of the fatal consistency checks (a Rust `panic!`). Both work with `:-`. */
module Wrappers {

  datatype Option<+T> = None | Some(value: T) {
    /** The 0-or-1 elements of this option, in the shape `move_flat_map` consumes. */
    function ToSeq(): (s: seq<T>)
      ensures |s| <= 1
      ensures Some? <==> |s| == 1
      ensures Some? ==> s[0] == value
    {
      if Some? then [value] else []
    }
  }

  datatype Result<+T, +E> = Success(value: T) | Failure(error: E) {
    predicate IsFailure() {
      Failure?
    }

    function PropagateFailure<U>(): Result<U, E>
      requires Failure?
    {
      Failure(error)
    }

    function Extract(): T
      requires Success?
    {
      value
    }
  }
}
