/** What an operation of the interpreter can end in. */
module Errors {

  /** The three exception classes the interpreter throws. */
  datatype ErrorKind = SyntaxError | NameError | RuntimeError

  /**
   * Ways in which the C++ code produces no defined result at all:
   * undefined behaviour (a null dereference, an unchecked downcast of the
   * wrong kind of object, an out-of-range vector index), a loop or a
   * recursion that never ends (walking a cyclic list), or, in the model
   * only, exhausting the evaluation-depth bound.
   */
  datatype Stuck = UndefinedBehaviour | Diverges | OutOfFuel

  /** A value, a thrown error, or no defined outcome. */
  datatype Result<+T> = Ok(value: T) | Raise(error: ErrorKind) | Stuck(why: Stuck) {
    predicate IsFailure() {
      !Ok?
    }

    function PropagateFailure<U>(): Result<U>
      requires !Ok?
    {
      if Raise? then Raise(error) else Stuck(why)
    }

    function Extract(): T
      requires Ok?
    {
      value
    }
  }
}

/** An optional value: a held pointer or lookahead, or none. */
module Options {
  datatype Option<+T> = None | Some(value: T)
}
