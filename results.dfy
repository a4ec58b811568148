/** The exceptions of the workout calculator that the model keeps, and result
    types that carry either a value or one of them. */
module Results {

  /** The error conditions of the calculator, one per Python exception the model keeps. */
  datatype Error =
    /** `ZeroDivisionError`: a `/` whose divisor is zero (a zero duration or height). */
    | ZeroDivision
    /** `NotImplementedError`: the calorie formula of the bare base training. */
    | NotImplemented
    /** `KeyError`: a workout code that the dispatch table does not know. */
    | UnknownWorkoutType(code: string)
    /** `TypeError`: a constructor called with the wrong number of positional values. */
    | ArityMismatch(expected: nat, given: nat)

  /** A training or a report, or the error raised while producing it. */
  datatype Result<+T> = Success(value: T) | Failure(error: Error)

  /** A real-valued outcome: a quantity in the report, or the error raised
      while computing it. Kept apart from the generic `Result` so that the
      quantity is not boxed, which keeps arithmetic on it visible to the
      verifier. */
  datatype Quantity = Value(value: real) | Fault(error: Error) {

    predicate IsFailure() {
      Fault?
    }

    function PropagateFailure(): Quantity
      requires Fault?
    {
      this
    }

    function Extract(): real
      requires Value?
    {
      value
    }
  }
}
