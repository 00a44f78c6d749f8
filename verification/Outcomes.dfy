/** Results that may be refused, in place of the engine's ValueError. */
module Outcomes {

  datatype Option<+T> = None | Some(value: T)

  datatype Reason =
    | NonPositiveInput
    | OutOfRange
    | DegenerateGeometry
    | RearAxleLifts
    | FrontAxleLifts
    | NoTractiveEfficiency
    | RotorOutpullsTool

  datatype Outcome<+T> = Ok(value: T) | Rejected(reason: Reason) {
    predicate IsFailure() {
      Rejected?
    }

    function PropagateFailure<U>(): Outcome<U>
      requires Rejected?
    {
      Rejected(reason)
    }

    function Extract(): T
      requires Ok?
    {
      value
    }
  }
}
