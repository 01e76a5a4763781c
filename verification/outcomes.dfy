/** Results of computations that, in the modelled Go code, may crash with a
    runtime panic (an index out of range) or run a loop that has no evident
    bound. `OutOfFuel` is the model's stand-in for a loop that did not finish
    within the fuel it was given; `Panic` is a Go runtime panic. */
module Outcomes {

  datatype Outcome<+T> = Ok(value: T) | Panic | OutOfFuel {

    predicate IsFailure() {
      !Ok?
    }

    function PropagateFailure<U>(): Outcome<U>
      requires !Ok?
    {
      if Panic? then Panic else OutOfFuel
    }

    function Extract(): T
      requires Ok?
    {
      value
    }
  }

  /** Go's nil slice versus a real one. */
  datatype Option<+T> = None | Some(value: T)
}
