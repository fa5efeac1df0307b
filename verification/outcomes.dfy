/** Failure-compatible result types shared by the calculator and the band search.
    The exceptions the library throws become `Err` values carrying an `Error`. */
module Outcomes {

  /** The constructor argument an out-of-range error names. */
  datatype Param = Frequency | Elevation | MaxGroundLength | MaxElevation

  /** `OutOfRange` stands for ArgumentOutOfRangeException, `NotEnoughSpace` for
      NotEnoughSpaceException with the available ground length it carries. */
  datatype Error =
    | OutOfRange(param: Param)
    | NotEnoughSpace(availableGroundLength: int)

  datatype Result<+T> = Ok(value: T) | Err(error: Error) {

    predicate IsFailure() {
      Err?
    }

    function PropagateFailure<U>(): Result<U>
      requires Err?
    {
      Err(error)
    }

    function Extract(): T
      requires Ok?
    {
      value
    }
  }

  datatype Option<+T> = None | Some(value: T)
}
