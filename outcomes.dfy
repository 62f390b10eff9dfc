/** The calculators of the toolkit either produce a value or report an error
    and return to the menu; this is that outcome as a value. */
module Outcomes {

  datatype Result<+T, +E> = Success(value: T) | Failure(error: E)

}
