/** The two validation failures of the current engine. */
module Errors {

  datatype Error =
    | /** A flat list ended with an `x` that has no `y`. */
      MissingY
    | /** Fewer than two points were given. */
      TooFewPoints
}
