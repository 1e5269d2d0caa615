/** Outcomes of the operations whose source raises an exception on bad input. */
module Results {

  /** The exceptions the modelled code raises. */
  datatype Error =
    | DimensionMismatch  // an `assert` on shapes fails
    | ShapesNotAligned   // numpy refuses the dot product of vectors of different lengths
    | InvalidSide        // a constraint side outside eq, leq, geq
    | InvalidDirection   // an optimisation direction outside minimize, maximize
    | NoConstraints      // a polytope built from an empty list (index 0 does not exist)

  /** A value that may be absent (Python's `None`). */
  datatype Option<+T> = None | Some(value: T)

  /** A value, or the exception raised instead of returning it. */
  datatype Result<+T> = Ok(value: T) | Err(error: Error)
}
