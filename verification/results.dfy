/** Outcome of a pipeline stage: a value, or the reason the run was aborted. */
module Results {

  datatype Result<+T, +E> = Success(value: T) | Failure(error: E)
}
