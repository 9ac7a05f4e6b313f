/** Small vocabulary shared by every component of the model. */
module Core {

  datatype Option<+T> = None | Some(value: T)

  datatype Result<+T, +E> = Ok(value: T) | Err(error: E)

  /** How one call to an outside store (Redis, Postgres, Kafka) ends.
      `FailedClean` is an error with no effect; `FailedApplied` is an error whose
      effect took place all the same, such as a reply lost on the way back. */
  datatype Outcome = Done | FailedClean | FailedApplied {

    /** Did the store change? */
    predicate Applied() { this != FailedClean }
  }
}
