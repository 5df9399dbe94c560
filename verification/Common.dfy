/** Types shared by every service model. */
module Common {

  datatype Option<+T> = None | Some(value: T)

  datatype Result<+T, +E> = Ok(value: T) | Err(error: E)

  /** What a caller sees of one database, MongoDB or HTTP call. A failed call
      may or may not have taken effect: the connection can break after the
      commit and before the reply. A crash of the service between two calls is
      a failure, without effect, of the second one. */
  datatype Outcome = Done | Failed(applied: bool) {
    predicate Effective() {
      Done? || applied
    }
  }

  /** What one statement meets: how long it takes to start, and how it ends. */
  datatype Wire = Wire(delay: nat, outcome: Outcome)
}
