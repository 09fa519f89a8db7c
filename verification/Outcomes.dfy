/** Result types shared by every module: a value or the exception the source raises. */
module Outcomes {
  datatype Option<+T> = None | Some(value: T)

  /** The exceptions the source raises, one constructor for each. */
  datatype Error =
    | NoInverse
    | NoPoint
    | InvalidR
    | InvalidS
    | SignerDestroyed
    | KeyDestroyed
    | BadSeedCommitment
    | MissingOrderId
    | CorruptEntry
    | UnboundParameter
    | EmptyAccount
    | MalformedPubkey
    | BadType

  datatype Result<+T> = Ok(value: T) | Err(error: Error) {
    predicate IsFailure() {
      Err?
    }

    function PropagateFailure<U>(): Result<U>
      requires Err?
    {
      Err(error)
    }

    function Extract(): T
      requires Ok?
    {
      value
    }
  }
}
