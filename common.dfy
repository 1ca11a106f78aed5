/** Shared vocabulary of the model: optional values, results, identifiers and time. */
module Common {

  /** A nullable value: a nullable foreign key or column is `None` when NULL. */
  datatype Option<+T> = None | Some(value: T)

  /** The outcome of an operation that can fail with an error of type `E`. */
  datatype Result<+T, +E> = Success(value: T) | Failure(error: E)

  /** Primary keys. The database allocates them; the model only compares them. */
  type AgencyId = nat
  type UserId = nat
  type OwnerId = nat
  type PropertyId = nat
  type DocumentId = nat
  type ClientId = nat
  type VisitId = nat
  type ClaimId = nat
  type FinanceId = nat

  /** An instant, as returned by the framework's clock; opaque to the model. */
  type Time = int
}
