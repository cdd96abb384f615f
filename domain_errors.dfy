/**
  The errors a use case raises on a broken business rule. They carry no HTTP
  status: turning them into a reply is the terminal error handler's job.
*/
module DomainErrors {

  /** `ResourceNotFoundError`, raised when a looked-up record does not exist. */
  datatype DomainError = ResourceNotFound
}
