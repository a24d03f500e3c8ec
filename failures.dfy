/** The exceptions the core raises, and a result type that carries them as values. */
module Failures {

  /** One constructor per Java exception class the core lets escape. */
  datatype Failure =
    | IllegalStateException(message: string)           // Preconditions.checkState / Validate.validState
    | DockerComposeExecutionException(message: string) // raised by the throwing error handler
    | InterruptedException                             // a wait on the compose process was interrupted

  datatype Result<T> = Ok(value: T) | Err(failure: Failure)
}
