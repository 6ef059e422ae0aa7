/** The error taxonomy of the tool (`CoralGateError`), its `Result` alias and
    the outcome of an operation that may panic instead of returning. */
module Errors {

  /** The variants of `CoralGateError`. Payloads produced by foreign crates
      (I/O, kube, UTF-8) are kept as their rendered messages. The last two
      variants are raised by the connection accessors. */
  datatype CoralGateError =
    | MissingEnvironment(variable: string)
    | TimeoutError(message: string)
    | UnknownTempError
    | IOError(message: string)
    | MissingName(resource: string)
    | MissingNamespace(resource: string)
    | KubeApiError(message: string)
    | BinaryNotFound(target: string, path: string)
    | CommandOutputError(message: string)
    | CommandOutputUtf8Error(message: string)
    | ClientManagerRootCaMissing
    | ClientManagerConfigNotInitialized

  /** `Result<T> = std::result::Result<T, CoralGateError>`; usable with `:-` like `?`. */
  datatype Result<+T> = Ok(value: T) | Err(error: CoralGateError) {
    predicate IsFailure() {
      Err?
    }

    function PropagateFailure<U>(): Result<U>
      requires Err?
    {
      Err(error)
    }

    function Extract(): T
      requires Ok?
    {
      value
    }
  }

  /** How a call ends: it returns a value, or the process panics with a message
      (`unwrap`, `expect`, `panic!`). */
  datatype Exit<+T> = Return(value: T) | Panic(message: string)
}
