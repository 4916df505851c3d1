/** Go's error values and optional values, as the commands below see them. */
module Outcomes {

  datatype Option<+T> = None | Some(value: T)

  /** An error as the commands return or report it. The "Invalid argument(s)"
      error of the init pre-run carries the rejected arguments; every other
      error comes from a collaborator (a validator, an initializer, kubectl)
      and is only carried along. */
  datatype Error =
    | InvalidArguments(args: seq<string>)
    | Failure(message: string)

  /** A Go `error` result: nil (Pass) or an error. */
  datatype Outcome = Pass | Fail(error: Error)
}
