/** Errors raised by the launcher (src/error.rs) and the result shapes used throughout. */
module Errors {

  /** The error kinds of src/error.rs, plus the ones other files raise.
      `ChildContinue` is raised by src/context.rs but not declared in src/error.rs.
      `Io` stands for a failed open or write of the named file.
      `Foreign` is an error returned by a namespace implemented outside this crate. */
  datatype Error =
    | StackAllocation
    | Clone
    | ChildWait
    | ChildContinue
    | Io(path: string)
    | Foreign(code: int)

  /** `Result<()>`: success, or the error that stopped the operation. */
  datatype Outcome = Pass | Fail(error: Error)

  /** `Result<T>` for operations that produce a value. */
  datatype Result<T> = Ok(value: T) | Err(error: Error)

  datatype Option<T> = None | Some(value: T) {
    function GetOr(default: T): T {
      match this
      case Some(v) => v
      case None => default
    }
  }
}
