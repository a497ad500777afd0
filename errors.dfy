/** Errors surfaced by the toolkit (src/error.rs), the crate's `Result` alias, and the
    exit status a child process reports. */
module Errors {

  datatype Option<+T> = None | Some(value: T)

  /** The category of an operating-system I/O error, as far as the toolkit looks at it. */
  datatype IoKind = NotFound | AlreadyExists | BrokenPipe | PermissionDenied | OtherKind

  /** An `std::io::Error`: its kind and its message. */
  datatype IoError = IoError(kind: IoKind, message: string)

  /** `std::io::Error::other(message)`. */
  function Other(message: string): IoError
  {
    IoError(OtherKind, message)
  }

  /** How a child process ended: a normal exit with a code, or a signal. */
  datatype ExitStatus = Exited(code: int) | Signaled(signal: nat)
  {
    /** `ExitStatus::success`: exited normally with code 0. */
    predicate Success()
    {
      Exited? && code == 0
    }
  }

  /** The crate's error type. `Utf8` carries the bytes that failed to decode, as
      `FromUtf8Error` does; the glob variants only carry their message. */
  datatype Error =
    | Io(io: IoError)
    | Command(program: string, status: ExitStatus, stderr: string)
    | Utf8(bytes: seq<bv8>)
    | GlobPattern(message: string)
    | Glob(message: string)

  /** `crate::Result<T>`. */
  datatype Result<+T> = Ok(value: T) | Err(error: Error)
  {
    predicate IsFailure()
    {
      Err?
    }

    function PropagateFailure<U>(): Result<U>
      requires Err?
    {
      Err(error)
    }

    function Extract(): T
      requires Ok?
    {
      value
    }
  }

  /** Text placed in a command error when the child's stderr went to the parent's terminal. */
  const InheritedStderr: string := "stderr inherited by parent"

  /** Decoding of captured bytes into text: strict UTF-8 (`String::from_utf8`, `None` on
      invalid input) and lossy UTF-8 (`String::from_utf8_lossy`). Both are given, not
      defined here. */
  datatype Codec = Codec(strict: seq<bv8> -> Option<string>, lossy: seq<bv8> -> string)
}
