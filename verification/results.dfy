/** Error values and failure-compatible result types shared by every module.
    Each Go `error` the library can return is one constructor of `Error`. */
module Results {
  import opened Words

  /** The errors the library produces. `SysError` stands for an error the
      operating system reports (an errno or a Windows last-error code). */
  datatype Error =
    | DeviceNameEmpty
    | InvalidBaudRate(rate: int)
    | InvalidDataBits(bits: int)
    | InvalidParity(parity: Word)
    | InvalidStopBits(stopBits: Word)
    | CannotDetermineBaudRate
    | SysError(code: nat)

  /** A value or an error, like Go's `(T, error)` pair. */
  datatype Result<+T> = Ok(value: T) | Err(error: Error) {
    predicate IsFailure() {
      Err?
    }

    function PropagateFailure<U>(): Result<U>
      requires Err?
    {
      Err(error)
    }

    function Extract(): T
      requires Ok?
    {
      value
    }
  }

  /** A bare Go `error` return: nil (`Pass`) or an error. */
  datatype Outcome = Pass | Fail(error: Error) {
    predicate IsFailure() {
      Fail?
    }

    function PropagateFailure(): Outcome
      requires Fail?
    {
      this
    }
  }
}
