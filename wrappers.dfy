/** Failure-compatible result types. The emulator reports every fatal
    condition by throwing a .NET exception; the model returns the exception
    kind instead. */
module Wrappers {

  datatype Option<+T> = None | Some(value: T)

  /** The .NET exception types the core throws, explicitly or implicitly. */
  datatype Exception =
    | ArgumentOutOfRange   // ArgumentOutOfRangeException (overlap, bad enum, span slice)
    | Argument             // ArgumentException (bad addressing tag, duplicate sorted-list key)
    | AccessViolation      // AccessViolationException (unmapped bus address)
    | InvalidProgram       // InvalidProgramException (undecodable opcode / state tag)
    | InvalidOperation     // InvalidOperationException (Value of an empty Nullable)
    | InvalidData          // InvalidDataException (bad cartridge magic)
    | NotSupported         // NotSupportedException
    | NotImplemented       // NotImplementedException
    | IndexOutOfRange      // IndexOutOfRangeException
    | NullReference        // NullReferenceException

  datatype Result<+T> = Ok(value: T) | Err(error: Exception) {
    predicate IsFailure() { Err? }
    function PropagateFailure<U>(): Result<U>
      requires Err?
    {
      Err(error)
    }
    function Extract(): T
      requires Ok?
    {
      value
    }
  }

  datatype Outcome = Pass | Fail(error: Exception) {
    predicate IsFailure() { Fail? }
    function PropagateFailure(): Outcome
      requires Fail?
    {
      this
    }
  }
}
