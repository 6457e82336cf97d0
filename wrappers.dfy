/** Option and Result types shared by every module, and the exceptions the
    modelled C# code throws, as values. */
module Wrappers {

  datatype Option<+T> = None | Some(value: T)

  /** The .NET exception kinds raised by the modelled code (or by the library
      calls it makes), each with its message where the code sets one. */
  datatype Exception =
    | ArgumentException(message: string)
    | InvalidOperationException(message: string)
    | InvalidCastException
    | NullReferenceException
    | FormatException
    | JsonReaderException
    | JsonSerializationException
    | FileNotFoundException(path: string)
    | StorageException(message: string)

  datatype Result<+T> = Ok(value: T) | Err(error: Exception) {
    predicate IsFailure() { Err? }

    function PropagateFailure<U>(): Result<U>
      requires Err?
    {
      Err(error)
    }

    function Extract(): T
      requires Ok?
    {
      value
    }
  }
}
