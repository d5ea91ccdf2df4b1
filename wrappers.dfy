/** Failure-carrying result types and the exceptions the library raises. */
module Wrappers {

  datatype Option<+T> = None | Some(value: T)

  datatype Result<+T, +E> = Success(value: T) | Failure(error: E)

  /** The outcome of an operation that returns nothing (a C# `void` method). */
  datatype Outcome<+E> = Pass | Fail(error: E)

  /** The exceptions raised by the modelled code, with the parameter name or message it gives them. */
  datatype Error =
    | ArgumentNull(paramName: string)              // ArgumentNullException
    | Argument(message: string, paramName: string) // ArgumentException
    | NullReference                                // dereferencing a null dictionary
    | General(message: string)                     // a plain Exception
    | DuplicateKey(key: string)                    // KeyedCollection: the key is already present
    | KeyNotFound(key: string)                     // KeyedCollection: the indexer found no item
}
