/** The result types shared by every module of the model, and the
    exceptions the modelled Python code raises. */
module Wrappers {

  datatype Option<+T> = None | Some(value: T)

  /** The Python exceptions the core raises. A `KeyError` carries the
      missing key, not Python's message text; the other kinds carry a
      message. */
  datatype Error =
    | KeyError(key: string)
    | ValueError(message: string)
    | RuntimeError(message: string)
    | TypeError(message: string)
    | AttributeError(message: string)
    | InvalidOperation(message: string)

  /** Exceptions Python raises for a method missing from a value, an
      unhashable key and a value that cannot be iterated. */
  const NoGet := AttributeError("object has no attribute 'get'")
  const NoReplace := AttributeError("object has no attribute 'replace'")
  const NoLower := AttributeError("object has no attribute 'lower'")
  const NoUpper := AttributeError("object has no attribute 'upper'")
  const NoItems := AttributeError("object has no attribute 'items'")
  const UnhashableList := TypeError("unhashable type: 'list'")
  const UnhashableDict := TypeError("unhashable type: 'dict'")
  const NotIterable := TypeError("object is not iterable")

  datatype Result<+T> = Success(value: T) | Failure(error: Error)
}
