/**
 * Results and exceptions shared by every module of the model.
 *
 * Python code in the system signals failure by raising; the model returns
 * `Err(e)` instead, where `e` names the Python exception class (and, where the
 * source distinguishes several messages, the message).
 */
module Wrappers {

  datatype Option<T> = None | Some(value: T)

  /** The exception classes the modelled code raises or propagates. */
  datatype Exc =
    | ValueError(msg: string)
    | KeyError(msg: string)
    | AttributeError(msg: string)
    | IndexError
    | TypeError
    | AssertionError(msg: string)
    | NotImplementedError
    | ZeroDivisionError
    | RecursionError
    | ClientError(code: string)
    | GenericError(msg: string)

  const ZeroDivisionText: string := "division by zero"
  const RecursionText: string := "maximum recursion depth exceeded"

  /**
   * `str(e)`: the message, quoted for a KeyError as Python does; the classes
   * raised here without a message of their own read as their class name.
   */
  function Str(e: Exc): string
  {
    match e
    case ValueError(m) => m
    case KeyError(m) => "'" + m + "'"
    case AttributeError(m) => m
    case IndexError => "IndexError"
    case TypeError => "TypeError"
    case AssertionError(m) => m
    case NotImplementedError => ""
    case ZeroDivisionError => ZeroDivisionText
    case RecursionError => RecursionText
    case ClientError(c) => c
    case GenericError(m) => m
  }

  datatype Result<T> = Ok(value: T) | Err(exc: Exc)
  {
    predicate IsFailure() { Err? }

    function PropagateFailure<U>(): Result<U>
      requires Err?
    {
      Err(exc)
    }

    function Extract(): T
      requires Ok?
    {
      value
    }
  }

  /** A result without a value, for operations that only succeed or raise. */
  datatype Status = Done | Fail(exc: Exc)
}
