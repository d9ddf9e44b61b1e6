/** Values shared by the modules of the model: nullable values, the exceptions
    the modelled Java code raises, and socket addresses. */
module Common {

  /** A Java reference that may be null. */
  datatype Option<+T> = None | Some(value: T)

  /** The Java exception kinds the modelled code raises. */
  datatype Error =
    | IndexOutOfBounds   // IndexOutOfBoundsException / ArrayIndexOutOfBoundsException
    | IllegalState       // IllegalStateException
    | IllegalArgument    // IllegalArgumentException
    | NullPointer        // NullPointerException
    | NumberFormat       // NumberFormatException
    | Arithmetic         // ArithmeticException (integer division by zero)
    | Failure(message: string)  // a plain `new Exception(message)`

  /** A method that returns a value or throws. */
  datatype Result<+T> = Ok(value: T) | Err(error: Error)

  /** A void method that returns normally or throws. */
  datatype Outcome = Pass | Fail(error: Error)

  /** An `InetSocketAddress`, reduced to its host name and port. */
  datatype Address = Address(host: string, port: int)

  function Max(a: int, b: int): int { if a < b then b else a }

  function Min(a: int, b: int): int { if a < b then a else b }

  function Abs(a: int): nat { if a < 0 then -a else a }
}
