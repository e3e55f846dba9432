/**
 * The Java exceptions the modelled code raises, as values. Operations that can
 * throw return one of these instead of a result.
 */
module Exceptions {

  datatype Exception =
    | RuntimeException(message: string)
    | IOException(message: string)
    | IndexOutOfBounds(index: int)           // List.get, StringBuilder.charAt/deleteCharAt/delete
    | IllegalArgument(message: string)
    | UnsupportedOperation(message: string)
    | NullPointer                            // a method called on null
    | ArithmeticException(message: string)   // integer division by zero
    | ParseException(message: string)        // the parser's checked exception
    | ClassCast                              // a cast of an Object to the wrong class
    | EmptyStack                             // java.util.Stack.pop on an empty stack
    | NumberFormat(input: string)            // Integer.parseInt of text that is no int

  /** A reference that may be `null`, or a lookup that may find nothing. */
  datatype Option<T> = None | Some(value: T)

  /** A value, or the exception thrown instead of returning it. */
  datatype Try<T> = Ok(value: T) | Thrown(e: Exception)

  /** What `PushbackInputStream.unread` raises when its one-byte buffer is full. */
  const PUSHBACK_FULL: Exception := IOException("Push back buffer is full")
}
