/**
  Failure-compatible wrappers shared by the lexer, the node parsers, the
  renderer, the environment and the template store.

  The PHP code reports problems by throwing `Spoon\Template\SyntaxError` or
  `Spoon\Template\Exception`, or by raising a warning; here every operation
  that can fail returns a `Result` instead, so that the error paths are part
  of each contract.
 */
module Errors {

  datatype Option<+T> = None | Some(value: T)

  /** The ways those parts can fail. */
  datatype Error =
    | SyntaxError(message: string)   // message already carries the " on line N" / " in F" suffixes
    | Exception(message: string)     // Spoon\Template\Exception
    | OutOfRange(index: int)         // the stream cursor was asked to leave the token list
    | Warning(message: string)       // a PHP warning, which PHPUnit's error handler turns into an exception
    | Notice(message: string)        // a PHP notice, turned into an exception the same way
    | RecoverableError(message: string) // a PHP recoverable fatal error, turned into an exception the same way

  datatype Result<+T> = Ok(value: T) | Err(error: Error) {

    predicate IsFailure() {
      Err?
    }

    function PropagateFailure<U>(): Result<U>
      requires Err?
    {
      Err(error)
    }

    function Extract(): T
      requires Ok?
    {
      value
    }
  }
}
