/**
  The exceptions of the homework bot, as values.

  The Python program signals every failure by raising an exception and lets the
  main loop catch it; here each step returns a `Result` or a `Check` instead, and
  the exception is an `Error`: its class and the text `str()` gives for it (the
  text is what the loop puts into its failure notification).
 */
module Errors {

  /** The exception classes that matter to the bot. */
  datatype ErrorKind =
    | TokenNotFound   // exceptions.TokenNotFound: a required setting is missing
    | APIError        // exceptions.APIError: the request failed or the answer is not 200
    | TypeError
    | KeyError
    | ValueError
    | AttributeError
    | DecodeError     // the body of a 200 answer is not JSON
    | TelegramError   // telebot's ApiTelegramException: the messaging API refused the call
    | ClientError     // any other exception raised by the messaging client

  /** A raised exception: its class and its `str()` text. */
  datatype Error = Error(kind: ErrorKind, text: string)

  datatype Option<T> = None | Some(value: T)

  /** A value, or the exception raised instead of returning it. */
  datatype Result<T> = Ok(value: T) | Err(error: Error)

  /** A check that returns nothing, or the exception it raises. */
  datatype Check = Pass | Fail(error: Error)
}
