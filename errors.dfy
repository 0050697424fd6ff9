/** The exceptions the polling cycle can raise and catch, and the text
    `str(error)` that the bot puts into its failure notification. */
module Errors {

  /** One variant per exception class the cycle can meet, each with its message. */
  datatype Error =
    | TypeError(message: string)
    | KeyError(message: string)
    | AttributeError(message: string)
    /** exceptions.APIRequestError: the HTTP request itself failed. */
    | APIRequestError(message: string)
    /** exceptions.IncorrectRequestStatus: the API answered with a status other than 200. */
    | IncorrectRequestStatus(message: string)
    /** exceptions.MessageSendError: declared by the project and never raised. */
    | MessageSendError(message: string)
    /** The body of a 200 answer is not valid JSON; the detail is the decoder's text. */
    | JsonDecodeError(message: string)

  /** `str(error)`. Python renders a KeyError by the repr of its argument, so its
      message appears between single quotes; every other class renders its message
      as it is. (No message the bot builds contains a quote or a backslash, so
      the repr is the message in quotes.) */
  function ErrorText(e: Error): string
  {
    match e
    case KeyError(m) => "'" + m + "'"
    case _ => e.message
  }
}
