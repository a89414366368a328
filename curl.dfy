/**
 * What a libcurl transfer can come to, as the plugin observes it:
 * curl_easy_init failing, curl_easy_perform failing with a (never empty)
 * curl_easy_strerror text after part of a body may have arrived, or a
 * completed transfer with the HTTP status and the body. The network itself is
 * not modelled: a transfer's outcome is an input of the operations that make
 * one.
 */
module Curl {

  type ErrorText = s: string | s != "" witness "error"

  datatype Transport =
    | InitFailed
    | Failed(message: ErrorText, received: string)
    | Completed(code: int, body: string)

  /** The 2xx check both the refresh call and the play/pause commands make. */
  predicate IsSuccess(code: int)
  {
    200 <= code < 300
  }
}
