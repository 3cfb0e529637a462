/** The error panel: the message it shows for a failed request, and whether
    it offers a Retry button.

    An axios error is described by what it carries: a server response (with
    the `message` field of the response body, when the body has one), a sent
    request that got no response, and its own message. */
module ErrorMessage {
  import opened Common

  const SERVER_ERROR_MESSAGE: string := "Server error, please try again later."
  const NETWORK_ERROR_MESSAGE: string := "Network request failed. Please check your connection."
  const UNEXPECTED_ERROR_MESSAGE: string := "An unexpected error occurred."

  /** error.response, reduced to error.response.data?.message. */
  datatype ErrorResponse = ErrorResponse(dataMessage: Option<string>)

  datatype RequestError = RequestError(response: Option<ErrorResponse>, requestSent: bool, message: Option<string>)

  /** `a || b` on optional strings. */
  function OrElse(a: Option<string>, b: string): string {
    if a.Some? && a.value != "" then a.value else b
  }

  /** getErrorMessage. */
  function GetErrorMessage(error: RequestError): (m: string)
    ensures m != ""
  {
    if error.response.Some? then OrElse(error.response.value.dataMessage, SERVER_ERROR_MESSAGE)
    else if error.requestSent then NETWORK_ERROR_MESSAGE
    else OrElse(error.message, UNEXPECTED_ERROR_MESSAGE)
  }

  datatype Panel = Panel(message: string, retryButton: bool)

  /** The rendered panel; `retryGiven` says whether a retry callback was passed. */
  function Render(error: RequestError, retryGiven: bool): Panel {
    Panel(GetErrorMessage(error), retryGiven)
  }

  // ---------------------------------------------------------------------------
  // Properties
  // ---------------------------------------------------------------------------

  /** With a response, the server's message is shown when it has one, and
      the server-error text otherwise; the request and the error's own
      message play no part. */
  lemma ResponseMessage(error: RequestError)
    requires error.response.Some?
    ensures var d := error.response.value.dataMessage;
      GetErrorMessage(error) == (if d.Some? && d.value != "" then d.value else SERVER_ERROR_MESSAGE)
    ensures GetErrorMessage(error) == GetErrorMessage(error.(requestSent := !error.requestSent, message := None))
  {
  }

  /** Without a response: a sent request shows the network text whatever the
      error's own message; an unsent one shows its own message when that is
      non-empty, and the unexpected-error text otherwise. */
  lemma MessageWithoutResponse(error: RequestError)
    requires error.response.None?
    ensures error.requestSent ==> GetErrorMessage(error) == NETWORK_ERROR_MESSAGE
    ensures !error.requestSent ==>
      GetErrorMessage(error) == (if error.message.Some? && error.message.value != "" then error.message.value else UNEXPECTED_ERROR_MESSAGE)
  {
  }

  /** The network text is shown only for a request that got no response. */
  lemma NetworkTextOnlyWithoutResponse(error: RequestError)
    requires error.response.Some? ==> error.response.value.dataMessage != Some(NETWORK_ERROR_MESSAGE)
    requires error.message != Some(NETWORK_ERROR_MESSAGE)
    ensures GetErrorMessage(error) == NETWORK_ERROR_MESSAGE <==> error.response.None? && error.requestSent
  {
  }

  /** The message shown is one of the three fixed texts or a message the
      error itself carries: the server's, when there is a response, or the
      error's own, when the request was never sent. */
  lemma MessageProvenance(error: RequestError)
    ensures var m := GetErrorMessage(error);
      || m == SERVER_ERROR_MESSAGE || m == NETWORK_ERROR_MESSAGE || m == UNEXPECTED_ERROR_MESSAGE
      || (error.response.Some? && error.response.value.dataMessage == Some(m))
      || (error.response.None? && !error.requestSent && error.message == Some(m))
  {
  }
}
