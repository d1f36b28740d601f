/**
 * The failure translator shared by the service's operations: it classifies
 * a caught error as an HTTP-client (Axios) error or anything else, builds the
 * record it logs, and always ends in an internal-server-error exception
 * carrying only the caller's message. Throwing is modelled by returning the
 * exception together with the log record.
 */
module ErrorHandling {
  import opened Wire

  /** The reply the upstream sent with an error, when it sent one. */
  datatype UpstreamResponse = UpstreamResponse(status: int, data: Json)

  /** A caught error: an HTTP-client error, or any other thrown value. */
  datatype CaughtError =
    | AxiosError(message: string, response: Option<UpstreamResponse>)
    | OtherError(raw: Json)

  /** What the log record carries besides its text. */
  datatype LogDetail =
    | ResponseDetail(status: Option<int>, message: string, data: Option<Json>)
    | RawError(error: CaughtError)

  datatype LogRecord = LogRecord(text: string, detail: LogDetail)

  /**
   * The internal-server-error exception. `description` is what the exception
   * reports as its `error`: the constructor's default when it gets no second
   * argument, and nothing when it gets an options object without one. `cause`
   * is kept for diagnostics only and never serialised.
   */
  datatype InternalServerError = InternalServerError(message: string, description: Option<string>, cause: Option<CaughtError>)

  /** The outcome of the translator: what it logged and what it threw. */
  datatype Handled = Handled(log: LogRecord, exception: InternalServerError)

  const DefaultMessage: string := "External service error"
  const InternalServerErrorStatus: int := 500
  const DefaultDescription: string := "Internal Server Error"

  /** The message an omitted `customMessage` defaults to. */
  function MessageOrDefault(customMessage: Option<string>): string
  {
    if customMessage.Some? then customMessage.value else DefaultMessage
  }

  function ResponseStatus(r: Option<UpstreamResponse>): Option<int>
  {
    if r.Some? then Some(r.value.status) else None
  }

  function ResponseData(r: Option<UpstreamResponse>): Option<Json>
  {
    if r.Some? then Some(r.value.data) else None
  }

  function HandleAxiosError(error: CaughtError, contextMessage: string, customMessage: Option<string>): (h: Handled)
    ensures h.exception.message == MessageOrDefault(customMessage)
    ensures h.exception.cause == (if error.AxiosError? then Some(error) else None)
    ensures h.exception.description == (if error.AxiosError? then None else Some(DefaultDescription))
    ensures error.AxiosError? ==>
      h.log == LogRecord("Error response from " + contextMessage,
                         ResponseDetail(ResponseStatus(error.response), error.message, ResponseData(error.response)))
    ensures error.OtherError? ==> h.log == LogRecord("Unexpected error in " + contextMessage, RawError(error))
  {
    match error
    case AxiosError(message, response) =>
      var status := ResponseStatus(response);
      var data := ResponseData(response);
      Handled(LogRecord("Error response from " + contextMessage, ResponseDetail(status, message, data)),
              InternalServerError(MessageOrDefault(customMessage), None, Some(error)))
    case OtherError(_) =>
      Handled(LogRecord("Unexpected error in " + contextMessage, RawError(error)),
              InternalServerError(MessageOrDefault(customMessage), Some(DefaultDescription), None))
  }

  /**
   * The body the caller receives for the exception: the status, the message
   * and, when the exception has a description, that description as `error`.
   * An empty message counts as no message: the description, if any, takes its
   * place and there is no `error`. The cause is never serialised.
   */
  function ClientBody(e: InternalServerError): map<string, Json>
  {
    if e.message == "" then
      map["statusCode" := JNumber(InternalServerErrorStatus)]
        + (if e.description.Some? then map["message" := JString(e.description.value)] else map[])
    else
      map["statusCode" := JNumber(InternalServerErrorStatus), "message" := JString(e.message)]
        + (if e.description.Some? then map["error" := JString(e.description.value)] else map[])
  }

  /**
   * What the caller can tell apart: every failure answers 500; with a
   * non-empty message the body carries it and has an `error` member only for
   * errors that are not HTTP-client errors; with an empty message the body has
   * a `message` member (the default description) only for those errors; and
   * two failures give the same body exactly when both are HTTP-client errors
   * or both are not.
   */
  lemma CallerSeesOnlyKind(e1: CaughtError, e2: CaughtError, contextMessage: string, customMessage: Option<string>)
    ensures var b1 := ClientBody(HandleAxiosError(e1, contextMessage, customMessage).exception);
      b1["statusCode"] == JNumber(InternalServerErrorStatus)
    ensures var b1 := ClientBody(HandleAxiosError(e1, contextMessage, customMessage).exception);
      MessageOrDefault(customMessage) != "" ==>
        && b1["message"] == JString(MessageOrDefault(customMessage))
        && ("error" in b1 <==> e1.OtherError?)
    ensures var b1 := ClientBody(HandleAxiosError(e1, contextMessage, customMessage).exception);
      MessageOrDefault(customMessage) == "" ==>
        && "error" !in b1
        && ("message" in b1 <==> e1.OtherError?)
        && (e1.OtherError? ==> b1["message"] == JString(DefaultDescription))
    ensures ClientBody(HandleAxiosError(e1, contextMessage, customMessage).exception)
         == ClientBody(HandleAxiosError(e2, contextMessage, customMessage).exception)
        <==> e1.AxiosError? == e2.AxiosError?
  {
    var b1 := ClientBody(HandleAxiosError(e1, contextMessage, customMessage).exception);
    var b2 := ClientBody(HandleAxiosError(e2, contextMessage, customMessage).exception);
    if e1.AxiosError? != e2.AxiosError? {
      assert ("error" in b1) != ("error" in b2) || ("message" in b1) != ("message" in b2);
    }
  }

  /**
   * The upstream status and body reach the log record and nothing the caller
   * receives: the body is the one any other HTTP-client error would give.
   */
  lemma UpstreamDetailOnlyLogged(message: string, status: int, data: Json, other: CaughtError,
                                 contextMessage: string, customMessage: Option<string>)
    requires other.AxiosError?
    ensures var h := HandleAxiosError(AxiosError(message, Some(UpstreamResponse(status, data))), contextMessage, customMessage);
      && h.log.detail.ResponseDetail?
      && h.log.detail.status == Some(status)
      && h.log.detail.data == Some(data)
      && ClientBody(h.exception) == ClientBody(HandleAxiosError(other, contextMessage, customMessage).exception)
  {
  }

  /** Only the log keeps the distinction: an HTTP-client error and any other error never log the same record. */
  lemma LogKeepsDistinction(e1: CaughtError, e2: CaughtError, contextMessage: string, customMessage: Option<string>)
    requires e1.AxiosError? && e2.OtherError?
    ensures HandleAxiosError(e1, contextMessage, customMessage).log.text
         != HandleAxiosError(e2, contextMessage, customMessage).log.text
  {
    var t1 := HandleAxiosError(e1, contextMessage, customMessage).log.text;
    var t2 := HandleAxiosError(e2, contextMessage, customMessage).log.text;
    assert t1[0] == 'E' && t2[0] == 'U';
  }
}
