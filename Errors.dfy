/** The HTTP server's error middleware: the status and JSON body it answers
    a failed request with, chosen by an ordered chain of tests on the
    error. */
module Errors {
  import opened Wrappers
  import opened Text

  /** The response an external service sent, when the error carries one. */
  datatype ServiceResponse = ServiceResponse(status: int, dataMessage: Option<string>)

  /** What the handler reads from the error: the Joi flag and detail
      messages, the external response, the system error code, the message,
      and the URL of the outgoing request. */
  datatype ErrorFacts = ErrorFacts(
    isJoi: bool,
    details: seq<string>,
    response: Option<ServiceResponse>,
    code: Option<string>,
    message: string,
    configUrl: Option<string>)

  /** The JSON body; absent members are `None`. */
  datatype Body = Body(error: string, details: Option<string>, message: Option<string>, service: Option<string>)

  /** Every answer also carries `success: false`, which is not modelled. */
  datatype Reply = Reply(status: int, body: Body)

  const VALIDATION_ERROR := "Ошибка валидации"
  const SERVICE_ERROR := "Ошибка внешнего сервиса"
  const UNAVAILABLE_ERROR := "Сервис недоступен"
  const UNAVAILABLE_MESSAGE := "Не удается подключиться к внешнему сервису"
  const INTERNAL_ERROR := "Внутренняя ошибка сервера"
  const INTERNAL_MESSAGE := "Произошла внутренняя ошибка"

  /** `status >= 400 && status < 500 ? status : 500`. */
  function PassClientStatus(status: int): (r: int)
    ensures 400 <= status < 500 ==> r == status
    ensures !(400 <= status < 500) ==> r == 500
    ensures 400 <= r < 500 ==> r == status
    ensures r == status || r == 500
    ensures 400 <= r <= 500
  {
    if 400 <= status < 500 then status else 500
  }

  /** `err.config?.url?.includes('openai') ? 'OpenAI' : 'Jira'`. */
  function ServiceName(url: Option<string>): (r: string)
    ensures r == "OpenAI" <==> url.Some? && Contains(url.value, "openai")
    ensures r == "OpenAI" || r == "Jira"
  {
    if url.Some? && Contains(url.value, "openai") then "OpenAI" else "Jira"
  }

  predicate ConnectionFailed(code: Option<string>) {
    code == Some("ECONNREFUSED") || code == Some("ENOTFOUND")
  }

  /** `errorHandler(err, req, res, next)`; `nodeEnv` is `NODE_ENV`. A Joi
      error always carries at least one detail. */
  function ErrorHandler(err: ErrorFacts, nodeEnv: Option<string>): (r: Reply)
    requires err.isJoi ==> |err.details| >= 1
    ensures 400 <= r.status <= 503
    ensures err.isJoi ==> r == Reply(400, Body(VALIDATION_ERROR, Some(err.details[0]), None, None))
    ensures r.status == 503 <==> !err.isJoi && err.response.None? && ConnectionFailed(err.code)
    ensures r.body.error == INTERNAL_ERROR && nodeEnv != Some("development") ==> r.body.message == Some(INTERNAL_MESSAGE)
  {
    if err.isJoi then
      Reply(400, Body(VALIDATION_ERROR, Some(err.details[0]), None, None))
    else if err.response.Some? then
      var resp := err.response.value;
      Reply(PassClientStatus(resp.status),
            Body(SERVICE_ERROR, None, Some(OrElse(resp.dataMessage, err.message)), Some(ServiceName(err.configUrl))))
    else if ConnectionFailed(err.code) then
      Reply(503, Body(UNAVAILABLE_ERROR, None, Some(UNAVAILABLE_MESSAGE), None))
    else
      Reply(500, Body(INTERNAL_ERROR, None,
                      Some(if nodeEnv == Some("development") then err.message else INTERNAL_MESSAGE), None))
  }

  /** A Joi error is answered the same whatever else it carries. */
  lemma JoiComesFirst(err: ErrorFacts, nodeEnv: Option<string>, response: Option<ServiceResponse>, code: Option<string>)
    requires err.isJoi && |err.details| >= 1
    ensures ErrorHandler(err.(response := response, code := code), nodeEnv) == ErrorHandler(err, nodeEnv)
  {
  }

  /** An external response decides before the error code does: a client
      error status is passed on, any other becomes 500, and the message is
      the service's own when it sent a non-empty one. */
  lemma ServiceErrorReply(err: ErrorFacts, nodeEnv: Option<string>)
    requires !err.isJoi && err.response.Some?
    ensures var r := ErrorHandler(err, nodeEnv);
            && r.body.error == SERVICE_ERROR
            && (400 <= err.response.value.status < 500 ==> r.status == err.response.value.status)
            && (!(400 <= err.response.value.status < 500) ==> r.status == 500)
            && r.body.message == Some(if Truthy(err.response.value.dataMessage) then err.response.value.dataMessage.value else err.message)
            && (r.body.service == Some("OpenAI") <==> err.configUrl.Some? && Contains(err.configUrl.value, "openai"))
            && r == ErrorHandler(err.(code := Some("ECONNREFUSED")), nodeEnv)
  {
  }

  /** Outside development the raw message of an unexpected error is never
      sent. */
  lemma InternalMessageHidden(err: ErrorFacts, nodeEnv: Option<string>)
    requires !err.isJoi && err.response.None? && !ConnectionFailed(err.code)
    ensures ErrorHandler(err, nodeEnv).status == 500
    ensures nodeEnv != Some("development") ==> ErrorHandler(err, nodeEnv).body.message == Some(INTERNAL_MESSAGE)
    ensures nodeEnv == Some("development") ==> ErrorHandler(err, nodeEnv).body.message == Some(err.message)
  {
  }
}
