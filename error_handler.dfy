/** The backend's last-resort error handler: it classifies an error that
    escaped a route and chooses the one reply sent for it. */
module ErrorHandler {
  import opened Wrappers
  import opened Text
  import opened Http

  /** The properties of a thrown error that the handler reads. */
  datatype JsError = JsError(name: string, message: string, statusCode: Option<int>, details: Option<Json>, stack: Option<string>)

  const ValidationErrorName := "ValidationError"
  const GoogleAdsMarker := "GoogleAdsError"

  /** `error.statusCode || 500`. */
  function StatusOf(e: JsError): (s: int)
    ensures e.statusCode.Some? && e.statusCode.value != 0 ==> s == e.statusCode.value
    ensures e.statusCode.None? || e.statusCode.value == 0 ==> s == 500
  {
    if e.statusCode.Some? && e.statusCode.value != 0 then e.statusCode.value else 500
  }

  /** `errorHandler(error, req, res, next)` with `NODE_ENV` given. */
  function HandleError(e: JsError, nodeEnv: Option<string>): Reply {
    if e.name == ValidationErrorName then
      var details := if e.details.Some? && Truthy(e.details.value) then e.details.value else JStr(e.message);
      Reply(400, JObj([("error", JStr("Dados de entrada inválidos")), ("code", JStr("VALIDATION_ERROR")), ("details", details)]))
    else if e.message != "" && Includes(e.message, GoogleAdsMarker) then
      Reply(400, JObj([("error", JStr("Erro na API do Google Ads")), ("code", JStr("GOOGLE_ADS_ERROR")), ("details", JStr(e.message))]))
    else
      var development := nodeEnv == Some("development");
      Reply(StatusOf(e), JObj(
        [("error", JStr(if development then e.message else "Erro interno do servidor")),
         ("code", JStr("INTERNAL_SERVER_ERROR"))]
        + (if development then Member("stack", StrJson(e.stack)) else [])))
  }

  /** The code of the reply and its status, case by case: a validation error
      first (even when its message also names the Google Ads API), then a
      Google Ads error, then any other error with its own status or 500. */
  lemma HandleErrorClassifies(e: JsError, nodeEnv: Option<string>)
    ensures var r := HandleError(e, nodeEnv);
      if e.name == ValidationErrorName then
        r.status == 400 && Get(r.body, "code") == Some(JStr("VALIDATION_ERROR"))
      else if Includes(e.message, GoogleAdsMarker) then
        r.status == 400 && Get(r.body, "code") == Some(JStr("GOOGLE_ADS_ERROR"))
      else
        r.status == StatusOf(e) && Get(r.body, "code") == Some(JStr("INTERNAL_SERVER_ERROR"))
  {
    if e.message == "" {
      IncludesAt(e.message, GoogleAdsMarker);
    }
    LookupAt(HandleError(e, nodeEnv).body.fields, 1);
  }

  /** The details of a validation error are its own details when these are
      truthy, its message otherwise. */
  lemma ValidationDetails(e: JsError, nodeEnv: Option<string>)
    requires e.name == ValidationErrorName
    ensures Get(HandleError(e, nodeEnv).body, "details") ==
      Some(if e.details.Some? && Truthy(e.details.value) then e.details.value else JStr(e.message))
  {
    LookupAt(HandleError(e, nodeEnv).body.fields, 2);
  }

  /** A Google Ads error carries its message as details. */
  lemma GoogleAdsDetails(e: JsError, nodeEnv: Option<string>)
    requires e.name != ValidationErrorName && Includes(e.message, GoogleAdsMarker)
    ensures Get(HandleError(e, nodeEnv).body, "details") == Some(JStr(e.message))
  {
    if e.message == "" {
      IncludesAt(e.message, GoogleAdsMarker);
    }
    LookupAt(HandleError(e, nodeEnv).body.fields, 2);
  }

  /** Outside development an internal error says only "Erro interno do
      servidor" and carries no stack; in development it carries the message
      and the stack. */
  lemma InternalErrorText(e: JsError, nodeEnv: Option<string>)
    requires e.name != ValidationErrorName && !Includes(e.message, GoogleAdsMarker)
    ensures var body := HandleError(e, nodeEnv).body;
      if nodeEnv == Some("development") then
        Get(body, "error") == Some(JStr(e.message)) && Get(body, "stack") == StrJson(e.stack)
      else
        Get(body, "error") == Some(JStr("Erro interno do servidor")) && Get(body, "stack") == None
  {
    var fields := HandleError(e, nodeEnv).body.fields;
    LookupAt(fields, 0);
    if nodeEnv == Some("development") && e.stack.Some? {
      LookupAt(fields, 2);
    } else {
      LookupMeaning(fields, "stack");
    }
  }
}
