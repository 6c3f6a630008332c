/** The refresh call: a direct request (outside the gateway, so that its
    failure cannot start another refresh) that trades the stored refresh
    token for a new token pair. */
module RefreshExchange {
  import opened Wrappers
  import opened JsValues
  import opened Http
  import opened Notifications

  const RefreshPath := "/auth/refresh"
  const RefreshTimeoutMs := 900

  /** The `Authorization` value, built without looking at whether a refresh
      token is held: an absent one is built as the text `undefined`. This is
      the value the code builds; the browser sends it unchanged only for a
      Latin-1 token without surrounding whitespace. */
  function RefreshAuthorization(refreshToken: Option<string>): (value: string)
    ensures refreshToken.Some? ==> BearerCredential(value) == Some(refreshToken.value)
    ensures refreshToken.None? ==> BearerCredential(value) == Some("undefined")
  {
    Bearer(ConcatText(refreshToken))
  }

  /** The request sent. No method is given, so the transport's default GET is
      used; retries are switched off. */
  function RefreshRequest(refreshToken: Option<string>): (r: Request)
    ensures r.verb == Get && r.path == RefreshPath && r.body == None
    ensures r.headers.Keys == {Authorization}
    ensures BearerCredential(r.headers[Authorization]) == Some(ConcatText(refreshToken))
    ensures MaxAttempts(r) == 1
    ensures r.timeoutMs == Some(RefreshTimeoutMs)
  {
    Request(Get, RefreshPath, map[Authorization := RefreshAuthorization(refreshToken)], None, 0, Some(RefreshTimeoutMs))
  }

  /** The refresh call's own error handler: exactly one toast for every
      failed status. Unlike the gateway's, it warns on 401 and has no
      conflict branch. */
  function Classify(status: int, message: string): (n: Notification)
    ensures status >= 500 ==> n == ServerErrorNotice
    ensures status == 401 ==> n == AuthFailedNotice(message)
    ensures status == 403 ==> n == ForbiddenNotice(message)
    ensures status == 404 ==> n == NotFoundNotice(message)
    ensures n.severity == Error <==> status >= 500 || status == 404
    ensures n.severity == Warning <==> status == 401 || status == 403
    ensures n.description.ServerMessage? <==> status == 401 || status == 403 || status == 404
    ensures n.description.ServerMessage? ==> n.description.text == message
    ensures KindOf(status) == Unclassified || KindOf(status) == Conflict <==> n == RequestFailedNotice
  {
    if status >= 500 then ServerErrorNotice
    else if status == 401 then AuthFailedNotice(message)
    else if status == 403 then ForbiddenNotice(message)
    else if status == 404 then NotFoundNotice(message)
    else RequestFailedNotice
  }

  /** What the refresh resolves to, as its caller sees it. */
  datatype Outcome = Refreshed(pair: TokenPair) | RefreshFailed

  /** One refresh call end to end: the outcome it resolves or rejects with,
      and the toast its error handler raised, if any. */
  function Exchange(reply: Reply): (r: (Outcome, Option<Notification>))
    ensures r.0.Refreshed? <==> reply.Answered?
    ensures reply.Answered? ==> r.0.pair == reply.pair
    ensures r.1.Some? <==> reply.Rejected?
    ensures reply.Rejected? ==> r.1.value == Classify(reply.status, reply.message)
  {
    match reply
    case Answered(pair) => (Refreshed(pair), None)
    case Rejected(status, message) => (RefreshFailed, Some(Classify(status, message)))
    case NoReply => (RefreshFailed, None)
  }
}
