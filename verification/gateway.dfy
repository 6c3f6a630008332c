/** The API gateway's request and response hooks: the bearer header it puts
    on every request and the toast it raises for a failed response. Its
    401 handling, the single-flight refresh, is in RefreshCoordinator. */
module Gateway {
  import opened Wrappers
  import opened JsValues
  import opened Http
  import opened Notifications
  import RefreshExchange

  /** The request hook: copy the caller's headers and, when an access token
      is held, set `Authorization` to present it as a bearer token. */
  function WithAuthorization(headers: Headers, token: Option<string>): (r: Headers)
    ensures Truthy(token) ==> Authorization in r && BearerCredential(r[Authorization]) == token
    ensures !Truthy(token) ==> r == headers
    ensures forall k :: k != Authorization ==> (k in r <==> k in headers)
    ensures forall k :: k in headers && k != Authorization ==> r[k] == headers[k]
  {
    if Truthy(token) then headers[Authorization := Bearer(token.value)] else headers
  }

  /** The response-error hook's toast. A 401 raises none: it enters the
      refresh protocol instead. Every other status raises exactly one. */
  function Classify(status: int, message: string): (n: Option<Notification>)
    ensures n.None? <==> status == 401
    ensures status >= 500 ==> n == Some(ServerErrorNotice)
    ensures status == 403 ==> n == Some(ForbiddenNotice(message))
    ensures status == 404 ==> n == Some(NotFoundNotice(message))
    ensures status == 409 ==> n == Some(ConflictNotice(message))
    ensures KindOf(status) == Unclassified ==> n == Some(RequestFailedNotice)
    ensures n.Some? && n.value.severity == Error <==> status >= 500 || status == 404 || status == 409
    ensures n.Some? && n.value.severity == Warning <==> status == 403
    ensures n.Some? && n.value.description.ServerMessage? <==> status == 403 || status == 404 || status == 409
    ensures n.Some? && n.value.description.ServerMessage? ==> n.value.description.text == message
  {
    if status >= 500 then Some(ServerErrorNotice)
    else if status == 401 then None
    else if status == 403 then Some(ForbiddenNotice(message))
    else if status == 404 then Some(NotFoundNotice(message))
    else if status == 409 then Some(ConflictNotice(message))
    else Some(RequestFailedNotice)
  }

  /** The toast each kind of failure calls for, independently of status numbers. */
  function NoticeFor(kind: StatusKind, message: string): Option<Notification> {
    match kind
    case ServerFault => Some(ServerErrorNotice)
    case AuthExpired => None
    case Forbidden => Some(ForbiddenNotice(message))
    case NotFound => Some(NotFoundNotice(message))
    case Conflict => Some(ConflictNotice(message))
    case Unclassified => Some(RequestFailedNotice)
  }

  /** Ties the gateway's classifier to the failure taxonomy of `Http.KindOf`:
      the toast depends on a status only through its kind. */
  lemma ClassifyFollowsKind(status: int, message: string)
    ensures Classify(status, message) == NoticeFor(KindOf(status), message)
  {}

  /** The representative statuses 500, 401, 403, 404, 409 and 418. */
  lemma ClassificationTable(message: string)
    ensures Classify(500, message) == Some(Notification(Error, "服务器错误", RetryLater))
    ensures Classify(401, message) == None
    ensures Classify(403, message) == Some(Notification(Warning, "禁止访问", ServerMessage(message)))
    ensures Classify(404, message) == Some(Notification(Error, "找不到所需资源", ServerMessage(message)))
    ensures Classify(409, message) == Some(Notification(Error, "请求失败", ServerMessage(message)))
    ensures Classify(418, message) == Some(Notification(Info, "请求失败", RetryLater))
    ensures DescriptionText(Classify(500, message).value.description) == "请稍候重试"
    ensures DescriptionText(Classify(404, message).value.description) == message
  {}

  /** The gateway's handler and the refresh call's handler raise the same
      toast for every status except 401 and 409. */
  lemma DiffersFromRefreshOnlyAt401And409(status: int, message: string)
    ensures Classify(status, message) != Some(RefreshExchange.Classify(status, message))
      <==> status == 401 || status == 409
  {}
}
