/** The login call: username and hashed password for a token pair. */
module LoginExchange {
  import opened Wrappers
  import opened Http
  import opened Notifications
  import RefreshExchange

  const LoginEndpoint := "/auth/login"

  /** The request sent. `sha256` stands for the one-way hash, whose internals
      are not modelled. No `Authorization` header is attached and retries are
      switched off. */
  function LoginRequest(username: string, password: string, sha256: string -> string): (r: Request)
    ensures r.verb == Post && r.path == LoginEndpoint
    ensures Authorization !in r.headers
    ensures MaxAttempts(r) == 1
    ensures r.body.Some? && r.body.value.Keys == {"username", "password"}
    ensures r.body.value["username"] == username && r.body.value["password"] == sha256(password)
  {
    Request(Post, LoginEndpoint, map[], Some(map["username" := username, "password" := sha256(password)]), 0, None)
  }

  /** The request depends on the password only through its hash. */
  lemma RequestSeesOnlyHash(username: string, p1: string, p2: string, sha256: string -> string)
    requires sha256(p1) == sha256(p2)
    ensures LoginRequest(username, p1, sha256) == LoginRequest(username, p2, sha256)
  {}

  /** A password whose length differs from its digest's never travels in the body. */
  lemma RawPasswordNotSent(username: string, password: string, sha256: string -> string)
    requires |sha256(password)| != |password|
    ensures LoginRequest(username, password, sha256).body.value["password"] != password
  {}

  /** Logging in with "abc" under a 64-character hex digest sends the digest, not "abc". */
  lemma LoginWithAbc(username: string, sha256: string -> string)
    requires |sha256("abc")| == 64
    ensures LoginRequest(username, "abc", sha256).body.value["password"] != "abc"
  {}

  /** The login call's error handler. Statuses below 400 raise nothing; above
      that it behaves like the refresh call's handler: 401 warns, and 409 is
      not singled out. */
  function Classify(status: int, message: string): (n: Option<Notification>)
    ensures n.None? <==> status < 400
    ensures status >= 500 ==> n == Some(ServerErrorNotice)
    ensures n.Some? && n.value.severity == Warning <==> status == 401 || status == 403
    ensures n.Some? && n.value.severity == Error <==> status >= 500 || status == 404
    ensures n.Some? && n.value.description.ServerMessage? ==> n.value.description.text == message
    ensures status == 409 ==> n == Some(RequestFailedNotice)
    ensures status >= 400 ==> n == Some(RefreshExchange.Classify(status, message))
  {
    if status < 400 then None
    else if status >= 500 then Some(ServerErrorNotice)
    else if status == 401 then Some(AuthFailedNotice(message))
    else if status == 403 then Some(ForbiddenNotice(message))
    else if status == 404 then Some(NotFoundNotice(message))
    else Some(RequestFailedNotice)
  }

  /** As written, the login and refresh handlers differ exactly below 400,
      where the login handler stays silent and the refresh handler raises the
      generic toast. The transport calls either handler only for statuses
      400-599, so this compares the handlers' text; no user can observe it. */
  lemma DiffersFromRefreshOnlyBelow400(status: int, message: string)
    ensures Classify(status, message) != Some(RefreshExchange.Classify(status, message)) <==> status < 400
    ensures status < 400 ==> RefreshExchange.Classify(status, message) == RequestFailedNotice
  {}

  /** One login call end to end: the pair it resolves with, if any, and the
      toast its error handler raised, if any. */
  function Exchange(reply: Reply): (r: (Option<TokenPair>, Option<Notification>))
    ensures r.0.Some? <==> reply.Answered?
    ensures reply.Answered? ==> r.0.value == reply.pair
    ensures r.1.Some? <==> reply.Rejected? && reply.status >= 400
    ensures reply.Rejected? ==> r.1 == Classify(reply.status, reply.message)
  {
    match reply
    case Answered(pair) => (Some(pair), None)
    case Rejected(status, message) => (None, Classify(status, message))
    case NoReply => (None, None)
  }
}
