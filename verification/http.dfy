/** The HTTP vocabulary shared by the gateway, the refresh exchange and the
    login exchange: request descriptors, bearer credentials, token replies,
    the status taxonomy and router redirects. */
module Http {
  import opened Wrappers

  /** Request headers by name, holding the values as the code builds them.
      Names are compared exactly, and values are kept as given: the browser's
      case folding of names, its trimming of surrounding whitespace from
      values and its rejection of values outside Latin-1 or holding CR, LF
      or NUL are not modelled. */
  type Headers = map<string, string>

  const Authorization := "Authorization"

  /** The scheme word and the separating space of a bearer credential. */
  const BearerPrefix := "Bearer" + " "

  /** The credential carried by an `Authorization` value, if it is a bearer one. */
  function BearerCredential(value: string): (c: Option<string>)
    ensures c.Some? ==> value == BearerPrefix + c.value
  {
    if |value| >= |BearerPrefix| && value[..|BearerPrefix|] == BearerPrefix then
      assert value == value[..|BearerPrefix|] + value[|BearerPrefix|..];
      Some(value[|BearerPrefix|..])
    else
      None
  }

  /** The `Authorization` value that presents `credential` as a bearer token. */
  function Bearer(credential: string): (value: string)
    ensures BearerCredential(value) == Some(credential)
  {
    var v := BearerPrefix + credential;
    assert v[..|BearerPrefix|] == BearerPrefix;
    v
  }

  datatype Method = Get | Post

  /** One outgoing call: what is sent, and the transport options that bound it. */
  datatype Request = Request(
    verb: Method,
    path: string,
    headers: Headers,
    body: Option<map<string, string>>,
    retries: nat,
    timeoutMs: Option<nat>)

  /** How many times the transport may send a request: once, plus its retries. */
  function MaxAttempts(r: Request): (n: nat)
    ensures n >= 1
    ensures n == 1 <==> r.retries == 0
  {
    1 + r.retries
  }

  /** The `{accessToken, refreshToken}` body of the login and refresh endpoints. */
  datatype TokenPair = TokenPair(accessToken: string, refreshToken: string)

  /** How a token endpoint answered: a 2xx body, a non-2xx status with the
      server's `message`, or no response at all (timeout or network failure,
      where no response handler runs). */
  datatype Reply = Answered(pair: TokenPair) | Rejected(status: int, message: string) | NoReply

  /** A router instruction: go to `path`, replacing the current history entry when `replace`. */
  datatype Navigation = Navigation(path: string, replace: bool)

  /** The failure taxonomy of the client's error handling. */
  datatype StatusKind = ServerFault | AuthExpired | Forbidden | NotFound | Conflict | Unclassified

  /** Reference classification of a failed status into that taxonomy. */
  function KindOf(status: int): StatusKind {
    if status >= 500 then ServerFault
    else if status == 401 then AuthExpired
    else if status == 403 then Forbidden
    else if status == 404 then NotFound
    else if status == 409 then Conflict
    else Unclassified
  }
}
