/** The persisted credential store: an access token and a refresh token,
    both possibly absent. */
module TokensStore {
  import opened Wrappers
  import opened JsValues
  import opened Http

  datatype Tokens = Tokens(token: Option<string>, refreshToken: Option<string>)

  /** A fresh store holds neither token. */
  const Initial := Tokens(None, None)

  /** Both tokens present and non-empty: the condition the route guard admits. */
  predicate SignedIn(t: Tokens) {
    Truthy(t.token) && Truthy(t.refreshToken)
  }

  /** `clear`: forget both tokens. */
  function Clear(t: Tokens): (r: Tokens)
    ensures r == Initial
    ensures !SignedIn(r)
  {
    Tokens(None, None)
  }

  /** The two consecutive assignments that store a refreshed pair. They run
      in one synchronous turn, so no reader sees one new token beside an old one. */
  function Replace(t: Tokens, pair: TokenPair): (r: Tokens)
    ensures r.token == Some(pair.accessToken) && r.refreshToken == Some(pair.refreshToken)
    ensures SignedIn(r) <==> pair.accessToken != "" && pair.refreshToken != ""
  {
    t.(token := Some(pair.accessToken)).(refreshToken := Some(pair.refreshToken))
  }

  /** A fresh store is signed out, and `clear` brings any store back to it. */
  lemma InitialSignedOut(t: Tokens)
    ensures Initial.token.None? && Initial.refreshToken.None?
    ensures !SignedIn(Initial)
    ensures Clear(t) == Initial
  {}

  lemma ClearIdempotent(t: Tokens)
    ensures Clear(Clear(t)) == Clear(t)
  {}

  /** The two fields are the whole store: after `clear` nothing of the
      previous contents remains. */
  lemma ClearForgetsEverything(a: Tokens, b: Tokens)
    ensures Clear(a) == Clear(b)
  {}

  /** After a replace, nothing of the previous contents remains either. */
  lemma ReplaceForgetsEverything(a: Tokens, b: Tokens, pair: TokenPair)
    ensures Replace(a, pair) == Replace(b, pair)
  {}
}
