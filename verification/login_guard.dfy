/** The global route middleware that sends a visitor without credentials
    to the login page. It reads the store and returns at most one redirect;
    it has no way to change the store. */
module LoginGuard {
  import opened Wrappers
  import opened Http
  import opened TokensStore

  const LoginPath := "/login"

  /** The redirect for a navigation to `path`, if any. */
  function Redirect(path: string, t: Tokens): (nav: Option<Navigation>)
    ensures nav.Some? <==>
      path != LoginPath &&
      (t.token.None? || t.token.value == "" || t.refreshToken.None? || t.refreshToken.value == "")
    ensures nav.Some? ==> nav.value == Navigation(LoginPath, true)
  {
    if path != LoginPath && !SignedIn(t) then Some(Navigation(LoginPath, true)) else None
  }

  lemma LoginPageNeverRedirected(t: Tokens)
    ensures Redirect(LoginPath, t) == None
  {}

  /** Following the redirect reaches a page the guard lets through: no redirect loop. */
  lemma RedirectCannotLoop(path: string, t: Tokens)
    requires Redirect(path, t).Some?
    ensures Redirect(Redirect(path, t).value.path, t) == None
  {}

  lemma SignedInNeverRedirected(path: string, t: Tokens)
    requires SignedIn(t)
    ensures Redirect(path, t) == None
  {}

  /** Once the store is cleared every page but the login page redirects. */
  lemma ClearedStoreRedirects(path: string, t: Tokens)
    requires path != LoginPath
    ensures Redirect(path, Clear(t)) == Some(Navigation(LoginPath, true))
  {}
}
