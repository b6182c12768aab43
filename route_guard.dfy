/**
 * The page guard run before every routed request (src/middleware.ts): a
 * visitor without a session token is sent to the login page, a visitor with
 * one is kept away from the login and registration pages.
 */
module RouteGuard {
  import opened Wrappers
  import opened JsString

  const AuthPrefix: string := "/auth/"
  const LoginPath: string := "/auth/login"
  const HomePath: string := "/"

  /** `NextResponse.next()` or `NextResponse.redirect(path)`. */
  datatype Response = Next | Redirect(location: string)

  /** The `token` cookie is truthy: present and not the empty string. */
  predicate HasToken(token: Option<string>)
  {
    token.Some? && token.value != ""
  }

  predicate IsAuthPage(pathname: string)
  {
    StartsWith(pathname, AuthPrefix)
  }

  /** The decision for a request with cookie `token` on page `pathname`. */
  function Middleware(token: Option<string>, pathname: string): (r: Response)
    ensures r == Redirect(LoginPath) <==> !HasToken(token) && !IsAuthPage(pathname)
    ensures r == Redirect(HomePath) <==> HasToken(token) && IsAuthPage(pathname)
    ensures r == Next <==> HasToken(token) != IsAuthPage(pathname)
  {
    var isAuthPage := IsAuthPage(pathname);
    if !HasToken(token) && !isAuthPage then Redirect(LoginPath)
    else if HasToken(token) && isAuthPage then Redirect(HomePath)
    else Next
  }

  /** An empty cookie value is treated exactly like a missing cookie. */
  lemma EmptyTokenIsNoToken(pathname: string)
    ensures Middleware(Some(""), pathname) == Middleware(None, pathname)
  {
  }

  /**
   * No redirect loop: the guard never redirects a page to itself, and the
   * page it redirects to is let through for the same visitor.
   */
  lemma NoRedirectLoop(token: Option<string>, pathname: string)
    ensures Middleware(token, pathname).Redirect? ==>
      && Middleware(token, pathname).location != pathname
      && Middleware(token, Middleware(token, pathname).location) == Next
  {
    assert IsAuthPage(LoginPath);
    assert !IsAuthPage(HomePath);
  }
}
