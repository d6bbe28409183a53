/** The page guard that runs before every matched page request: it sends
    signed-in users away from the auth pages, signed-out users to the sign-in
    page, and users without a linked provider account to the connect page. */
module Middleware {

  import opened Common

  datatype Decision = Next | Redirect(target: string, callbackUrl: Option<string>)

  const SignIn: string := "/auth/signin"
  const Dashboard: string := "/dashboard"
  const ConnectPage: string := "/connect-linkedin"

  /** `pathname.startsWith("/auth")` */
  predicate IsAuthPage(path: string)
  {
    "/auth" <= path
  }

  /** `!token.needsLinkedinConn`: an absent flag counts as connected. */
  predicate IsConnected(token: TokenClaims): (b: bool)
    ensures token.needsLinkedinConn.None? ==> b
    ensures token.needsLinkedinConn.Some? ==> (b <==> !token.needsLinkedinConn.value)
  {
    token.needsLinkedinConn != Some(true)
  }

  /** The guard's decision for a request to `path` carrying `token` (`None` when
      there is no valid token). */
  function Guard(path: string, token: Option<TokenClaims>): (d: Decision)
    ensures d.Redirect? ==> d.target == SignIn || d.target == Dashboard || d.target == ConnectPage
    ensures d.Redirect? && d.callbackUrl.Some? ==> d.target == SignIn && d.callbackUrl.value == path
    ensures d.Next? ==> (IsAuthPage(path) <==> token.None?)
  {
    if IsAuthPage(path) then
      if token.Some? then Redirect(Dashboard, None) else Next
    else if token.None? then
      Redirect(SignIn, Some(path))
    else if path == ConnectPage then
      if IsConnected(token.value) then Redirect(Dashboard, None) else Next
    else if !IsConnected(token.value) then
      Redirect(ConnectPage, None)
    else
      Next
  }

  /** On the auth pages a token sends the user to the dashboard; without one the request passes. */
  lemma AuthPagesGuard(path: string, token: Option<TokenClaims>)
    requires IsAuthPage(path)
    ensures token.Some? <==> Guard(path, token) == Redirect(Dashboard, None)
    ensures token.None? <==> Guard(path, token) == Next
  {
  }

  /** Elsewhere, a request without a token goes to sign-in, remembering where it was headed. */
  lemma SignedOutGuard(path: string)
    requires !IsAuthPage(path)
    ensures Guard(path, None) == Redirect(SignIn, Some(path))
  {
  }

  /** The connect page is for signed-in users whose account is not linked yet. */
  lemma ConnectPageGuard(token: TokenClaims)
    ensures Guard(ConnectPage, Some(token)) == Next <==> !IsConnected(token)
    ensures IsConnected(token) ==> Guard(ConnectPage, Some(token)) == Redirect(Dashboard, None)
  {
    assert !IsAuthPage(ConnectPage) by {
      assert ConnectPage[1] != "/auth"[1];
    }
  }

  /** Every other page is for linked users; the others are sent to the connect page. */
  lemma OtherPagesGuard(path: string, token: TokenClaims)
    requires !IsAuthPage(path) && path != ConnectPage
    ensures Guard(path, Some(token)) == Next <==> IsConnected(token)
    ensures !IsConnected(token) ==> Guard(path, Some(token)) == Redirect(ConnectPage, None)
  {
  }

  /** A request passes exactly when its page suits the caller's state. */
  lemma GuardPassesExactly(path: string, token: Option<TokenClaims>)
    ensures Guard(path, token) == Next <==>
      if IsAuthPage(path) then token.None?
      else token.Some? && (path == ConnectPage <==> !IsConnected(token.value))
  {
  }

  lemma {:induction false} TargetsAreNotAuthPages()
    ensures !IsAuthPage(Dashboard) && !IsAuthPage(ConnectPage)
    ensures IsAuthPage(SignIn)
  {
    assert Dashboard[1] != "/auth"[1];
    assert ConnectPage[1] != "/auth"[1];
    assert SignIn[..5] == "/auth";
  }

  /** No decision redirects a request to the page it asked for. */
  lemma NoSelfRedirect(path: string, token: Option<TokenClaims>)
    ensures Guard(path, token).Redirect? ==> Guard(path, token).target != path
  {
    TargetsAreNotAuthPages();
  }

  /** Following the guard's redirects with the same token reaches a page that passes
      after at most two hops, so the guard never sends a browser round in a loop. */
  lemma RedirectsSettle(path: string, token: Option<TokenClaims>)
    ensures var d1 := Guard(path, token);
      d1.Redirect? ==>
        var d2 := Guard(d1.target, token);
        d2 == Next || (d2.Redirect? && Guard(d2.target, token) == Next)
  {
    TargetsAreNotAuthPages();
    assert Dashboard != ConnectPage;
  }
}
