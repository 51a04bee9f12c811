/** The route-protection decision of the request middleware: with the Supabase settings
    present, a visitor who is not signed in is sent to the login page from the dashboard and
    admin areas, except for the public admin demo. The session lookup is a parameter: whether a
    user came back for the request's cookies. */
module Middleware {
  import opened Results
  import opened Text

  /** The two settings the middleware reads from the environment. */
  datatype Env = Env(supabaseUrl: Option<string>, supabaseAnonKey: Option<string>)

  /** The parts of a request URL; a redirect may change the path alone. */
  datatype Url = Url(origin: string, pathname: string, search: string, hash: string)

  datatype Response =
    | Continue
    | Redirect(location: Url)

  const LoginPath := "/login"
  const PublicDemoPath := "/admin-demo"

  /** Both settings are set and not empty. */
  predicate Configured(env: Env) {
    Present(env.supabaseUrl) && Present(env.supabaseAnonKey)
  }

  /** The dashboard and the admin area, by path prefix. */
  predicate IsProtectedRoute(pathname: string) {
    StartsWith(pathname, "/dashboard") || StartsWith(pathname, "/admin")
  }

  /** The decision the middleware returns for a request. */
  function Decide(env: Env, signedIn: bool, url: Url): (r: Response)
    ensures r.Redirect? <==> Configured(env) && !signedIn && IsProtectedRoute(url.pathname)
                                               && url.pathname != PublicDemoPath
    ensures r.Redirect? ==> && r.location.pathname == LoginPath
                            && r.location.origin == url.origin
                            && r.location.search == url.search
                            && r.location.hash == url.hash
  {
    if !Configured(env) then Continue
    else if !signedIn && IsProtectedRoute(url.pathname) && url.pathname != PublicDemoPath then
      Redirect(url.(pathname := LoginPath))
    else Continue
  }

  /** Without the settings, and for a signed-in user, nothing is ever redirected. */
  lemma {:induction false} NoRedirectWithoutSettingsOrForUsers(env: Env, signedIn: bool, url: Url)
    requires !Configured(env) || signedIn
    ensures Decide(env, signedIn, url) == Continue
  {
  }

  /** The login page is not protected, so following a redirect never redirects again. */
  lemma {:induction false} RedirectIsFinal(env: Env, signedIn: bool, url: Url)
    requires Decide(env, signedIn, url).Redirect?
    ensures Decide(env, signedIn, Decide(env, signedIn, url).location) == Continue
  {
    var target := Decide(env, signedIn, url).location;
    assert target.pathname == LoginPath;
    assert LoginPath[1] == 'l' && "/admin"[1] == 'a' && "/dashboard"[1] == 'd';
    assert !StartsWith(LoginPath, "/admin") && !StartsWith(LoginPath, "/dashboard");
  }

  /** The prefix test is on characters, not path segments: "/administrator" is protected,
      the exact path "/admin-demo" is public, and "/admin-demo/x" is protected. */
  lemma {:induction false} ProtectionByPrefix(env: Env, url: Url)
    requires Configured(env)
    requires url.pathname == "/administrator" || url.pathname == "/admin-demo/x"
    ensures Decide(env, false, url) == Redirect(url.(pathname := LoginPath))
    ensures Decide(env, false, url.(pathname := PublicDemoPath)) == Continue
  {
    assert url.pathname[..6] == "/admin";
    assert PublicDemoPath[..6] == "/admin";
  }
}
