/** The guard wrapped around every page that needs a signed-in user: it either
    renders the page or redirects to a login page. */
module ProtectedRoute {
  import opened Wrappers
  import Ledger

  datatype Outcome = Redirect(to: string) | RenderChildren

  /** The login page of a role segment: `/${segment}/login`. */
  function LoginPath(segment: string): (path: string)
    ensures |path| == |segment| + 7
  {
    "/" + segment + "/login"
  }

  /** Reads the role segment back out of a login path. */
  function LoginSegment(path: string): (segment: Option<string>)
    ensures segment.Some? ==> path == LoginPath(segment.value)
  {
    if |path| >= 7 && path[0] == '/' && path[|path| - 6..] == "/login" then
      assert path == [path[0]] + path[1..|path| - 6] + path[|path| - 6..];
      Some(path[1..|path| - 6])
    else None
  }

  lemma LoginPathRoundTrip(segment: string)
    ensures LoginSegment(LoginPath(segment)) == Some(segment)
  {
    var path := LoginPath(segment);
    assert path[|path| - 6..] == "/login";
    assert path[1..|path| - 6] == segment;
  }

  /** Different roles have different login pages. */
  lemma LoginPathInjective(a: string, b: string)
    requires LoginPath(a) == LoginPath(b)
    ensures a == b
  {
    LoginPathRoundTrip(a);
    LoginPathRoundTrip(b);
  }

  /** `user?.role` in a template string: the role's name, or "undefined" when
      there is no user object. */
  function RoleSegment(user: Option<Ledger.Role>): (segment: string)
    ensures user.Some? ==> segment == Ledger.RoleName(user.value)
    ensures user.None? ==> segment == "undefined"
  {
    match user
    case Some(role) => Ledger.RoleName(role)
    case None => "undefined"
  }

  /** `ProtectedRoute` for a page that requires `role`. */
  function Guard(isAuthenticated: bool, user: Option<Ledger.Role>, role: Ledger.Role): (r: Outcome)
    ensures !isAuthenticated ==> r == Redirect(LoginPath(Ledger.RoleName(role)))
    ensures isAuthenticated && user != Some(role) ==> r == Redirect(LoginPath(RoleSegment(user)))
    ensures r.RenderChildren? <==> isAuthenticated && user == Some(role)
  {
    if !isAuthenticated then Redirect(LoginPath(Ledger.RoleName(role)))
    else if user != Some(role) then Redirect(LoginPath(RoleSegment(user)))
    else RenderChildren
  }

  /** A signed-in user of the other role is sent to their own login page, never
      to the login page of the role the route asked for. */
  lemma MismatchLeavesRequiredLogin(user: Ledger.Role, role: Ledger.Role)
    requires user != role
    ensures Guard(true, Some(user), role) == Redirect(LoginPath(Ledger.RoleName(user)))
    ensures Guard(true, Some(user), role) != Guard(false, Some(user), role)
  {
    if LoginPath(Ledger.RoleName(user)) == LoginPath(Ledger.RoleName(role)) {
      LoginPathInjective(Ledger.RoleName(user), Ledger.RoleName(role));
    }
  }

  /** Every redirect leads to a login page whose segment names a role or is
      "undefined". */
  lemma RedirectsGoToLogin(isAuthenticated: bool, user: Option<Ledger.Role>, role: Ledger.Role)
    ensures Guard(isAuthenticated, user, role).Redirect? ==>
              LoginSegment(Guard(isAuthenticated, user, role).to) in
                {Some("customer"), Some("banker"), Some("undefined")}
  {
    if !isAuthenticated {
      LoginPathRoundTrip(Ledger.RoleName(role));
    } else {
      LoginPathRoundTrip(RoleSegment(user));
    }
  }
}
