/** The request gate that runs before every page: demo-mode bypass, a redirect to
    the login page for anonymous visitors, and role checks on the `/admin` and
    `/counselor` route prefixes. The session user and the profiles table are
    inputs (`user` is the user id, `profileRoles` maps a profile id to its role
    column); the gate's answer is a decision value instead of a response object. */
module Middleware {
  import opened Wrappers
  import opened Types

  /** Continue to the page (`supabaseResponse`), or redirect to a path. */
  datatype Decision = Continue | Redirect(path: string)

  const AdminPrefix: string := "/admin"
  const CounselorPrefix: string := "/counselor"
  const LoginPath: string := "/login"
  const HomePath: string := "/"

  /** The `is_demo` cookie is present with the value "true". */
  predicate IsDemo(demoCookie: Option<string>)
  {
    demoCookie == Some("true")
  }

  /** The profile row of `userId` exists and its role column is `roleName`. */
  predicate ProfileHasRole(profileRoles: map<string, string>, userId: string, roleName: string)
  {
    userId in profileRoles && profileRoles[userId] == roleName
  }

  /** The gate on a request for `pathname`. Prefixes are raw string prefixes. */
  function Gate(pathname: string, demoCookie: Option<string>, user: Option<string>,
                profileRoles: map<string, string>): (d: Decision)
    ensures d == Continue || d == Redirect(LoginPath) || d == Redirect(HomePath)
    ensures IsDemo(demoCookie) ==> d == Continue
    ensures d == Redirect(LoginPath) <==>
              (AdminPrefix <= pathname || CounselorPrefix <= pathname) && !IsDemo(demoCookie) && user.None?
  {
    if AdminPrefix <= pathname then
      if IsDemo(demoCookie) then Continue
      else if user.None? then Redirect(LoginPath)
      else if !ProfileHasRole(profileRoles, user.value, "admin") then Redirect(HomePath)
      else CounselorGate(pathname, demoCookie, user, profileRoles)
    else
      CounselorGate(pathname, demoCookie, user, profileRoles)
  }

  /** The second block of the gate, reached by every request that the admin block
      did not answer. */
  function CounselorGate(pathname: string, demoCookie: Option<string>, user: Option<string>,
                         profileRoles: map<string, string>): (d: Decision)
    ensures d == Continue || d == Redirect(LoginPath) || d == Redirect(HomePath)
    ensures !(CounselorPrefix <= pathname) || IsDemo(demoCookie) ==> d == Continue
    ensures d == Redirect(LoginPath) <==> CounselorPrefix <= pathname && !IsDemo(demoCookie) && user.None?
  {
    if CounselorPrefix <= pathname then
      if IsDemo(demoCookie) then Continue
      else if user.None? then Redirect(LoginPath)
      else if !ProfileHasRole(profileRoles, user.value, "counselor")
           && !ProfileHasRole(profileRoles, user.value, "admin") then Redirect(HomePath)
      else Continue
    else
      Continue
  }

  /** The roles a gated path admits, independently of how the gate is written:
      `/admin...` admits admin, `/counselor...` admits counselor and admin, and
      every other path is not gated. */
  function RequiredRoles(pathname: string): (roles: Option<set<Role>>)
    ensures roles.Some? ==> roles.value != {} && Admin in roles.value
  {
    if AdminPrefix <= pathname then Some({Admin})
    else if CounselorPrefix <= pathname then Some({Counselor, Admin})
    else None
  }

  /** The whole gate in one statement: an ungated path or a demo request continues;
      otherwise an anonymous request goes to the login page, a user whose profile
      role is admitted continues, and anyone else goes home. */
  lemma GateMatchesRequiredRoles(pathname: string, demoCookie: Option<string>, user: Option<string>,
                                 profileRoles: map<string, string>)
    ensures Gate(pathname, demoCookie, user, profileRoles) ==
      if RequiredRoles(pathname).None? || IsDemo(demoCookie) then Continue
      else if user.None? then Redirect(LoginPath)
      else if exists r :: r in RequiredRoles(pathname).value && ProfileHasRole(profileRoles, user.value, RoleName(r))
      then Continue
      else Redirect(HomePath)
  {
    PrefixesExclusive(pathname);
    if !IsDemo(demoCookie) && user.Some? && RequiredRoles(pathname).Some? {
      var req := RequiredRoles(pathname).value;
      if ProfileHasRole(profileRoles, user.value, "admin") {
        assert Admin in req && ProfileHasRole(profileRoles, user.value, RoleName(Admin));
      } else if ProfileHasRole(profileRoles, user.value, "counselor") && CounselorPrefix <= pathname {
        assert Counselor in req && ProfileHasRole(profileRoles, user.value, RoleName(Counselor));
      }
    }
  }

  /** No path is under both gated prefixes. */
  lemma PrefixesExclusive(pathname: string)
    ensures !(AdminPrefix <= pathname && CounselorPrefix <= pathname)
  {
    if AdminPrefix <= pathname {
      assert pathname[1] == 'a' != CounselorPrefix[1];
    }
  }

  /** With the demo cookie set, no request is redirected. */
  lemma DemoBypassesGate(pathname: string, user: Option<string>, profileRoles: map<string, string>)
    ensures Gate(pathname, Some("true"), user, profileRoles) == Continue
  {
  }

  /** Without the demo cookie, an anonymous request under a gated prefix goes to the login page. */
  lemma AnonymousGatedGoesToLogin(pathname: string, demoCookie: Option<string>, profileRoles: map<string, string>)
    requires AdminPrefix <= pathname || CounselorPrefix <= pathname
    requires !IsDemo(demoCookie)
    ensures Gate(pathname, demoCookie, None, profileRoles) == Redirect("/login")
  {
  }

  /** Under `/admin`, only a profile whose role is admin continues. */
  lemma AdminPathAdmitsOnlyAdmin(pathname: string, demoCookie: Option<string>, userId: string,
                                 profileRoles: map<string, string>)
    requires AdminPrefix <= pathname && !IsDemo(demoCookie)
    ensures Gate(pathname, demoCookie, Some(userId), profileRoles) == Continue
            <==> ProfileHasRole(profileRoles, userId, "admin")
    ensures Gate(pathname, demoCookie, Some(userId), profileRoles) != Continue
            ==> Gate(pathname, demoCookie, Some(userId), profileRoles) == Redirect("/")
  {
    PrefixesExclusive(pathname);
  }

  /** Under `/counselor`, a counselor or an admin continues and anyone else goes home. */
  lemma CounselorPathAdmitsCounselorAndAdmin(pathname: string, demoCookie: Option<string>, userId: string,
                                             profileRoles: map<string, string>)
    requires CounselorPrefix <= pathname && !IsDemo(demoCookie)
    ensures Gate(pathname, demoCookie, Some(userId), profileRoles) == Continue
            <==> ProfileHasRole(profileRoles, userId, "counselor") || ProfileHasRole(profileRoles, userId, "admin")
    ensures Gate(pathname, demoCookie, Some(userId), profileRoles) != Continue
            ==> Gate(pathname, demoCookie, Some(userId), profileRoles) == Redirect("/")
  {
    PrefixesExclusive(pathname);
  }

  /** A path under neither prefix continues, whoever asks. */
  lemma UngatedPathContinues(pathname: string, demoCookie: Option<string>, user: Option<string>,
                             profileRoles: map<string, string>)
    requires !(AdminPrefix <= pathname) && !(CounselorPrefix <= pathname)
    ensures Gate(pathname, demoCookie, user, profileRoles) == Continue
  {
  }

  /** The moderator pages are not gated here, and the prefix test is textual, so
      `/administrator` is gated as an admin page. */
  lemma PrefixExamples(userId: string)
    ensures Gate("/moderator", None, None, map[]) == Continue
    ensures Gate("/administrator", None, Some(userId), map[userId := "counselor"]) == Redirect("/")
    ensures Gate("/counselor/cases", None, Some(userId), map[userId := "admin"]) == Continue
  {
    assert !(AdminPrefix <= "/moderator") by { assert "/moderator"[1] != AdminPrefix[1]; }
    assert !(CounselorPrefix <= "/moderator") by { assert "/moderator"[1] != CounselorPrefix[1]; }
    assert AdminPrefix <= "/administrator";
    assert CounselorPrefix <= "/counselor/cases";
    assert !(AdminPrefix <= "/counselor/cases") by { assert "/counselor/cases"[1] != AdminPrefix[1]; }
  }
}
