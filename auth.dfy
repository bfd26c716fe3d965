/** The server-side authorization helpers: the fallback identity used when nobody is
    logged in, the profile role lookup, and the `requireRole` guard used by the
    admin, counselling and moderation actions. The authenticated user and the
    profiles table are inputs: `user` is the session's user id, if any, and
    `profileRoles` maps a profile id to the text of its role column. */
module Auth {
  import opened Wrappers
  import opened Types
  import Strings

  /** The identity an unauthenticated caller is evaluated as. */
  const FallbackUserId: string := "11111111-1111-1111-1111-111111111111"

  /** `user || { id: FallbackUserId }`, by id. */
  function EffectiveUserId(user: Option<string>): (id: string)
    ensures user.Some? ==> id == user.value
    ensures user.None? ==> id == FallbackUserId
  {
    if user.Some? then user.value else FallbackUserId
  }

  /** `getUserRole`: the profile's role column, or null when there is no profile for
      `userId` or its role is the empty (falsy) string. The column is not checked
      against the four role names. */
  function GetUserRole(profileRoles: map<string, string>, userId: string): (r: Option<string>)
    ensures r == None <==> userId !in profileRoles || profileRoles[userId] == ""
    ensures r.Some? ==> r.value == profileRoles[userId]
  {
    if userId in profileRoles && profileRoles[userId] != "" then Some(profileRoles[userId]) else None
  }

  /** The names of `roles`, in order. */
  function RoleNames(roles: seq<Role>): (names: seq<string>)
    ensures |names| == |roles|
    ensures forall k :: 0 <= k < |roles| ==> names[k] == RoleName(roles[k])
  {
    if roles == [] then [] else [RoleName(roles[0])] + RoleNames(roles[1..])
  }

  /** The outcome of `requireRole`. */
  datatype Authorization = Authorized(userId: string, role: Role) | Forbidden(error: string)

  /** The error of an unauthorized `requireRole`: the allowed roles, comma separated, in brackets. */
  function ForbiddenMessage(allowed: seq<Role>): string
  {
    ForbiddenPrefix + Strings.Join(RoleNames(allowed), ", ") + "]"
  }

  /** Every such error is bracketed after the fixed prefix, an empty list gives empty
      brackets, and a non-empty list is named from its first role on. */
  lemma ForbiddenMessageShape(allowed: seq<Role>)
    ensures var text := ForbiddenMessage(allowed);
      |text| > |ForbiddenPrefix| && ForbiddenPrefix <= text && text[|text| - 1] == ']'
    ensures allowed == [] ==> ForbiddenMessage(allowed) == ForbiddenPrefix + "]"
    ensures allowed != [] ==> ForbiddenPrefix + RoleName(allowed[0]) <= ForbiddenMessage(allowed)
  {
    var names := RoleNames(allowed);
    var joined := Strings.Join(names, ", ");
    if allowed != [] {
      Strings.JoinStartsWithFirst(names, ", ");
      assert (ForbiddenPrefix + joined + "]")[..|ForbiddenPrefix| + |names[0]|] == ForbiddenPrefix + names[0];
    }
  }

  const ForbiddenPrefix: string := "Forbidden: Requires one of ["

  /** The role `user` (or the fallback identity) is evaluated with by `requireRole`, if
      its role column names one of `allowed`. */
  predicate HasAllowedRole(allowed: seq<Role>, user: Option<string>, profileRoles: map<string, string>)
  {
    exists role :: role in allowed && GetUserRole(profileRoles, EffectiveUserId(user)) == Some(RoleName(role))
  }

  /** `requireRole(allowed)`: the caller (or the fallback identity, when logged out) is
      authorized exactly when its looked-up role is one of `allowed`; otherwise the
      result carries the fixed error naming `allowed`. */
  function RequireRole(allowed: seq<Role>, user: Option<string>, profileRoles: map<string, string>): (a: Authorization)
    ensures a.Authorized? <==> HasAllowedRole(allowed, user, profileRoles)
    ensures a.Authorized? ==> a.userId == EffectiveUserId(user) && a.role in allowed
    ensures a.Authorized? ==> GetUserRole(profileRoles, a.userId) == Some(RoleName(a.role))
    ensures a.Forbidden? ==> a.error == ForbiddenMessage(allowed)
  {
    var id := EffectiveUserId(user);
    var role := GetUserRole(profileRoles, id);
    if role.None? || role.value !in RoleNames(allowed) then
      Forbidden(ForbiddenMessage(allowed))
    else
      var k :| 0 <= k < |allowed| && RoleNames(allowed)[k] == role.value;
      assert ParseRole(role.value) == Some(allowed[k]);
      Authorized(id, ParseRole(role.value).value)
  }

  /** A caller without a looked-up role is never authorized. */
  lemma NoRoleIsForbidden(allowed: seq<Role>, user: Option<string>, profileRoles: map<string, string>)
    requires GetUserRole(profileRoles, EffectiveUserId(user)) == None
    ensures RequireRole(allowed, user, profileRoles).Forbidden?
  {
  }

  /** An empty list of allowed roles denies everyone. */
  lemma EmptyAllowedIsForbidden(user: Option<string>, profileRoles: map<string, string>)
    ensures RequireRole([], user, profileRoles) == Forbidden("Forbidden: Requires one of []")
  {
  }

  /** A logged-out caller is evaluated exactly as the fallback identity would be. */
  lemma LoggedOutIsFallback(allowed: seq<Role>, profileRoles: map<string, string>)
    ensures RequireRole(allowed, None, profileRoles) == RequireRole(allowed, Some(FallbackUserId), profileRoles)
  {
  }

  /** The error text of the admin-only actions. */
  lemma AdminOnlyMessage()
    ensures ForbiddenMessage([Admin]) == "Forbidden: Requires one of [admin]"
  {
    assert RoleNames([Admin]) == ["admin"];
  }

  /** The error text of the moderation actions. */
  lemma ModerationMessage()
    ensures ForbiddenMessage([Moderator, Admin]) == "Forbidden: Requires one of [moderator, admin]"
  {
    var two := [Moderator, Admin];
    assert two[1..] == [Admin];
    var names := RoleNames(two);
    assert names == ["moderator", "admin"];
    assert names[1..] == ["admin"];
    assert Strings.Join(names, ", ") == "moderator, admin";
  }

  /** The error text of the case action. */
  lemma CaseWorkerMessage()
    ensures ForbiddenMessage([Counselor, Moderator, Admin])
         == "Forbidden: Requires one of [counselor, moderator, admin]"
  {
    CaseWorkerNames();
    JoinCaseWorkerNames();
  }

  lemma CaseWorkerNames()
    ensures RoleNames([Counselor, Moderator, Admin]) == ["counselor", "moderator", "admin"]
  {
    var three := [Counselor, Moderator, Admin];
    assert three[1..] == [Moderator, Admin] && three[1..][1..] == [Admin];
  }

  lemma JoinCaseWorkerNames()
    ensures Strings.Join(["counselor", "moderator", "admin"], ", ") == "counselor, moderator, admin"
  {
    var names := ["counselor", "moderator", "admin"];
    assert names[1..] == ["moderator", "admin"] && names[1..][1..] == ["admin"];
    assert Strings.Join(names[1..], ", ") == "moderator, admin";
  }
}
