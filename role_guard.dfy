/** The component that wraps role-restricted page content: a logged-out visitor is
    asked to log in, a user whose profile role is not exactly the required role is
    refused, and otherwise the wrapped content is shown as it is. */
module RoleGuard {
  import opened Wrappers
  import opened Types
  import Middleware
  import Strings

  /** What the guard renders. */
  datatype Access<T> = LogInPrompt | Refused(requiredRole: Role) | Granted(children: T)

  /** The guard for `requiredRole` around `children`, for session user `user` and the
      profiles table `profileRoles` (profile id to role column). */
  function Decide<T>(children: T, requiredRole: Role, user: Option<string>,
                     profileRoles: map<string, string>): (a: Access<T>)
    ensures a == LogInPrompt <==> user.None?
    ensures user.Some? && !a.Granted? ==> a == Refused(requiredRole)
    ensures a.Granted? <==> user.Some? && user.value in profileRoles
                            && profileRoles[user.value] == RoleName(requiredRole)
    ensures a.Granted? ==> a.children == children
    ensures a.Refused? ==> a.requiredRole == requiredRole
  {
    if user.None? then LogInPrompt
    else if user.value !in profileRoles || profileRoles[user.value] != RoleName(requiredRole) then
      Refused(requiredRole)
    else Granted(children)
  }

  /** The text of a refusal: empty only for granted access, and a refusal names
      the required role. */
  function Message<T>(a: Access<T>): (text: string)
    ensures text == "" <==> a.Granted?
    ensures a.Refused? ==> Strings.Occurs(text, RoleName(a.requiredRole))
  {
    match a
    case LogInPrompt => "Please log in to view this content."
    case Refused(r) =>
      var before, name := "You do not have the required permissions (", RoleName(r);
      var text := before + name + ") to view this content.";
      assert Strings.OccursAt(text, name, |before|) by {
        assert text[|before|..|before| + |name|] == name;
      }
      text
    case Granted(_) => ""
  }

  /** A user without a profile row is refused, not asked to log in. */
  lemma NoProfileIsRefused<T>(children: T, requiredRole: Role, userId: string, profileRoles: map<string, string>)
    requires userId !in profileRoles
    ensures Decide(children, requiredRole, Some(userId), profileRoles) == Refused(requiredRole)
  {
  }

  /** The guard's match is exact: an admin passes the route gate for a counselor
      page but is refused by a counselor guard on that page. */
  lemma AdminPassesGateButNotCounselorGuard<T>(children: T, userId: string)
    ensures Middleware.Gate("/counselor", None, Some(userId), map[userId := "admin"]) == Middleware.Continue
    ensures Decide(children, Counselor, Some(userId), map[userId := "admin"]) == Refused(Counselor)
  {
    assert !(Middleware.AdminPrefix <= "/counselor") by { assert "/counselor"[1] != Middleware.AdminPrefix[1]; }
  }

  /** Whatever role passes a guard, it is the required one. */
  lemma GrantedRoleIsRequired<T>(children: T, required: Role, other: Role, userId: string,
                                 profileRoles: map<string, string>)
    requires Decide(children, required, Some(userId), profileRoles).Granted?
    requires Decide(children, other, Some(userId), profileRoles).Granted?
    ensures required == other
  {
  }
}
