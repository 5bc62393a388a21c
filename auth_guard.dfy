/** The portal's two route guards. A guard answers whether a route may be
    activated and, when it may not, asks the router for exactly one
    navigation. The session is an input: whether someone is signed in and
    the roles they hold (the portal's own `AuthService` is not part of this
    model; `hasRole` is read as membership in that set). */
module AuthGuard {
  import opened Wrappers

  datatype Session = Session(authenticated: bool, roles: set<string>)

  /** Where a denied activation sends the user. */
  datatype Navigation = ToLogin(returnUrl: string) | ToUnauthorized

  datatype Decision = Decision(allow: bool, navigations: seq<Navigation>)

  /** `requiredRoles.some(role => hasRole(role))`. */
  function HoldsAny(required: seq<string>, s: Session): (b: bool)
    ensures b <==> exists i :: 0 <= i < |required| && required[i] in s.roles
  {
    if required == [] then false
    else required[0] in s.roles || HoldsAny(required[1..], s)
  }

  /** `authGuard`: signed-in users pass; anyone else is sent to the login
      page, which is told where they were going. */
  function AuthGuard(s: Session, url: string): (d: Decision)
    ensures d.allow <==> s.authenticated
    ensures d.allow ==> d.navigations == []
    ensures !d.allow ==> d.navigations == [ToLogin(url)]
  {
    if s.authenticated then Decision(true, [])
    else Decision(false, [ToLogin(url)])
  }

  /** `roleGuard`: sign-in is checked first; then, when the route declares a
      non-empty list of roles, the user must hold one of them. An absent
      list (`route.data['roles']` undefined) or an empty one admits every
      signed-in user. */
  function RoleGuard(s: Session, required: Option<seq<string>>, url: string): (d: Decision)
    ensures !s.authenticated ==> d == Decision(false, [ToLogin(url)])
    ensures s.authenticated && (required.None? || required.value == []) ==> d == Decision(true, [])
    ensures d.allow <==> (s.authenticated &&
      (required.None? || required.value == [] || exists r :: r in required.value && r in s.roles))
    ensures s.authenticated && !d.allow ==> d.navigations == [ToUnauthorized]
    ensures d.allow ==> d.navigations == []
  {
    if !s.authenticated then Decision(false, [ToLogin(url)])
    else if required.Some? && |required.value| > 0 && !HoldsAny(required.value, s) then
      Decision(false, [ToUnauthorized])
    else Decision(true, [])
  }

  /** Both guards ask for a navigation exactly when they deny, and then for
      one only. */
  lemma OneNavigationPerDenial(s: Session, required: Option<seq<string>>, url: string)
    ensures var d := AuthGuard(s, url); (|d.navigations| == 0 <==> d.allow) && |d.navigations| <= 1
    ensures var d := RoleGuard(s, required, url); (|d.navigations| == 0 <==> d.allow) && |d.navigations| <= 1
  {
  }

  /** The role guard is the sign-in guard with a role test added: it admits
      no one the sign-in guard refuses, treats those users the same way, and
      without declared roles it is the sign-in guard. */
  lemma RoleGuardRefinesAuthGuard(s: Session, required: Option<seq<string>>, url: string)
    ensures RoleGuard(s, required, url).allow ==> AuthGuard(s, url).allow
    ensures !AuthGuard(s, url).allow ==> RoleGuard(s, required, url) == AuthGuard(s, url)
    ensures RoleGuard(s, None, url) == AuthGuard(s, url)
    ensures RoleGuard(s, Some([]), url) == AuthGuard(s, url)
  {
  }
}
