/**
 * The route guard: what a guarded route shows, given the session's
 * `loading` flag, the current `user` and the route's optional `requiredRole`.
 */
module ProtectedRoute {
  import opened Json
  import opened Outcomes
  import Text

  /** What the guard renders: the placeholder, a `<Navigate replace>` or the wrapped page. */
  datatype Decision = ShowLoading | Redirect(to: string) | RenderChildren

  /** A `requiredRole` prop that is present and truthy (the empty string is not). */
  predicate RoleGiven(requiredRole: Option<string>) {
    requiredRole.Some? && requiredRole.value != ""
  }

  /** `user.role === requiredRole`. */
  predicate HasRole(user: Value, role: string) {
    Get(user, "role") == Str(role)
  }

  /**
   * The chain of early returns. Loading wins over everything; a missing user
   * goes to /login; a role mismatch goes to /unauthorized; the redirect to
   * "/" after the `includes` test can never be taken, because the role
   * already equals `requiredRole` there and a string includes itself.
   */
  function Decide(loading: bool, user: Value, requiredRole: Option<string>): (d: Decision)
    ensures loading ==> d == ShowLoading
    ensures !loading && !Truthy(user) ==> d == Redirect("/login")
    ensures !loading && Truthy(user) && RoleGiven(requiredRole) && !HasRole(user, requiredRole.value)
            ==> d == Redirect("/unauthorized")
    ensures !loading && Truthy(user) && !RoleGiven(requiredRole) ==> d == RenderChildren
    ensures d == RenderChildren
        <==> !loading && Truthy(user) && (!RoleGiven(requiredRole) || HasRole(user, requiredRole.value))
    ensures d != Redirect("/")
  {
    if loading then ShowLoading
    else if !Truthy(user) then Redirect("/login")
    else if RoleGiven(requiredRole) && !HasRole(user, requiredRole.value) then Redirect("/unauthorized")
    else if RoleGiven(requiredRole) && !Text.Contains(requiredRole.value, ToStr(Get(user, "role"))) then
      Text.ContainsEmptyAndSelf(requiredRole.value);
      assert false;
      Redirect("/")
    else
      RenderChildren
  }

  /** The /unauthorized redirect is taken only for a present user, never instead of /login. */
  lemma UnauthorizedOnlyForUsers(loading: bool, user: Value, requiredRole: Option<string>)
    ensures Decide(loading, user, requiredRole) == Redirect("/unauthorized")
        ==> !loading && Truthy(user) && RoleGiven(requiredRole)
    ensures Decide(loading, user, requiredRole) == Redirect("/login") <==> !loading && !Truthy(user)
  {
  }
}
