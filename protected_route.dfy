/** The route guard: which of its four views a protected route shows, from the provider's
    loading flag, the logged-in user and the role the route requires. */
module ProtectedRoute {
  import opened Wrappers
  import opened AuthContext

  /** The guard's outcome. A redirect goes to `to`, replaces the history entry when `replace`
      holds, and carries the location the visitor asked for as `from`. */
  datatype View =
    | Loading
    | Redirect(to: string, replace: bool, from: string)
    | AccessDenied
    | Children

  /** The guard for a route at `location` requiring `requiredRole` (absent or empty for none). */
  function Guard(loading: bool, user: Option<SessionUser>, requiredRole: Option<string>, location: string): View {
    if loading then Loading
    else if !IsAuthenticated(user) then Redirect("/login", true, location)
    else if requiredRole.Some? && requiredRole.value != "" && !HasRole(user, requiredRole.value) then AccessDenied
    else Children
  }

  /** Each view is shown exactly in its case: loading first regardless of user and role, then
      the login redirect for visitors, then the denial for a role mismatch, else the page. */
  lemma GuardDecides(loading: bool, user: Option<SessionUser>, requiredRole: Option<string>, location: string)
    ensures var v := Guard(loading, user, requiredRole, location);
      var needsRole := requiredRole.Some? && requiredRole.value != "";
      && (v == Loading <==> loading)
      && (v.Redirect? <==> !loading && user.None?)
      && (v.Redirect? ==> v == Redirect("/login", true, location))
      && (v == AccessDenied <==> !loading && user.Some? && needsRole && user.value.role != requiredRole.value)
      && (v == Children <==> !loading && user.Some? && (!needsRole || user.value.role == requiredRole.value))
  {
  }

  /** A visitor whose stored session has expired sees the loading view for as long as the
      page stays open: the mount effect returns before clearing the flag. */
  lemma ExpiredSessionLoadsForever(s: Session, now: int, requiredRole: Option<string>, location: string)
    requires Expired(s, now)
    ensures var m := AfterMount(AtMount(Some(Parsed(s))), now);
      Guard(m.loading, m.user, requiredRole, location) == Loading
  {
  }

  /** A fresh session of the right role reaches the page after mount. */
  lemma FreshSessionReachesPage(s: Session, now: int, location: string)
    requires !Expired(s, now)
    ensures var m := AfterMount(AtMount(Some(Parsed(s))), now);
      && Guard(m.loading, m.user, Some(s.user.role), location) == Children
      && Guard(m.loading, m.user, None, location) == Children
  {
  }
}
