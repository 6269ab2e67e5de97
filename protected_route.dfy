/** The route guard of src/components/ProtectedRoute.tsx. */
module ProtectedRoute {
  import opened Wrappers
  import opened AuthContext
  import opened Navigation

  /** The guard's own administrator test: 'admin', 'administrador' or
      'bibliotecario'. */
  predicate GuardAdmits(tipo: string) {
    tipo == "admin" || tipo == "administrador" || tipo == "bibliotecario"
  }

  /** The guard's decision for the current session and the requested location. */
  function Guard(loading: bool, user: Option<AuthUser>, requireAdmin: bool, location: string): (d: Decision)
    ensures loading ==> d == ShowLoading
    ensures !loading && user.None? ==> d == Redirect("/login", true, Some(location))
    ensures !loading && user.Some? && requireAdmin && !GuardAdmits(user.value.tipo) ==>
              d == Redirect("/user-dashboard", true, None)
    ensures d == RenderChild <==> !loading && user.Some? && (!requireAdmin || GuardAdmits(user.value.tipo))
  {
    if loading then ShowLoading
    else if user.None? then Redirect("/login", true, Some(location))
    else if requireAdmin && user.value.tipo != "admin" && user.value.tipo != "administrador" &&
            user.value.tipo != "bibliotecario" then Redirect("/user-dashboard", true, None)
    else RenderChild
  }

  /** `<ProtectedRoute>` without the flag: `requireAdmin` defaults to false. */
  function GuardDefault(loading: bool, user: Option<AuthUser>, location: string): (d: Decision)
    ensures d == RenderChild <==> !loading && user.Some?
  {
    Guard(loading, user, false, location)
  }

  /** While loading, the guard shows the loading view whatever the user or flag. */
  lemma LoadingWins(user1: Option<AuthUser>, user2: Option<AuthUser>, f1: bool, f2: bool, l1: string, l2: string)
    ensures Guard(true, user1, f1, l1) == Guard(true, user2, f2, l2) == ShowLoading
  {
  }

  /** The child is never rendered without a user, and never while loading. */
  lemma NeverRendersWithoutUser(loading: bool, user: Option<AuthUser>, requireAdmin: bool, location: string)
    ensures Guard(loading, user, requireAdmin, location) == RenderChild ==> user.Some? && !loading
  {
  }

  /** Every type the session store calls administrator passes the guard's
      check, and 'administrador' passes the guard although the store's
      `isAdmin` rejects it. */
  lemma GuardWiderThanSessionAdmin(u: AuthUser, location: string)
    ensures IsAdminUser(Some(u)) ==> Guard(false, Some(u), true, location) == RenderChild
    ensures u.tipo == "administrador" ==>
              Guard(false, Some(u), true, location) == RenderChild && !IsAdminUser(Some(u))
  {
  }
}
