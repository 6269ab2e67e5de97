/** The `/dashboard` dispatcher of src/components/AuthRedirect.tsx. */
module AuthRedirect {
  import opened Wrappers
  import opened AuthContext
  import opened Navigation
  import ProtectedRoute

  /** The dispatcher's administrator test: 'admin' or 'bibliotecario', or the
      override email address whatever the type. */
  predicate DispatchesToAdmin(u: AuthUser) {
    u.tipo == "admin" || u.tipo == "bibliotecario" || u.email == Some(AdminOverrideEmail)
  }

  /** The dispatcher's decision. It never renders content of its own. */
  function Dispatch(loading: bool, user: Option<AuthUser>): (d: Decision)
    ensures d != RenderChild
    ensures loading ==> d == ShowLoading
    ensures !loading && user.None? ==> d == Redirect("/login", true, None)
    ensures !loading && user.Some? ==>
              d == Redirect(if DispatchesToAdmin(user.value) then "/admin" else "/user-dashboard", true, None)
  {
    if loading then ShowLoading
    else if user.None? then Redirect("/login", true, None)
    else if user.value.tipo == "admin" || user.value.tipo == "bibliotecario" ||
            user.value.email == Some(AdminOverrideEmail) then Redirect("/admin", true, None)
    else Redirect("/user-dashboard", true, None)
  }

  /** The dispatcher's test is the session store's `isAdmin` plus the email
      override. */
  lemma DispatchIsSessionAdminOrOverride(u: AuthUser)
    ensures DispatchesToAdmin(u) <==> IsAdminUser(Some(u)) || u.email == Some(AdminOverrideEmail)
  {
  }

  /** A user of type 'administrador' with another address goes to
      `/user-dashboard`, although the guard would admit them to `/admin`. */
  lemma AdministradorSentToUserDashboard(u: AuthUser)
    requires u.tipo == "administrador" && u.email != Some(AdminOverrideEmail)
    ensures Dispatch(false, Some(u)) == Redirect("/user-dashboard", true, None)
    ensures ProtectedRoute.Guard(false, Some(u), true, "/admin") == RenderChild
  {
  }

  /** The override address with a non-administrator type is dispatched to
      `/admin`, which the guard does not admit. */
  lemma OverrideNotAdmittedByGuard(u: AuthUser)
    requires u.email == Some(AdminOverrideEmail) && !ProtectedRoute.GuardAdmits(u.tipo)
    ensures Dispatch(false, Some(u)) == Redirect("/admin", true, None)
    ensures ProtectedRoute.Guard(false, Some(u), true, "/admin") == Redirect("/user-dashboard", true, None)
  {
  }
}
