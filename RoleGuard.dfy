/**
 * The route guard of `RoleGuard.tsx`: once the stored role has been read,
 * the guard either renders the protected page or redirects.
 */
module RoleGuard {
  import opened Options

  datatype Outcome =
    | RedirectToLogin
    | RedirectToWorkOrder
    | RedirectToSchedule
    | RenderChildren

  /** A role that JavaScript treats as truthy: present and not the empty string. */
  predicate LoggedIn(userRole: Option<string>)
  {
    userRole.Some? && userRole.value != ""
  }

  /**
   * The decision chain. Each outcome is characterised on its own, so for every
   * (role, allowedRoles) pair exactly one of the four holds.
   */
  function Decide(userRole: Option<string>, allowedRoles: seq<string>): (r: Outcome)
    ensures r == RedirectToLogin <==> !LoggedIn(userRole)
    ensures r == RenderChildren <==> LoggedIn(userRole) && userRole.value in allowedRoles
    ensures r == RedirectToWorkOrder <==>
      LoggedIn(userRole) && userRole.value !in allowedRoles &&
      (userRole.value == "admin" || userRole.value == "site-manager")
    ensures r == RedirectToSchedule <==>
      LoggedIn(userRole) && userRole.value !in allowedRoles &&
      userRole.value != "admin" && userRole.value != "site-manager"
  {
    match userRole
    case None => RedirectToLogin
    case Some(role) =>
      if role == "" then RedirectToLogin
      else if role !in allowedRoles then
        if role == "admin" || role == "site-manager" then RedirectToWorkOrder
        else RedirectToSchedule
      else RenderChildren
  }

  /** The login check comes first: listing "" as an allowed role does not let an empty role in. */
  lemma EmptyRoleRedirectsEvenIfAllowed(allowedRoles: seq<string>)
    requires "" in allowedRoles
    ensures Decide(Some(""), allowedRoles) == RedirectToLogin
  {
  }

  /** Widening the allowed list never turns a rendered page into a redirect. */
  lemma AllowingMoreKeepsRendering(userRole: Option<string>, allowed: seq<string>, more: seq<string>)
    requires Decide(userRole, allowed) == RenderChildren
    ensures Decide(userRole, allowed + more) == RenderChildren
  {
  }
}
