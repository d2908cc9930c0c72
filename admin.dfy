/**
 * The `admin` route middleware (app/middleware/admin.ts): a page guarded by it is shown only
 * to a signed-in user whose type is `ADMIN` or `MANAGER`; everybody else is sent to `/`.
 */
module AdminGate {
  import opened Common

  /** The part of the session user the guard reads. */
  datatype SessionUser = SessionUser(userType: string)

  predicate MayAdminister(user: Option<SessionUser>) {
    user.Some? && user.value.userType in {"ADMIN", "MANAGER"}
  }

  /** The middleware's verdict: `None` lets the navigation through, `Some(path)` redirects. */
  function AdminRedirect(user: Option<SessionUser>): (redirect: Option<string>)
    ensures redirect.None? <==> MayAdminister(user)
    ensures redirect.Some? ==> redirect.value == "/"
  {
    if user.None? || (user.value.userType != "ADMIN" && user.value.userType != "MANAGER") then Some("/")
    else None
  }

  /** No session, an `AGENT` and a `USER` are all sent home; an `ADMIN` passes. */
  lemma AdminRedirectCases()
    ensures AdminRedirect(None) == Some("/")
    ensures AdminRedirect(Some(SessionUser("AGENT"))) == Some("/")
    ensures AdminRedirect(Some(SessionUser("USER"))) == Some("/")
    ensures AdminRedirect(Some(SessionUser("ADMIN"))).None?
    ensures AdminRedirect(Some(SessionUser("MANAGER"))).None?
  {
  }
}
