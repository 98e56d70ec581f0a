/**
 * The root page (frontend/src/app/page.tsx): a redirect chosen by the session. What it renders is
 * the loading screen in every state, so only the redirect is modelled.
 */
module HomePage {
  import opened Wrappers
  import Auth

  /** The effect: once loading is over, `/dashboard` for a signed-in user and `/login` otherwise. */
  function RedirectTarget(loading: bool, hasUser: bool): (r: Option<string>)
    ensures loading <==> r.None?
    ensures !loading && hasUser ==> r == Some(Auth.DASHBOARD_PATH)
    ensures !loading && !hasUser ==> r == Some(Auth.LOGIN_PATH)
  {
    if !loading then
      if hasUser then Some(Auth.DASHBOARD_PATH) else Some(Auth.LOGIN_PATH)
    else None
  }

  /** The root page sends a visitor where the session provider would not send them back from. */
  lemma RootTargetIsStable(loading: bool, hasUser: bool)
    requires !loading
    ensures Auth.RedirectTarget(loading, hasUser, RedirectTarget(loading, hasUser).value).None?
  {
  }
}
