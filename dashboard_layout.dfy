/**
 * The guard around every page under `/dashboard` (frontend/src/app/dashboard/layout.tsx): what it
 * renders and where it redirects, as a function of the session's `loading` flag and whether a user
 * is present.
 */
module DashboardLayout {
  import opened Wrappers
  import Auth

  /** What the layout renders. */
  datatype Rendering = LoadingScreen | Nothing | SidebarAndChildren

  /** The layout's effect: `router.replace('/login')` once loading is over and nobody is signed in. */
  function RedirectTarget(loading: bool, hasUser: bool): (r: Option<string>)
    ensures loading ==> r.None?
    ensures r.Some? <==> !loading && !hasUser
    ensures r.Some? ==> r.value == Auth.LOGIN_PATH
  {
    if !loading && !hasUser then Some(Auth.LOGIN_PATH) else None
  }

  /** The layout's rendering: loading screen first, then nothing without a user, else the page. */
  function Render(loading: bool, hasUser: bool): (r: Rendering)
    ensures loading ==> r == LoadingScreen
    ensures !loading && !hasUser ==> r == Nothing
    ensures r == SidebarAndChildren <==> !loading && hasUser
  {
    if loading then LoadingScreen
    else if !hasUser then Nothing
    else SidebarAndChildren
  }

  /**
   * The page's children are shown exactly when no redirect is pending and loading is over; and
   * on every page other than `/login` this layout and the session provider agree on the redirect.
   */
  lemma GuardAgreesWithProvider(loading: bool, hasUser: bool, pathname: string)
    requires pathname != Auth.LOGIN_PATH
    ensures Render(loading, hasUser) == SidebarAndChildren <==> !loading && RedirectTarget(loading, hasUser).None?
    ensures RedirectTarget(loading, hasUser) == Auth.RedirectTarget(loading, hasUser, pathname)
  {
  }
}
