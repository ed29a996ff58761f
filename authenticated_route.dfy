// The tenant-scoped route guard: public routes, the login redirect and the view it renders.
module AuthenticatedRoute {
  import opened Wrappers

  /** `isPublicRoute`: the tenant's landing page and its login page. */
  predicate IsPublicRoute(pathname: string, tenant: string) {
    pathname == "/" + tenant || pathname == "/" + tenant + "/login"
  }

  function LoginPath(tenant: string): string {
    "/" + tenant + "/login"
  }

  /** The redirect effect: where the guard sends the browser, if anywhere. */
  function RedirectTarget(pathname: string, tenant: string, isLoading: bool, isAuthenticated: bool): Option<string> {
    if !isLoading && !isAuthenticated && !IsPublicRoute(pathname, tenant) then Some(LoginPath(tenant)) else None
  }

  /** What the guard renders. */
  datatype View = Children | LoadingView | RedirectingView

  function Render(pathname: string, tenant: string, isLoading: bool, isAuthenticated: bool): View {
    if IsPublicRoute(pathname, tenant) then Children
    else if isLoading then LoadingView
    else if !isAuthenticated then RedirectingView
    else Children
  }

  /** A redirect is issued exactly when the session has loaded, nobody is
      signed in and the route is not public, and it always goes to the login page. */
  lemma RedirectRule(pathname: string, tenant: string, isLoading: bool, isAuthenticated: bool)
    ensures RedirectTarget(pathname, tenant, isLoading, isAuthenticated).Some? <==>
      !isLoading && !isAuthenticated && !IsPublicRoute(pathname, tenant)
    ensures RedirectTarget(pathname, tenant, isLoading, isAuthenticated).Some? ==>
      RedirectTarget(pathname, tenant, isLoading, isAuthenticated).value == "/" + tenant + "/login"
  {
  }

  /** Public routes render their children whatever the session says. */
  lemma PublicRoutesRender(pathname: string, tenant: string, isLoading: bool, isAuthenticated: bool)
    requires IsPublicRoute(pathname, tenant)
    ensures Render(pathname, tenant, isLoading, isAuthenticated) == Children
    ensures RedirectTarget(pathname, tenant, isLoading, isAuthenticated).None?
  {
  }

  /** On a protected route the children appear exactly when the session has
      loaded and someone is signed in; while loading only the loading view
      shows, and after loading without a user only the redirect message. */
  lemma ProtectedRouteViews(pathname: string, tenant: string, isLoading: bool, isAuthenticated: bool)
    requires !IsPublicRoute(pathname, tenant)
    ensures Render(pathname, tenant, isLoading, isAuthenticated) == Children <==> !isLoading && isAuthenticated
    ensures isLoading ==> Render(pathname, tenant, isLoading, isAuthenticated) == LoadingView
    ensures !isLoading && !isAuthenticated ==> Render(pathname, tenant, isLoading, isAuthenticated) == RedirectingView
  {
  }

  /** The redirect message shows exactly when a redirect is under way. */
  lemma RedirectMatchesView(pathname: string, tenant: string, isLoading: bool, isAuthenticated: bool)
    ensures RedirectTarget(pathname, tenant, isLoading, isAuthenticated).Some? <==>
      Render(pathname, tenant, isLoading, isAuthenticated) == RedirectingView
  {
  }

  /** The redirect target is itself public, so arriving there redirects no further. */
  lemma RedirectTargetIsPublic(pathname: string, tenant: string, isLoading: bool, isAuthenticated: bool)
    requires RedirectTarget(pathname, tenant, isLoading, isAuthenticated).Some?
    ensures var target := RedirectTarget(pathname, tenant, isLoading, isAuthenticated).value;
      IsPublicRoute(target, tenant) && RedirectTarget(target, tenant, isLoading, isAuthenticated).None? &&
      Render(target, tenant, isLoading, isAuthenticated) == Children
  {
  }
}
