// The application shell: bare or sidebar layout, and the mobile sidebar toggle.
module MainLayout {
  import opened Strings
  import AuthenticatedRoute

  datatype Layout = Bare | WithSidebar

  /** The layout choice: login pages and signed-out visitors get the bare layout. */
  function SelectLayout(pathname: string, isAuthenticated: bool): Layout {
    if Contains(pathname, "/login") then Bare
    else if !isAuthenticated then Bare
    else WithSidebar
  }

  /** What the shell draws: the layout and whether the mobile overlay is shown. */
  datatype View = View(layout: Layout, mobileOverlay: bool)

  function Render(pathname: string, isAuthenticated: bool, isSidebarOpen: bool): View {
    var layout := SelectLayout(pathname, isAuthenticated);
    View(layout, layout == WithSidebar && isSidebarOpen)
  }

  /** The sidebar layout is used exactly for signed-in users away from login pages. */
  lemma LayoutRule(pathname: string, isAuthenticated: bool)
    ensures SelectLayout(pathname, isAuthenticated) == WithSidebar <==>
      isAuthenticated && !exists i: nat :: OccursAt(pathname, "/login", i)
  {
    ContainsIff(pathname, "/login");
  }

  /** Every tenant login page gets the bare layout, signed in or not. */
  lemma TenantLoginIsBare(tenant: string, isAuthenticated: bool)
    ensures SelectLayout(AuthenticatedRoute.LoginPath(tenant), isAuthenticated) == Bare
  {
    var p := AuthenticatedRoute.LoginPath(tenant);
    var i := |tenant| + 1;
    assert p[i..i + 6] == "/login";
    assert OccursAt(p, "/login", i);
    ContainsIff(p, "/login");
  }

  /** In the sidebar layout the overlay is drawn exactly when the sidebar is open;
      in the bare layout never. */
  lemma OverlayRule(pathname: string, isAuthenticated: bool, isSidebarOpen: bool)
    ensures Render(pathname, isAuthenticated, isSidebarOpen).mobileOverlay <==>
      SelectLayout(pathname, isAuthenticated) == WithSidebar && isSidebarOpen
  {
  }

  /** The shell's state: whether the mobile sidebar is open. */
  class Shell {
    var isSidebarOpen: bool

    constructor ()
      ensures !isSidebarOpen
    {
      isSidebarOpen := false;
    }

    /** `toggleSidebar`; two toggles therefore restore the previous value. */
    method ToggleSidebar()
      modifies this
      ensures isSidebarOpen == !old(isSidebarOpen)
    {
      isSidebarOpen := !isSidebarOpen;
    }
  }
}
