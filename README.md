# Crown ticketing front end: verified model of its decision and update rules

This project models the logic at the core of the multi-tenant help-desk front end (the
"Crown" franchise portal) in Dafny and proves properties of it. The rendering code is left out. The model covers:

- **CNPJ handling on the login page.** `formatCNPJ` groups digits into
  `NN.NNN.NNN/NNNN-NN`. `validateCNPJ` applies the modulo-11 check-digit rule of the
  Receita Federal do Brasil. `isTestCNPJ` is an allow-list of six demo numbers. The
  field and submit validations are built on these three (modules `Cnpj`, `LoginPage`).
- **The authentication provider.** A class holds the session state (user, tenant,
  token, loading flag). Its methods model `loadUser`, `login`, `logout` and
  `updateUser`. Functions model the role, access and label rules that read that
  state (module `AuthContext`).
- **The sidebar.** This covers the menu built for each access level, the set of
  expanded sections, and the active and expanded rules of each entry (module `Sidebar`).
- **The route guards and the application shell.** The modules `AuthenticatedRoute`,
  `ProtectedRoute`, `MainLayout` and `HomePage` each decide between a view and a
  redirect.
- **The data hooks.** `useTickets` has a one-second throttle; `useCategories` filters
  by tenant and active flag (modules `UseTickets`, `UseCategories`). Module `UseTenant`
  holds only the tenant record those hooks read.
- **The HTTP client's interceptors.** One sets the `Authorization: Bearer` header;
  the other redirects to the login page on a 401 (module `ApiClient`).

Helper modules:

- `Wrappers` holds `Option` and `Result`.
- `Strings` holds JavaScript's `includes` and `split`, with their laws.

Where the source updates state in place (the provider, the login form, the sidebar's
expanded sections, the shell's sidebar flag, the hooks, the request config and the browser
location), the model is a class whose methods state the whole new state. The rest is
pure functions with lemmas.

How the model maps the source's types and oracles:

- **Records.** Roles and tenant types are kept as the raw strings the records carry.
  `RoleOf` and `TenantTypeOf` classify them, and a code nobody knows lands in an
  `Other` case.
- **Ids.** `Tenant.id` is declared a number in `src/types/api.ts`, but the provider
  compares it with a string. The model keeps ids as strings.
- **Missing tenant fields.** The declared `Tenant` lacks `type` and `childTenants`,
  which the provider reads. Both are added as optional fields; the `type` field is
  called `kind` here.
- **Login response.** `LoginResponse` holds the fields `login` reads: `token`, `user` and
  `tenant`. The declared response type in `src/types/api.ts` carries `access_token` and
  `user` only, so `token` and `tenant` are optional here. A response without a token
  leaves a user signed in to the provider's state but not authenticated.
- **Oracles become parameters.** These are the authentication service, `api.get`,
  local storage and the clock. A service answer is a `Result`. An `api.get` answer is
  an `ApiOutcome`: array data, other data, or a rejection. The clock is an integer
  number of milliseconds.

Two behaviours worth stating plainly:

- **Session restore.** `loadUser` reads the stored token and then asks the service for
  the current user with `getCurrentUser`; if that fails, it logs out (`AuthSession.LoadUser`).
- **401 responses.** The response interceptor only redirects to the tenant's login page
  and rejects the error. It clears no session state (`ApiClient.OnResponseError`).

## Model

| member | source | states |
|---|---|---|
| `Cnpj.Digits` | src/app/login/page.tsx:40 | the cleaned value holds only decimal digits and is never longer than the input |
| `Cnpj.FormatCnpj` | src/app/login/page.tsx:39-54 | an input with more than 14 digits is returned unchanged |
| `Cnpj.GroupedDigits` | src/app/login/page.tsx:42-50 | the grouping keeps exactly the digits, in order, and adds one separator per non-empty group after the first |
| `Cnpj.FormatKeepsDigits` | src/app/login/page.tsx:39-51 | with at most 14 digits, the result's digits are the input's digits in order, and its length is the digit count plus one separator each past digits 2, 5, 8 and 12 |
| `Cnpj.FormatFitsField` | src/app/login/page.tsx:39-51 | a formatted CNPJ never exceeds the field's 18-character limit |
| `Cnpj.FormatFullCnpj` | src/app/login/page.tsx:42-50 | fourteen digits, however typed, come out as NN.NNN.NNN/NNNN-NN holding those digits |
| `Cnpj.GroupedPrefix` | src/app/login/page.tsx:42-50 | the groups of a shorter digit string are a prefix of the groups of any 14-digit continuation |
| `Cnpj.FormatPartial` | src/app/login/page.tsx:39-54 | a partly typed CNPJ shows as the beginning of the full mask of any completion of its digits, so '.' stands before digits 3 and 6, '/' before 9 and '-' before 13 |
| `Cnpj.FormatIdempotent` | src/app/login/page.tsx:39-54 | formatting twice equals formatting once |
| `Cnpj.MaskedLiteral` | src/app/login/page.tsx:39-54 | a string already in the mask shape is a fixed point of the formatter, and its digits are the groups joined |
| `Cnpj.CheckDigit` | src/app/login/page.tsx:73-81 | a check digit is between 0 and 9; it is 0 exactly when the weighted sum leaves a remainder below 2, and otherwise it brings the weighted sum up to a multiple of 11 (so it is 11 minus the remainder) |
| `Cnpj.ValidateCnpj` | src/app/login/page.tsx:57-67 | acceptance needs exactly 14 digits, not all the same |
| `Cnpj.ValidateDependsOnDigits` | src/app/login/page.tsx:58-86 | two inputs with the same digits get the same verdict |
| `Cnpj.ValidateIgnoresFormatting` | src/app/login/page.tsx:39-87 | formatting a value never changes its verdict |
| `Cnpj.SumFromPrefix` | src/app/login/page.tsx:74-77 | the weighted sum reads only as many leading digits as there are weights |
| `Cnpj.CheckDigitPrefix` | src/app/login/page.tsx:73-81 | a check digit depends only on the leading digits its weights cover |
| `Cnpj.ValidateDigitString` | src/app/login/page.tsx:70-86 | on 14 digits the verdict is: not all the same, digit 13 equals the first check digit (weights 5,4,3,2,9,8,7,6,5,4,3,2) and digit 14 the second (weights 6,5,4,3,2,9,8,7,6,5,4,3,2) |
| `Cnpj.CheckDigitsDetermined` | src/app/login/page.tsx:70-86 | for twelve digits not all the same, exactly one final pair is accepted: the two computed check digits |
| `Cnpj.FirstSumExplicit` | src/app/login/page.tsx:70-77 | the first weighted sum written out term by term with its weights |
| `Cnpj.SecondSumExplicit` | src/app/login/page.tsx:71-77 | the second weighted sum written out term by term with its weights |
| `Cnpj.ExampleFirstCheck` | src/app/login/page.tsx:73-83 | for 11222333000181 the first sum is 102, remainder 3, so the first check digit is 8, the thirteenth digit |
| `Cnpj.ExampleSecondCheck` | src/app/login/page.tsx:73-84 | for 11222333000181 the second sum is 120, remainder 10, so the second check digit is 1, the fourteenth digit |
| `Cnpj.ExampleDigitsPass` | src/app/login/page.tsx:70-86 | 11222333000181 passes both check digits (remainders 3 and 10) |
| `Cnpj.ValidExample` | src/app/login/page.tsx:57-87 | 11.222.333/0001-81 is accepted |
| `Cnpj.ValidFromDigits` | src/app/login/page.tsx:57-87 | fourteen digits, not all the same, that pass both checks are accepted whatever punctuation surrounds them |
| `Cnpj.IsTestCnpj` | src/app/login/page.tsx:90-100 | only 18-character strings are on the allow-list |
| `Cnpj.TestCnpjsAsWritten` | src/app/login/page.tsx:91-98 | the allow-list is exactly the six formatted numbers the page lists, in order |
| `Cnpj.ListedDigits` | src/app/login/page.tsx:39-54 | a number shaped AA.AAA.AAA/000K-BB has the digits AAAAAAAA000KBB and is already formatted |
| `Cnpj.ListedCheckDigit` | src/app/login/page.tsx:70-83 | for the digits AAAAAAAA000KBB with 1 ≤ K ≤ 5 the first sum is 44·A + 2·K, so the first check digit is 11 − 2·K |
| `Cnpj.ListedShape` | src/app/login/page.tsx:70-86 | a number shaped AA.AAA.AAA/000K-BB with 1 ≤ K ≤ 5 and B ≠ 11 − 2K is formatted and fails the check-digit rule |
| `Cnpj.TestCnpjFacts` | src/app/login/page.tsx:90-100 | every listed number is formatted, has 14 digits and fails the check-digit rule, so only the list admits it; its bare digit string is not on the list |
| `Strings.ContainsIff` | src/components/layout/MainLayout.tsx:36 | `includes` holds exactly when the substring occurs at some index |
| `Strings.SplitOn` | src/lib/api.ts:43 | `split` gives at least one piece, and no piece contains the separator |
| `Strings.JoinSplit` | src/lib/api.ts:43 | joining the pieces of a split with the separator gives back the string |
| `Strings.SplitFirstPiece` | src/lib/api.ts:43 | the first piece is everything before the first separator |
| `AuthContext.RoleOf` | src/contexts/AuthContext.tsx:98-166 | an unknown role code is kept as it arrived |
| `AuthContext.RoleCodeOfRole` | src/types/api.ts:6 | classifying a role code and writing it back gives the same code |
| `AuthContext.RoleOfRoleCode` | src/contexts/AuthContext.tsx:98-166 | a known role survives the trip through its code |
| `AuthContext.TenantTypeOf` | src/contexts/AuthContext.tsx:185-194 | an unknown tenant type code is kept as it arrived |
| `AuthContext.HasRole` | src/contexts/AuthContext.tsx:89-91 | true exactly when there is a user whose role code equals the one asked for |
| `AuthContext.IsAuthenticated` | src/contexts/AuthContext.tsx:30 | signed in means a user and a non-empty token; the route guards, the shell and the home page read it; `AuthSession.Logout` and `AuthSession.Login` state when it holds |
| `AuthContext.GetAccessLevel` | src/contexts/AuthContext.tsx:161-169 | CROWN_ADMIN gives CROWN, FRANCHISOR_ADMIN gives FRANCHISOR and FRANCHISE_ADMIN gives FRANCHISE, each if and only if; any other role or no user gives USER |
| `AuthContext.SomeChildHasId` | src/contexts/AuthContext.tsx:103 | true exactly when some child tenant has the id |
| `AuthContext.HasAccessToTenant` | src/contexts/AuthContext.tsx:94-108 | the access rule, branch for branch; its role-by-role law is `AuthContext.TenantAccessRule` |
| `AuthContext.TenantAccessRule` | src/contexts/AuthContext.tsx:94-108 | nothing without a user and a tenant; CROWN_ADMIN reaches every tenant, FRANCHISOR_ADMIN its own and its children, everyone else only its own |
| `AuthContext.OwnTenantReachable` | src/contexts/AuthContext.tsx:94-108 | a signed-in user always reaches their own tenant |
| `AuthContext.ChildTenantReachable` | src/contexts/AuthContext.tsx:100-107 | a child tenant other than the user's own is reachable exactly for crown and franchisor admins |
| `AuthContext.HasAccessToBrand` | src/contexts/AuthContext.tsx:111-119 | requires a user and a tenant; then CROWN_ADMIN reaches every brand and others only an exact match |
| `AuthContext.HasAccessToSegment` | src/contexts/AuthContext.tsx:122-130 | requires a user and a tenant; then CROWN_ADMIN reaches every segment and others only an exact match |
| `AuthContext.CanManageTenants` | src/contexts/AuthContext.tsx:133-137 | a user whose role is CROWN_ADMIN or FRANCHISOR_ADMIN; laws in `AuthContext.CapabilitiesNest` and `AuthContext.CapabilitiesByLevel` |
| `AuthContext.CanManageUsers` | src/contexts/AuthContext.tsx:140-144 | a user whose role is one of the three admin roles; laws in `AuthContext.CapabilitiesNest` and `AuthContext.CapabilitiesByLevel` |
| `AuthContext.CanManageTickets` | src/contexts/AuthContext.tsx:147-151 | an admin or an AGENT; laws in `AuthContext.CapabilitiesNest` and `AuthContext.CapabilitiesByLevel` |
| `AuthContext.CanViewReports` | src/contexts/AuthContext.tsx:154-158 | the same three admin roles as user management, as `AuthContext.CapabilitiesNest` proves |
| `AuthContext.CapabilitiesNest` | src/contexts/AuthContext.tsx:133-158 | managing tenants implies managing users, which implies managing tickets; reports equal user management; nothing without a user |
| `AuthContext.CapabilitiesByLevel` | src/contexts/AuthContext.tsx:133-169 | tenant management is the CROWN and FRANCHISOR levels, user management every level but USER, and ticket management adds agents |
| `AuthContext.GetBrandName` | src/contexts/AuthContext.tsx:172-179 | '' without a tenant; 'Crown Company' for type CROWN; otherwise the brand if non-empty, else the name |
| `AuthContext.BrandNameSources` | src/contexts/AuthContext.tsx:172-179 | a non-crown tenant is named by its brand or its name, and the name is empty only if both are |
| `AuthContext.GetTenantTypeLabel` | src/contexts/AuthContext.tsx:182-195 | the label of the tenant's type code; laws in `AuthContext.TenantTypeLabelPassThrough` and `AuthContext.LabelsWithoutTenant` |
| `AuthContext.GetSegmentLabel` | src/contexts/AuthContext.tsx:198-219 | the label of the tenant's segment code; laws in `AuthContext.SegmentLabelPassThrough` and `AuthContext.LabelsWithoutTenant` |
| `AuthContext.TenantTypeLabelPassThrough` | src/contexts/AuthContext.tsx:182-195 | the type label equals the code exactly when the code is unknown; known codes get one of the three labels |
| `AuthContext.SegmentLabelPassThrough` | src/contexts/AuthContext.tsx:198-219 | the segment label equals the code exactly when the code is unknown, and different known codes get different labels |
| `AuthContext.LabelsWithoutTenant` | src/contexts/AuthContext.tsx:172-219 | every label getter returns '' without a tenant |
| `AuthContext.AuthSession.constructor` | src/contexts/AuthContext.tsx:25-28 | the session starts with no user, tenant or token, and loading |
| `AuthContext.AuthSession.Logout` | src/contexts/AuthContext.tsx:73-78 | user, tenant and token are cleared, so nobody is authenticated; loading is untouched |
| `AuthContext.AuthSession.LoadUser` | src/contexts/AuthContext.tsx:33-53 | with no stored token only loading changes; if the user fetch fails, the session ends logged out; otherwise the user, their tenant (or none) and the token are adopted; loading always ends false |
| `AuthContext.AuthSession.Login` | src/contexts/AuthContext.tsx:56-70 | on success token, user and tenant come from the response, and the session is authenticated exactly when the response's token is non-empty; on failure they are unchanged and the same error is rethrown; loading ends false either way |
| `AuthContext.AuthSession.UpdateUser` | src/contexts/AuthContext.tsx:81-86 | the user is always replaced; the tenant only when the new user carries one; the token and loading flag are untouched |
| `LoginPage.CnpjFieldError` | src/app/login/page.tsx:108-118 | 'CNPJ inválido' exactly when the value has 14 digits and is neither valid nor a test number; otherwise '' |
| `LoginPage.FieldErrorCleared` | src/app/login/page.tsx:108-118 | a valid or still incomplete CNPJ shows no field error |
| `LoginPage.FormatOfDigits` | src/app/login/page.tsx:39-54 | formatting the bare digits equals formatting the input |
| `LoginPage.TypingTestDigits` | src/app/login/page.tsx:102-118 | typing the digits of a listed test number yields the listed string, with no error |
| `LoginPage.SubmitCheck` | src/app/login/page.tsx:125-139 | submission proceeds exactly when all fields are filled, the CNPJ has 14 digits and it is valid or listed; missing fields are reported first; the length error exactly when the fields are filled and the digit count is not 14; the invalid-CNPJ error exactly when they are filled, there are 14 digits and the number is neither valid nor listed |
| `LoginPage.FieldAndSubmitAgree` | src/app/login/page.tsx:108-139 | on a complete CNPJ with the other fields filled, the submit check passes exactly when the field shows no error |
| `LoginPage.TestCnpjPassesSubmit` | src/app/login/page.tsx:130-139 | a listed test number with the other fields filled passes the submit checks |
| `LoginPage.ClassifyLoginError` | src/app/login/page.tsx:149-163 | the message is never empty; 401/credenciais gives the credentials message; failing that, 404/tenant the tenant message; failing both, 500/server the server message; failing all three, network/fetch the network message; a non-Error value gives the generic message |
| `LoginPage.RawMessageShown` | src/app/login/page.tsx:149-163 | a message naming a keyword gets one of the four fixed texts; any other is shown as is, or replaced by the fallback when empty |
| `LoginPage.EarlierKeywordWins` | src/app/login/page.tsx:150-153 | 404/tenant wins over every later keyword when 401/credenciais is absent |
| `LoginPage.DemoCredentialsListed` | src/app/login/page.tsx:170-191 | each demo account's CNPJ is on the allow-list and its e-mail and password are filled |
| `LoginPage.LoginRedirect` | src/app/login/page.tsx:32-36 | the page navigates to /dashboard exactly when signed in and done loading |
| `LoginPage.LoginForm.constructor` | src/app/login/page.tsx:21-28 | the form starts empty, with no error and not loading |
| `LoginPage.LoginForm.HandleCnpjChange` | src/app/login/page.tsx:102-119 | stores the formatted value and sets the field error computed from it; other fields untouched |
| `LoginPage.LoginForm.HandleSubmit` | src/app/login/page.tsx:121-168 | each failed check stops with its own message, without calling login or touching the session; otherwise login runs; success adopts the response's token and tenant and is authenticated exactly when the token is non-empty; failure shows the classified message; loading ends false |
| `LoginPage.LoginForm.FillTestCredentials` | src/app/login/page.tsx:170-191 | fills the chosen demo account, clears the field error, and the filled CNPJ is on the allow-list |
| `Sidebar.GetMenuItems` | src/components/layout/Sidebar.tsx:56-180 | the pushed entries are exactly the menu of the user's access level |
| `Sidebar.MenuFor` | src/components/layout/Sidebar.tsx:56-180 | the menu of each access level, as a list of items; its shape is stated by `Sidebar.MenuFrame`, `Sidebar.MenuLevelEntries` and `Sidebar.MenuChildren` |
| `Sidebar.MenuFrame` | src/components/layout/Sidebar.tsx:56-180 | menus have 9, 9, 8 and 3 entries; they start with /dashboard and /tickets and end with /help; USER gets only these three; admin menus end with /categories, /notifications (badge 3), /settings, /help |
| `Sidebar.MenuLevelEntries` | src/components/layout/Sidebar.tsx:73-146 | CROWN adds /tenants (children /tenants, /tenants/brands, /tenants/segments), /reports and /users; FRANCHISOR adds /franchises, /reports and /users; FRANCHISE adds /reports and /users; each with its own reports label |
| `Sidebar.MenuChildren` | src/components/layout/Sidebar.tsx:56-180 | only the crown menu's /tenants entry has children |
| `Sidebar.RemoveAll` | src/components/layout/Sidebar.tsx:51 | the filter keeps every other section and drops every copy of the given one |
| `Sidebar.Toggled` | src/components/layout/Sidebar.tsx:48-54 | the new expanded list: the section removed if present, appended otherwise; laws in `Sidebar.ToggleFlips`, `Sidebar.ToggleTwice` and `Sidebar.ToggleKeepsDistinct` |
| `Sidebar.ToggleFlips` | src/components/layout/Sidebar.tsx:48-54 | toggling flips the given section's membership and no other |
| `Sidebar.ToggleTwice` | src/components/layout/Sidebar.tsx:48-54 | toggling a section twice restores which sections are expanded |
| `Sidebar.RemoveAllKeepsDistinct` | src/components/layout/Sidebar.tsx:51 | filtering a list without repeats leaves none |
| `Sidebar.ToggleKeepsDistinct` | src/components/layout/Sidebar.tsx:48-54 | toggling never introduces a repeated section |
| `Sidebar.RenderItem` | src/components/layout/Sidebar.tsx:182-240 | an item is drawn first, at its own depth, before any children |
| `Sidebar.RenderItems` | src/components/layout/Sidebar.tsx:214 | the items drawn one after another, each with its visible children; laws in `Sidebar.ActiveIffPathname` and `Sidebar.CollapsedShowsTopLevel` |
| `Sidebar.ActiveIffPathname` | src/components/layout/Sidebar.tsx:183 | every drawn entry is highlighted exactly when the pathname equals its href |
| `Sidebar.CollapsedShowsTopLevel` | src/components/layout/Sidebar.tsx:185-216 | with no parent expanded, exactly the top-level items are drawn, in order |
| `Sidebar.TenantsExpanded` | src/components/layout/Sidebar.tsx:206-216 | an expanded /tenants entry draws its three children one level deeper |
| `Sidebar.TenantsCollapsed` | src/components/layout/Sidebar.tsx:46 | with the initial ['main'], /tenants draws only itself, marked collapsed |
| `Sidebar.AccessLevelColor` | src/components/layout/Sidebar.tsx:256-268 | the badge colour classes of each level; `Sidebar.ColorsDistinct` proves them pairwise different |
| `Sidebar.ColorsDistinct` | src/components/layout/Sidebar.tsx:256-268 | each access level has its own colour classes |
| `Sidebar.SidebarState.constructor` | src/components/layout/Sidebar.tsx:46 | only 'main' starts expanded, so /tenants starts collapsed |
| `Sidebar.SidebarState.ToggleSection` | src/components/layout/Sidebar.tsx:48-54 | the section list becomes the toggled list, and the section's membership flips |
| `Sidebar.SidebarState.Render` | src/components/layout/Sidebar.tsx:270-304 | nothing is drawn without a user and a tenant; otherwise exactly the rendered entries of the user's access-level menu are drawn, the active rule holds, and, while /tenants is collapsed, one entry per menu item, starting with /dashboard |
| `AuthenticatedRoute.IsPublicRoute` | src/components/layout/AuthenticatedRoute.tsx:19 | the tenant's root and its login page are public; `AuthenticatedRoute.RedirectTargetIsPublic` proves the redirect lands on one |
| `AuthenticatedRoute.RedirectTarget` | src/components/layout/AuthenticatedRoute.tsx:21-26 | the effect's redirect, if any; its law is `AuthenticatedRoute.RedirectRule` |
| `AuthenticatedRoute.Render` | src/components/layout/AuthenticatedRoute.tsx:29-54 | the view the guard renders; laws in `AuthenticatedRoute.PublicRoutesRender`, `AuthenticatedRoute.ProtectedRouteViews` and `AuthenticatedRoute.RedirectMatchesView` |
| `AuthenticatedRoute.RedirectRule` | src/components/layout/AuthenticatedRoute.tsx:21-26 | a redirect happens exactly when loaded, unauthenticated and not public, always to '/'+tenant+'/login' |
| `AuthenticatedRoute.PublicRoutesRender` | src/components/layout/AuthenticatedRoute.tsx:29-31 | public routes render their children and never redirect, whatever the session |
| `AuthenticatedRoute.ProtectedRouteViews` | src/components/layout/AuthenticatedRoute.tsx:34-54 | on other routes children render exactly when loaded and authenticated; loading shows only the loading view; loaded and unauthenticated shows the redirect message |
| `AuthenticatedRoute.RedirectMatchesView` | src/components/layout/AuthenticatedRoute.tsx:23-52 | the redirect message shows exactly when a redirect is issued |
| `AuthenticatedRoute.RedirectTargetIsPublic` | src/components/layout/AuthenticatedRoute.tsx:19-24 | the redirect target is public, so arriving there renders the children and redirects no further |
| `ProtectedRoute.Render` | src/components/layout/ProtectedRoute.tsx:13-32 | the view the guard renders; its law is `ProtectedRoute.ViewsBySession` |
| `ProtectedRoute.ViewsBySession` | src/components/layout/ProtectedRoute.tsx:13-32 | spinner exactly while loading; access denied exactly when loaded and unauthenticated; children exactly when loaded and authenticated |
| `MainLayout.SelectLayout` | src/components/layout/MainLayout.tsx:36-54 | bare or with the sidebar; its law is `MainLayout.LayoutRule` |
| `MainLayout.Render` | src/components/layout/MainLayout.tsx:54-72 | the layout and whether the mobile overlay is drawn; its law is `MainLayout.OverlayRule` |
| `MainLayout.LayoutRule` | src/components/layout/MainLayout.tsx:36-54 | the sidebar layout is used exactly for authenticated users on paths not containing '/login' |
| `MainLayout.TenantLoginIsBare` | src/components/layout/MainLayout.tsx:36-42 | every tenant's login page gets the bare layout, signed in or not |
| `MainLayout.OverlayRule` | src/components/layout/MainLayout.tsx:62-72 | the mobile overlay is drawn exactly in the sidebar layout with the sidebar open |
| `MainLayout.Shell.constructor` | src/components/layout/MainLayout.tsx:28 | the sidebar starts closed |
| `MainLayout.Shell.ToggleSidebar` | src/components/layout/MainLayout.tsx:31-33 | the flag is negated, so two toggles restore it |
| `HomePage.Navigation` | src/app/page.tsx:12-20 | where the page sends the browser, if anywhere; its law is `HomePage.NavigationRule` |
| `HomePage.NavigationRule` | src/app/page.tsx:12-20 | no navigation while loading; afterwards /dashboard when authenticated and /login otherwise |
| `HomePage.ScreenIndependentOfState` | src/app/page.tsx:22 | the loading screen is the same in every state |
| `ApiClient.AttachToken` | src/lib/api.ts:11-26 | in the browser with a non-empty stored token, Authorization becomes 'Bearer '+token; otherwise headers are untouched; the same config is returned |
| `ApiClient.BearerHeader` | src/lib/api.ts:16-17 | the header starts with 'Bearer ' and no other header changes |
| `ApiClient.TenantSegment` | src/lib/api.ts:43 | the path's second `/`-piece, or 'undefined' when there is none; it never contains a slash |
| `ApiClient.LoginRedirectPath` | src/lib/api.ts:42-44 | the 401 target is always '/' + one slash-free segment + '/login' |
| `ApiClient.RedirectToTenantLogin` | src/lib/api.ts:42-44 | a path starting '/'+tenant redirects to '/'+tenant+'/login' |
| `ApiClient.CrownTicketsExample` | src/lib/api.ts:42-44 | a 401 on /crown/tickets redirects to /crown/login |
| `ApiClient.OnResponseError` | src/lib/api.ts:29-49 | every error is rejected unchanged; only a 401 in the browser moves the location to the tenant's login page |
| `UseTickets.Throttled` | src/hooks/useTickets.ts:24 | a call is throttled when a last update exists less than 1000 ms before now; its law is `UseTickets.ThrottleWindow` |
| `UseTickets.ThrottleWindow` | src/hooks/useTickets.ts:24-26 | a call is skipped exactly when it comes less than 1000 ms after the last update; never before any update |
| `UseTickets.TicketsState.constructor` | src/hooks/useTickets.ts:8-11 | no tickets, loading, no error, no last update |
| `UseTickets.TicketsState.FetchTickets` | src/hooks/useTickets.ts:15-63 | no tenant: error, empty list, no request; throttled: nothing changes; otherwise it requests '/'+slug+'/tickets'. Array data replaces the tickets and stamps the time the response arrived (not the time of the throttle check); other data empties them; failure empties them with its error. The error is cleared on success, and loading ends false |
| `UseCategories.Usable` | src/hooks/useCategories.ts:44 | a category is usable when it is active and belongs to the tenant; `UseCategories.KeptIff` proves the filter keeps exactly these |
| `UseCategories.ValidCategories` | src/hooks/useCategories.ts:43-45 | the kept list is never longer, and every kept category is from the response, active and of the tenant |
| `UseCategories.KeptIff` | src/hooks/useCategories.ts:43-45 | a category is kept exactly when it is in the response, active and of the tenant |
| `UseCategories.KeptInOrder` | src/hooks/useCategories.ts:43-45 | the kept list is a subsequence of the response |
| `UseCategories.FilterIdempotent` | src/hooks/useCategories.ts:43-45 | filtering the kept list again changes nothing |
| `UseCategories.FilterAppend` | src/hooks/useCategories.ts:43-45 | filtering a concatenation is the concatenation of the filtered parts |
| `UseCategories.FilterSingle` | src/hooks/useCategories.ts:44 | a one-element response keeps its element exactly when it is active and of the tenant |
| `UseCategories.KeptCount` | src/hooks/useCategories.ts:43-45 | a usable category is kept as many times as the response holds it, and an unusable one never |
| `UseCategories.CategoriesState.constructor` | src/hooks/useCategories.ts:20-22 | no categories, loading, no error |
| `UseCategories.CategoriesState.FetchCategories` | src/hooks/useCategories.ts:26-62 | no tenant: error, empty list, no request; otherwise it requests '/'+slug+'/ticket-category'. Array data keeps the filtered categories and clears the error; anything else empties the list with its error. Loading ends false |

## Left out

- JSX rendering, styling, icons and `useEffect` scheduling are not modelled. Navigation and redirects are returned as target strings; `window.location` is a small location class.
- The calls to the authentication service, `api.get` and local storage are parameters. Their outcomes are passed in, so what the service does, and how it stores the token, is not modelled.
- Console logging and toasts are left out. The login page's success toast is only the `SignedIn` outcome.
- `authService.getToken()` throwing inside `loadUser` is not modelled: the stored token is a plain parameter. A failure of the current-user request is modelled.
- The credentials passed to `login` go only to the service oracle, so `AuthSession.Login` does not take them.
- `AuthContext.GetTenantTypeLabel`: a tenant without a `type` gives `undefined` in the source. The model gives '', which renders the same.
- `useTenant` decodes a JWT with a foreign library. Only its result type, `TenantInfo`, is modelled.
- The `Ticket` type is not declared in the types file. The model gives it an id and a status.
- The ticket-status counts that `useTickets` logs are not modelled.
- The optional `requiredRoles` and `requiredPermissions` menu fields are never read, so they are not modelled.
- The header, the dashboard, the developer API panel and the ticket dialogs are presentational or outside these rules, so they are not modelled.
- `Sidebar.GetMenuItems`: the model does not prove that top-level hrefs are pairwise distinct. Comparing the literal menu strings pairwise is beyond the solver budget.
- `AuthSession.LoadUser`, `AuthSession.Login`, `LoginForm.HandleSubmit`, `TicketsState.FetchTickets` and `CategoriesState.FetchCategories`: each async handler is one atomic step, from its call to its `finally`. Interleavings are not modelled: two `fetchTickets` calls in flight both pass the throttle, because `lastUpdate` is set only after the response; responses can arrive out of order; the first `finally` clears `isLoading` while another request is still pending.
- `AuthContext.HasAccessToTenant`, `AuthContext.OwnTenantReachable`: tenant ids are assumed to be strings. `Tenant.id` is declared a number, and the provider compares it with `===` against a string argument, so with numeric ids at run time that comparison is always false and a non-crown user would not reach their own tenant.
- `ApiClient.OnResponse`, the success handler of the response interceptor, is the identity function. It carries no contract of its own.
