// The root page: it navigates once the session has loaded and always shows the loading screen.
module HomePage {
  import opened Wrappers

  /** The navigation effect of the root page. */
  function Navigation(isLoading: bool, isAuthenticated: bool): Option<string> {
    if !isLoading then (if isAuthenticated then Some("/dashboard") else Some("/login")) else None
  }

  /** The text of the loading screen the page renders. */
  function ScreenText(isLoading: bool, isAuthenticated: bool): string {
    "Carregando..."
  }

  /** No navigation while loading; afterwards signed-in users go to /dashboard
      and everyone else to /login. */
  lemma NavigationRule(isLoading: bool, isAuthenticated: bool)
    ensures Navigation(isLoading, isAuthenticated).None? <==> isLoading
    ensures !isLoading && isAuthenticated ==> Navigation(isLoading, isAuthenticated) == Some("/dashboard")
    ensures !isLoading && !isAuthenticated ==> Navigation(isLoading, isAuthenticated) == Some("/login")
  {
  }

  /** The page renders the same loading screen in every state. */
  lemma ScreenIndependentOfState(l1: bool, a1: bool, l2: bool, a2: bool)
    ensures ScreenText(l1, a1) == ScreenText(l2, a2) == "Carregando..."
  {
  }
}
