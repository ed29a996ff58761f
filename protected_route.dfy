// The generic protected-route wrapper: spinner, access denied or the children.
module ProtectedRoute {
  datatype View = Spinner | AccessDenied | Children

  function Render(isLoading: bool, isAuthenticated: bool): View {
    if isLoading then Spinner
    else if !isAuthenticated then AccessDenied
    else Children
  }

  /** Each view corresponds to exactly one state of the session: loading shows
      the spinner whoever is signed in, a loaded session without a user the
      denial, and only a loaded, signed-in session the children. */
  lemma ViewsBySession(isLoading: bool, isAuthenticated: bool)
    ensures Render(isLoading, isAuthenticated) == Spinner <==> isLoading
    ensures Render(isLoading, isAuthenticated) == AccessDenied <==> !isLoading && !isAuthenticated
    ensures Render(isLoading, isAuthenticated) == Children <==> !isLoading && isAuthenticated
  {
  }
}
