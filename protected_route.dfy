/** The route guard wrapped around every private page: it shows the loading
    screen, nothing, or the page, from the two session flags, and asks the
    router to go to `/login` when the session is settled and signed out. */
module ProtectedRoute {

  datatype Screen = LoadingScreen | Nothing | Children

  /** The component's render decision. */
  function Render(isLoading: bool, isAuthenticated: bool): (v: Screen)
    ensures v == LoadingScreen <==> isLoading
    ensures v == Nothing <==> !isLoading && !isAuthenticated
    ensures v == Children <==> !isLoading && isAuthenticated
  {
    if isLoading then LoadingScreen
    else if !isAuthenticated then Nothing
    else Children
  }

  /** The effect's condition for `router.push("/login")`. */
  predicate RedirectsToLogin(isLoading: bool, isAuthenticated: bool)
  {
    !isLoading && !isAuthenticated
  }

  /** The redirect fires exactly when the guard renders nothing, and the
      page is shown only to an authenticated, settled session. */
  lemma RedirectExactlyWhenNothingRendered(isLoading: bool, isAuthenticated: bool)
    ensures RedirectsToLogin(isLoading, isAuthenticated) <==> Render(isLoading, isAuthenticated) == Nothing
    ensures RedirectsToLogin(isLoading, isAuthenticated) ==> Render(isLoading, isAuthenticated) != Children
  {
  }
}
