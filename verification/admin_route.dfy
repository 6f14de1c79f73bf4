/** The guard around the admin pages (`AdminRoute`): a decision over the two
    loading flags, whether a user is signed in, and the role string. */
module AdminRoute {

  import opened Common

  /** What the guard renders. `RedirectTo` is a `<Navigate>`; `fromState` is
      the location it passes in navigation state for sign-in to return to. */
  datatype Outcome =
    | Spinner
    | RedirectTo(path: string, replace: bool, fromState: Option<string>)
    | AccessDenied(homeLink: string)
    | Children

  /** The guard, re-evaluated on every render. `role` is the string the role
      hook produced; only the exact string "admin" is let through. */
  function Guard(loading: bool, roleLoading: bool, signedIn: bool, role: string): (o: Outcome)
    ensures o == Spinner <==> loading || roleLoading
    ensures o.RedirectTo? <==> !loading && !roleLoading && !signedIn
    ensures o.AccessDenied? <==> !loading && !roleLoading && signedIn && role != "admin"
    ensures o == Children <==> !loading && !roleLoading && signedIn && role == "admin"
    ensures o.RedirectTo? ==> o.path == "/login" && o.replace && o.fromState == None
    ensures o.AccessDenied? ==> o.homeLink == "/"
  {
    if loading || roleLoading then Spinner
    else if !signedIn then RedirectTo("/login", true, None)
    else if role != "admin" then AccessDenied("/")
    else Children
  }

  /** The guard leaks nothing while loading: the outcome does not depend on
      the user or the role until both flags have cleared. */
  lemma LoadingHidesEverything(loading: bool, roleLoading: bool,
                               u1: bool, r1: string, u2: bool, r2: string)
    requires loading || roleLoading
    ensures Guard(loading, roleLoading, u1, r1) == Guard(loading, roleLoading, u2, r2)
  {
  }
}
