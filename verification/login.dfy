/** The sign-in page (`Login`): where it returns to, the two field rules of
    its form, and what a sign-in attempt does. */
module Login {

  import opened Common
  import AdminRoute
  import opened JsStrings

  /** `location.state` as react-router delivers it: absent, or an object whose
      `from` location may be absent and may lack a `pathname`. */
  datatype FromLocation = FromLocation(pathname: Option<string>)
  datatype LocationState = LocationState(from: Option<FromLocation>)

  /** `location.state?.from?.pathname || "/"`. */
  function ReturnTarget(state: Option<LocationState>): (t: string)
    ensures t != ""
    ensures t == "/" || (state.Some? && state.value.from.Some? &&
                         state.value.from.value.pathname == Some(t))
    ensures state.Some? && state.value.from.Some? && Truthy(state.value.from.value.pathname)
            ==> t == state.value.from.value.pathname.value
  {
    if state.Some? && state.value.from.Some? then OrElse(state.value.from.value.pathname, "/")
    else "/"
  }

  /** The admin guard's redirect carries no `from`, so a guest sent to sign-in
      from an admin page lands on "/" afterwards, not back on that page. */
  lemma AdminRedirectReturnsHome(role: string)
    ensures AdminRoute.Guard(false, false, false, role).fromState == None
    ensures ReturnTarget(None) == "/"
  {
  }

  /** The email field's rule: `required`. react-hook-form treats only the
      empty string as missing. */
  function EmailError(email: string): (e: Option<string>)
    ensures e.None? <==> email != ""
    ensures e.Some? ==> e.value == "Email is required"
  {
    if email == "" then Some("Email is required") else None
  }

  /** The password field's rules: `required`, then `minLength: 6`, which
      counts the UTF-16 code units of the value. */
  function PasswordError(password: string): (e: Option<string>)
    ensures e.None? <==> Utf16Length(password) >= 6
    ensures password == "" ==> e == Some("Password is required")
    ensures password != "" && Utf16Length(password) < 6 ==> e == Some("Minimum 6 characters")
    ensures |password| >= 6 ==> e.None?
  {
    if password == "" then Some("Password is required")
    else if Utf16Length(password) < 6 then Some("Minimum 6 characters")
    else None
  }

  /** Three characters outside the Basic Multilingual Plane are six code
      units, so they meet the minimum length. */
  lemma AstralPasswordAccepted()
    ensures PasswordError("\U{1F600}\U{1F600}\U{1F600}") == None
  {
    var p := "\U{1F600}\U{1F600}\U{1F600}";
    assert p[1..][1..][1..] == [];
  }

  /** `handleSubmit` calls the handler only when no field has an error. */
  function FormAccepted(email: string, password: string): (ok: bool)
    ensures ok <==> email != "" && Utf16Length(password) >= 6
  {
    EmailError(email).None? && PasswordError(password).None?
  }

  /** `handleLogin`: await the sign-in, then toast and navigate to the return
      target replacing the history entry; a rejected sign-in is caught, only
      toasted, and leaves the page where it is. */
  method HandleLogin(from: string, signInSucceeded: bool) returns (toast: Toast, nav: Option<Nav>)
    ensures nav.Some? <==> signInSucceeded
    ensures signInSucceeded ==> nav == Some(Navigate(from, true)) && toast == SuccessToast("Login successful")
    ensures !signInSucceeded ==> toast == ErrorToast("Login failed")
  {
    if signInSucceeded {
      toast := SuccessToast("Login successful");
      nav := Some(Navigate(from, true));
    } else {
      toast := ErrorToast("Login failed");
      nav := None;
    }
  }
}
