/** The login page of the router demo: where to resume after login, the
    submit and demo-login handlers with their error and loading state, and
    the subtitle naming the protected path. */
module LoginPage {
  import opened Text
  import opened AuthContext
  import ProtectedRoute

  /** `location.state?.from || '/'`: the remembered path, or home when none
      (or an empty one) was remembered. */
  function ResumeTarget(stateFrom: Option<string>): (r: string)
    ensures r != ""
    ensures stateFrom.Some? && stateFrom.value != "" ==> r == stateFrom.value
    ensures stateFrom.None? || stateFrom.value == "" ==> r == "/"
  {
    if stateFrom.Some? && stateFrom.value != "" then stateFrom.value else "/"
  }

  /** The effect that runs while the page is shown: an authenticated session
      navigates to the resume target, replacing the login entry. */
  function RedirectWhenAuthenticated(isAuthenticated: bool, from: string): (n: Option<ProtectedRoute.Navigate>)
    ensures n.Some? <==> isAuthenticated
    ensures n.Some? ==> n.value == ProtectedRoute.Navigate(from, None, true)
  {
    if isAuthenticated then Some(ProtectedRoute.Navigate(from, None, true)) else None
  }

  const FallbackError := "Login failed. Please try again."

  /** `err.message || 'Login failed. Please try again.'`. */
  function FailureText(message: string): (r: string)
    ensures r != ""
    ensures message != "" ==> r == message
    ensures message == "" ==> r == FallbackError
  {
    if message != "" then message else FallbackError
  }

  /** The demo account for a button: the admin account for type 'admin', the
      regular one for anything else. */
  function DemoEmail(kind: string): (email: string)
    ensures kind == "admin" ==> email == "admin@example.com"
    ensures kind != "admin" ==> email == "user@example.com"
  {
    if kind == "admin" then "admin@example.com" else "user@example.com"
  }

  const DemoPassword := "password"

  /** The subtitle above the form. */
  datatype Subtitle = NeedsLoginFor(path: string) | Generic

  function SubtitleFor(from: string): (t: Subtitle)
    ensures t.NeedsLoginFor? <==> from != "/"
    ensures t.NeedsLoginFor? ==> t.path == from
  {
    if from != "/" then NeedsLoginFor(from) else Generic
  }

  /** The form's state. */
  class LoginForm {
    var email: string
    var password: string
    var error: string
    var isLoading: bool

    constructor ()
      ensures email == "" && password == "" && error == "" && !isLoading
    {
      email, password, error, isLoading := "", "", "", false;
    }

    method SetEmail(value: string)
      modifies this
      ensures email == value && password == old(password) && error == old(error) && isLoading == old(isLoading)
    {
      email := value;
    }

    method SetPassword(value: string)
      modifies this
      ensures password == value && email == old(email) && error == old(error) && isLoading == old(isLoading)
    {
      password := value;
    }

    /** `handleSubmit`: clear the error, set loading, log in with the typed
        credentials; a failure shows its message (or the fallback text);
        loading ends either way. */
    method HandleSubmit(auth: AuthProvider, idTime: int, tokenTime: int) returns (r: LoginResult)
      modifies this, auth
      ensures email == old(email) && password == old(password) && !isLoading
      ensures r.LoggedIn? <==> email != "" && password != ""
      ensures r.LoggedIn? ==> error == "" && auth.user == Some(MockUser(email, idTime))
      ensures r.LoggedIn? ==>
                auth.storage == old(auth.storage)[UserKey := Serialized(MockUser(email, idTime))][TokenKey := Raw(MockToken(tokenTime))]
      ensures r.Rejected? ==> error == FailureText(r.message) && error == "Invalid credentials"
      ensures r.Rejected? ==> auth.user == old(auth.user) && auth.storage == old(auth.storage)
      ensures auth.loading == old(auth.loading)
    {
      error := "";
      isLoading := true;
      r := auth.Login(email, password, idTime, tokenTime);
      if r.Rejected? {
        error := FailureText(r.message);
      }
      isLoading := false;
    }

    /** `handleDemoLogin(type)`: fill in a demo account and log in with it
        (the 100 ms timer left out). Demo credentials are never empty, so the
        login succeeds and the error is left as it was. */
    method HandleDemoLogin(kind: string, auth: AuthProvider, idTime: int, tokenTime: int) returns (r: LoginResult)
      modifies this, auth
      ensures email == DemoEmail(kind) && password == DemoPassword
      ensures r.LoggedIn? && auth.user == Some(MockUser(DemoEmail(kind), idTime))
      ensures auth.storage == old(auth.storage)[UserKey := Serialized(MockUser(DemoEmail(kind), idTime))][TokenKey := Raw(MockToken(tokenTime))]
      ensures auth.loading == old(auth.loading)
      ensures error == old(error) && isLoading == old(isLoading)
    {
      email := DemoEmail(kind);
      password := DemoPassword;
      r := auth.Login(DemoEmail(kind), DemoPassword, idTime, tokenTime);
      if r.Rejected? {
        // the `catch` that would show `err.message` cannot be reached
        assert false;
      }
    }
  }

  /** A logged-out visit to "/dashboard" is redirected to the login page with
      `from` = "/dashboard"; logging in there then navigates to "/dashboard". */
  method ResumeAfterLoginScenario(idTime: int, tokenTime: int)
  {
    var auth := new AuthProvider(map[]);
    auth.RestoreSession();
    var outcome := ProtectedRoute.GuardSession(auth.user, auth.loading, false, "/dashboard");
    assert outcome == ProtectedRoute.RedirectToLogin("/dashboard");
    var nav := ProtectedRoute.NavigationOf(outcome);
    var from := ResumeTarget(nav.value.from);
    assert from == "/dashboard";
    var form := new LoginForm();
    form.SetEmail("user@example.com");
    form.SetPassword("password");
    var r := form.HandleSubmit(auth, idTime, tokenTime);
    assert r.LoggedIn?;
    assert RedirectWhenAuthenticated(IsAuthenticated(auth.user), from) == Some(ProtectedRoute.Navigate("/dashboard", None, true));
  }
}
