/**
 * The sign-in page (frontend/src/pages/auth/Login.tsx): e-mail and password
 * or phone one-time-code sign-in, Google sign-in, the redirect after a
 * session exists, the submit button's enabled state, and the rewriting of
 * common authentication errors into friendlier text.
 */
module Login {
  import opened Wrappers
  import opened MenuTypes
  import Strings

  const SignInFallback := "Could not sign in."
  const GoogleFallback := "Could not sign in with Google."
  const EmailNotConfirmedText := "Please verify your email address before logging in. Check your inbox for the confirmation link."
  const InvalidCredentialsText := "Invalid email or password. Please check your credentials and try again."
  const UserNotFoundText := "No account found with this email. Please create an account first."

  /** The error text shown for a sign-in error message: the first rule whose phrase occurs, ignoring case, or the message itself. */
  function ClassifyError(message: string): (r: string)
    ensures Strings.Contains(Strings.Lower(message), "email not confirmed") ==> r == EmailNotConfirmedText
    ensures (!Strings.Contains(Strings.Lower(message), "email not confirmed")
      && (Strings.Contains(Strings.Lower(message), "invalid login credentials")
          || Strings.Contains(Strings.Lower(message), "invalid credentials"))) ==> r == InvalidCredentialsText
    ensures (!Strings.Contains(Strings.Lower(message), "email not confirmed")
      && !Strings.Contains(Strings.Lower(message), "invalid login credentials")
      && !Strings.Contains(Strings.Lower(message), "invalid credentials")
      && Strings.Contains(Strings.Lower(message), "user not found")) ==> r == UserNotFoundText
  {
    var lower := Strings.Lower(message);
    if Strings.Contains(lower, "email not confirmed") then EmailNotConfirmedText
    else if Strings.Contains(lower, "invalid login credentials") || Strings.Contains(lower, "invalid credentials") then InvalidCredentialsText
    else if Strings.Contains(lower, "user not found") then UserNotFoundText
    else message
  }

  /** The message when none of the phrases occurs is shown unchanged; otherwise it is one of the three rewrites. */
  lemma ClassifyPassesThroughOrRewrites(message: string)
    ensures ClassifyError(message) == message || ClassifyError(message) in {EmailNotConfirmedText, InvalidCredentialsText, UserNotFoundText}
    ensures (var lower := Strings.Lower(message);
      !Strings.Contains(lower, "email not confirmed") && !Strings.Contains(lower, "invalid login credentials")
      && !Strings.Contains(lower, "invalid credentials") && !Strings.Contains(lower, "user not found"))
      ==> ClassifyError(message) == message
  {
  }

  /** Two messages that differ only in letter case are rewritten alike whenever a rule applies. */
  lemma ClassifyIgnoresCase(m1: string, m2: string)
    requires Strings.Lower(m1) == Strings.Lower(m2)
    requires ClassifyError(m1) != m1
    ensures ClassifyError(m2) == ClassifyError(m1)
  {
  }

  /** `err.message || "Could not sign in."`, then the rewriting. */
  function SignInErrorText(raw: Option<string>): (r: string)
    ensures r != ""
    ensures !Truthy(raw) ==> r == SignInFallback
    ensures Truthy(raw) ==> r == ClassifyError(raw.value)
  {
    if Truthy(raw) then
      var r := ClassifyError(raw.value);
      assert r == raw.value || r in {EmailNotConfirmedText, InvalidCredentialsText, UserNotFoundText};
      r
    else
      FallbackUnchanged();
      SignInFallback
  }

  /** The fallback message matches none of the phrases, so the rewriting leaves it as it is. */
  lemma FallbackUnchanged()
    ensures ClassifyError(SignInFallback) == SignInFallback
  {
    var lower := Strings.Lower(SignInFallback);
    assert |lower| == 18;
    assert 'e' !in SignInFallback && 'E' !in SignInFallback;
    Strings.LowerMissing(SignInFallback, 'e');
    assert 'e' in "user not found";
    Strings.NotContainsLonger(lower, "email not confirmed");
    Strings.NotContainsLonger(lower, "invalid login credentials");
    Strings.NotContainsLonger(lower, "invalid credentials");
    Strings.NotContainsMissingChar(lower, "user not found", 'e');
  }

  /** `redirectTo || '/dashboard'`. */
  function RedirectTarget(redirectTo: Option<string>): (r: string)
    ensures r != ""
    ensures Truthy(redirectTo) ==> r == redirectTo.value
    ensures !Truthy(redirectTo) ==> r == "/dashboard"
  {
    if Truthy(redirectTo) then redirectTo.value else "/dashboard"
  }

  datatype LoginMethod = EmailLogin | PhoneLogin

  /** What `signInWithPassword` or `signInWithOtp` answered. */
  datatype AuthResponse = WithSession | WithoutSession | AuthError(message: Option<string>)

  /** What starting the Google flow did: leave for the provider, or fail. */
  datatype OAuthStart = Redirecting | OAuthFailed(message: Option<string>)

  datatype LoginToast = LoginToast(title: string, description: string)

  /** The toast a phone sign-in shows once the one-time code is on its way. */
  const OtpSentToast := LoginToast("OTP Sent", "Check your phone for the verification code.")

  /** The toast a failed sign-in shows, with the rewritten message. */
  function FailureToast(text: string): LoginToast {
    LoginToast("Login Failed", text)
  }

  /**
   * The text the catch block of `handleLogin` shows. Computing it in its own
   * method keeps the phrase-matching rules out of the sign-in proof, which
   * only needs the equation.
   */
  method ErrorText(raw: Option<string>) returns (text: string)
    ensures text == SignInErrorText(raw)
  {
    text := SignInErrorText(raw);
  }

  /** The submit button's `disabled`: busy, or the fields of the chosen method are empty. */
  function SubmitDisabled(loading: bool, googleLoading: bool, loginMethod: LoginMethod, email: string, password: string, phone: string): (disabled: bool)
    ensures loading || googleLoading ==> disabled
    ensures loginMethod == EmailLogin && (email == "" || password == "") ==> disabled
    ensures loginMethod == PhoneLogin && phone == "" ==> disabled
  {
    loading || googleLoading || (loginMethod == EmailLogin && (email == "" || password == "")) || (loginMethod == PhoneLogin && phone == "")
  }

  /** The button is enabled exactly when nothing is in progress and the chosen method's fields are filled in. */
  lemma SubmitEnabledIff(loading: bool, googleLoading: bool, loginMethod: LoginMethod, email: string, password: string, phone: string)
    ensures !SubmitDisabled(loading, googleLoading, loginMethod, email, password, phone) <==>
      !loading && !googleLoading && (if loginMethod == EmailLogin then email != "" && password != "" else phone != "")
  {
  }

  class LoginForm {
    var loading: bool
    var googleLoading: bool
    var email: string
    var phone: string
    var password: string
    var loginMethod: LoginMethod
    var error: Option<string>
    var toasts: seq<LoginToast>
    var navigatedTo: Option<string>

    constructor ()
      ensures !loading && !googleLoading && email == "" && phone == "" && password == ""
      ensures loginMethod == EmailLogin && error == None && toasts == [] && navigatedTo == None
    {
      loading := false;
      googleLoading := false;
      email := "";
      phone := "";
      password := "";
      loginMethod := EmailLogin;
      error := None;
      toasts := [];
      navigatedTo := None;
    }

    /** Typing in a field also clears a shown error. */
    method ChangeEmail(value: string)
      modifies this
      ensures email == value && error == None
      ensures password == old(password) && phone == old(phone) && loginMethod == old(loginMethod)
      ensures loading == old(loading) && toasts == old(toasts) && navigatedTo == old(navigatedTo)
    {
      email := value;
      if error.Some? {
        error := None;
      }
    }

    method ChangePassword(value: string)
      modifies this
      ensures password == value && error == None
      ensures email == old(email) && phone == old(phone) && loginMethod == old(loginMethod)
      ensures loading == old(loading) && toasts == old(toasts) && navigatedTo == old(navigatedTo)
    {
      password := value;
      if error.Some? {
        error := None;
      }
    }

    method ChangePhone(value: string)
      modifies this
      ensures phone == value && error == None
      ensures email == old(email) && password == old(password) && loginMethod == old(loginMethod)
      ensures loading == old(loading) && toasts == old(toasts) && navigatedTo == old(navigatedTo)
    {
      phone := value;
      if error.Some? {
        error := None;
      }
    }

    /** The links that switch between e-mail and phone sign-in. */
    method SelectMethod(m: LoginMethod)
      modifies this
      ensures loginMethod == m
      ensures email == old(email) && password == old(password) && phone == old(phone)
      ensures error == old(error) && loading == old(loading) && toasts == old(toasts) && navigatedTo == old(navigatedTo)
    {
      loginMethod := m;
    }

    /** The mount effect: an existing session goes straight to the redirect target. */
    method CheckSession(hasSession: bool, redirectTo: Option<string>)
      modifies this
      ensures navigatedTo == if hasSession then Some(RedirectTarget(redirectTo)) else old(navigatedTo)
      ensures error == old(error) && loading == old(loading) && toasts == old(toasts)
      ensures email == old(email) && password == old(password) && phone == old(phone) && loginMethod == old(loginMethod)
    {
      if hasSession {
        navigatedTo := Some(RedirectTarget(redirectTo));
      }
    }

    /**
     * `handleLogin`: earlier toasts are dismissed; an e-mail sign-in with a
     * session redirects, a phone sign-in without an error announces the code,
     * and an error is rewritten, shown and toasted. An e-mail answer with
     * neither session nor error ends silently. The spinner is off afterwards.
     */
    method Submit(response: AuthResponse, redirectTo: Option<string>)
      modifies this
      ensures !loading
      ensures loginMethod == EmailLogin && response == WithSession ==>
        navigatedTo == Some(RedirectTarget(redirectTo)) && error == None && toasts == []
      ensures loginMethod == PhoneLogin && !response.AuthError? ==>
        error == None && toasts == [OtpSentToast]
        && navigatedTo == old(navigatedTo)
      ensures response.AuthError? ==>
        error == Some(SignInErrorText(response.message))
        && toasts == [FailureToast(SignInErrorText(response.message))]
        && navigatedTo == old(navigatedTo)
      ensures loginMethod == EmailLogin && response == WithoutSession ==>
        error == None && toasts == [] && navigatedTo == old(navigatedTo)
      ensures email == old(email) && password == old(password) && phone == old(phone) && loginMethod == old(loginMethod)
      ensures googleLoading == old(googleLoading)
    {
      loading := true;
      error := None;
      toasts := [];
      if response.AuthError? {
        var text := ErrorText(response.message);
        error := Some(text);
        toasts := [FailureToast(text)];
      } else if loginMethod == EmailLogin {
        if response == WithSession {
          navigatedTo := Some(RedirectTarget(redirectTo));
        }
      } else {
        toasts := [OtpSentToast];
      }
      loading := false;
    }

    /** `handleGoogleLogin`: a failure stops the spinner and shows the message, unrewritten. */
    method GoogleLogin(start: OAuthStart)
      modifies this
      ensures start.Redirecting? ==> googleLoading && error == None && toasts == old(toasts)
      ensures start.OAuthFailed? ==>
        var text := if Truthy(start.message) then start.message.value else GoogleFallback;
        !googleLoading && error == Some(text) && toasts == old(toasts) + [LoginToast("Google Sign-In Failed", text)]
      ensures loading == old(loading) && navigatedTo == old(navigatedTo)
      ensures email == old(email) && password == old(password) && phone == old(phone) && loginMethod == old(loginMethod)
    {
      googleLoading := true;
      error := None;
      if start.OAuthFailed? {
        var text := if start.message.Some? && start.message.value != "" then start.message.value else GoogleFallback;
        googleLoading := false;
        error := Some(text);
        toasts := toasts + [LoginToast("Google Sign-In Failed", text)];
      }
    }
  }
}
