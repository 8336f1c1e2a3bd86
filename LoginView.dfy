/** The landing page's sign-in dialog (components/LoginView.tsx): the
    email/password form, its errors and the Google sign-in button. */
module LoginView {
  import opened Util
  import opened Api

  datatype AuthStep = Landing | SignIn | SignUp

  /** Which callback a submitted form goes to. */
  datatype SubmitKind = SignInSubmit | SignUpSubmit

  /** The call onLogin or onSignup receives. */
  datatype AuthRequest = AuthRequest(kind: SubmitKind, email: string, password: string)

  const MissingFields := "Email and password are required"
  const AuthFallback := "Unable to authenticate"
  const GoogleUnconfigured := "Google Sign-In is not configured"
  const GoogleFallback := "Google sign-in failed"

  class LoginForm {
    var authStep: AuthStep
    var email: string
    var password: string
    var isLoading: bool
    var formError: Option<string>
    var googleError: Option<string>

    /** The dialog as closed: empty fields, no errors, the landing step. */
    predicate Closed()
      reads this
    {
      authStep == Landing && email == "" && password == "" && !isLoading && formError.None? && googleError.None?
    }

    constructor()
      ensures Closed()
    {
      authStep := Landing;
      email := "";
      password := "";
      isLoading := false;
      formError := None;
      googleError := None;
    }

    method SetEmail(value: string)
      modifies this
      ensures email == value
      ensures authStep == old(authStep) && password == old(password) && isLoading == old(isLoading)
      ensures formError == old(formError) && googleError == old(googleError)
    {
      email := value;
    }

    method SetPassword(value: string)
      modifies this
      ensures password == value
      ensures authStep == old(authStep) && email == old(email) && isLoading == old(isLoading)
      ensures formError == old(formError) && googleError == old(googleError)
    {
      password := value;
    }

    /** resetState: fields and errors cleared, loading off, step kept. */
    method ResetState()
      modifies this
      ensures email == "" && password == "" && formError.None? && googleError.None? && !isLoading
      ensures authStep == old(authStep)
    {
      email := "";
      password := "";
      formError := None;
      googleError := None;
      isLoading := false;
    }

    /** closeModal. */
    method CloseModal()
      modifies this
      ensures Closed()
    {
      ResetState();
      authStep := Landing;
    }

    /** The "Sign in" and "Create account" links: reset, then open. */
    method Open(step: AuthStep)
      requires step != Landing
      modifies this
      ensures authStep == step
      ensures email == "" && password == "" && formError.None? && googleError.None? && !isLoading
    {
      ResetState();
      authStep := step;
    }

    /** handleAuthSubmit up to its await. The buttons are disabled while
        loading, so a click then does nothing. A missing field only sets the
        form error; otherwise loading starts and the callback receives the
        credentials. */
    method BeginSubmitAuth(kind: SubmitKind) returns (sent: Option<AuthRequest>)
      modifies this
      ensures old(isLoading) ==>
        sent.None? && isLoading && formError == old(formError)
      ensures !old(isLoading) && (old(email) == "" || old(password) == "") ==>
        sent.None? && formError == Some(MissingFields) && !isLoading
      ensures !old(isLoading) && old(email) != "" && old(password) != "" ==>
        sent == Some(AuthRequest(kind, old(email), old(password))) && isLoading && formError.None?
      ensures authStep == old(authStep) && email == old(email) && password == old(password)
      ensures googleError == old(googleError)
    {
      if isLoading {
        return None;
      }
      if email == "" || password == "" {
        formError := Some(MissingFields);
        return None;
      }
      isLoading := true;
      formError := None;
      sent := Some(AuthRequest(kind, email, password));
    }

    /** The rest of handleAuthSubmit once onLogin or onSignup settles:
        success closes the dialog, a thrown error becomes the form error,
        and loading stops either way. */
    method FinishSubmitAuth(outcome: Settled<()>)
      modifies this
      ensures outcome.Fulfilled? ==> Closed()
      ensures outcome.Rejected? ==>
        formError == Some(RejectMessage(outcome.error, AuthFallback)) && !isLoading
        && authStep == old(authStep) && email == old(email) && password == old(password)
        && googleError == old(googleError)
    {
      if outcome.Fulfilled? {
        CloseModal();
      } else {
        formError := Some(RejectMessage(outcome.error, AuthFallback));
      }
      isLoading := false;
    }

    /** handleGoogle up to the Firebase popup, with `configured` the
        configuration test. A click while loading does nothing. */
    method BeginGoogle(configured: bool) returns (started: bool)
      modifies this
      ensures old(isLoading) ==> !started && isLoading && googleError == old(googleError)
      ensures !old(isLoading) && !configured ==>
        !started && googleError == Some(GoogleUnconfigured) && !isLoading
      ensures !old(isLoading) && configured ==> started && isLoading && googleError.None?
      ensures authStep == old(authStep) && email == old(email) && password == old(password)
      ensures formError == old(formError)
    {
      if isLoading {
        return false;
      }
      if !configured {
        googleError := Some(GoogleUnconfigured);
        return false;
      }
      isLoading := true;
      googleError := None;
      started := true;
    }

    /** The popup settles: its error ends the attempt, its token goes on
        to onGoogleLogin while loading continues. */
    method GooglePopupSettled(signIn: Settled<string>) returns (sentToken: Option<string>)
      modifies this
      ensures signIn.Rejected? ==>
        sentToken.None? && googleError == Some(RejectMessage(signIn.error, GoogleFallback)) && !isLoading
      ensures signIn.Fulfilled? ==>
        sentToken == Some(signIn.payload) && googleError == old(googleError) && isLoading == old(isLoading)
      ensures authStep == old(authStep) && email == old(email) && password == old(password)
      ensures formError == old(formError)
    {
      if signIn.Rejected? {
        googleError := Some(RejectMessage(signIn.error, GoogleFallback));
        isLoading := false;
        return None;
      }
      sentToken := Some(signIn.payload);
    }

    /** onGoogleLogin settles: success closes the dialog, an error becomes
        the Google error, and loading stops either way. */
    method FinishGoogle(outcome: Settled<()>)
      modifies this
      ensures outcome.Fulfilled? ==> Closed()
      ensures outcome.Rejected? ==>
        googleError == Some(RejectMessage(outcome.error, GoogleFallback)) && !isLoading
        && authStep == old(authStep) && email == old(email) && password == old(password)
        && formError == old(formError)
    {
      if outcome.Fulfilled? {
        CloseModal();
      } else {
        googleError := Some(RejectMessage(outcome.error, GoogleFallback));
      }
      isLoading := false;
    }
  }

  /** While a sign-in is in flight a second submit sends nothing: the
      first click sends the credentials, and a second click before the
      callback settles is refused. */
  method SecondSubmitRefused(email: string, password: string, kind: SubmitKind)
    returns (first: Option<AuthRequest>, second: Option<AuthRequest>)
    requires email != "" && password != ""
    ensures first == Some(AuthRequest(kind, email, password))
    ensures second.None?
  {
    var form := new LoginForm();
    form.SetEmail(email);
    form.SetPassword(password);
    first := form.BeginSubmitAuth(kind);
    second := form.BeginSubmitAuth(kind);
  }
}
