/** The client login form of `app/ui/login-form.tsx`: the `authenticate` handler as
    state transitions over the two React state cells (`errorMessage`, `isPending`),
    and the mapping from that state to the error text and the submit button.
    The `signIn` call is an input outcome; `router.push` is a recorded navigation. */
module LoginForm {
  import opened Wrappers

  const CredentialsSigninError := "CredentialsSignin"
  const InvalidCredentialsMessage := "Invalid credentials."
  const SomethingWentWrongMessage := "Something went wrong."
  /** Where `router.push` goes after a successful sign-in. */
  const SuccessPath := "/dashboard"
  const PendingLabel := "Logging in..."
  const IdleLabel := "Log in"

  /** The submitted form fields by name (a missing field reads as `undefined`). */
  type FormData = map<string, string>

  /** The options passed to `signIn("credentials", { redirect: false, ...credentials })`. */
  datatype SignInRequest = SignInRequest(provider: string, redirect: bool, email: Option<string>, password: Option<string>)

  /** The `error` field of the object `signIn` resolves to. */
  datatype SignInResponse = SignInResponse(error: Option<string>)

  /** How the awaited `signIn` call ends: it resolves to a response or to `undefined`,
      or it throws. */
  datatype SignInOutcome = Resolved(response: Option<SignInResponse>) | Threw

  /** `formData.get(name)?.toString()`. */
  function Field(form: FormData, name: string): (v: Option<string>)
    ensures v.Some? <==> name in form
    ensures v.Some? ==> v.value == form[name]
  {
    if name in form then Some(form[name]) else None
  }

  /** The sign-in request built from the form. */
  function SignInRequestFor(form: FormData): (req: SignInRequest)
    ensures req.provider == "credentials" && !req.redirect
    ensures req.email == Field(form, "email") && req.password == Field(form, "password")
  {
    SignInRequest("credentials", false, Field(form, "email"), Field(form, "password"))
  }

  /** `response?.error` is truthy: a response with a non-empty `error` string. */
  predicate HasError(outcome: SignInOutcome) {
    outcome.Resolved? && outcome.response.Some?
    && outcome.response.value.error.Some? && outcome.response.value.error.value != ""
  }

  /** Sign-in succeeded as far as the form can tell: the call did not throw and there
      is no truthy error (an undefined response and an empty error both count). */
  predicate Succeeded(outcome: SignInOutcome) {
    outcome.Resolved? && !HasError(outcome)
  }

  /** The error message left in state after `authenticate` handles `outcome`. */
  function MessageAfter(outcome: SignInOutcome): (m: Option<string>)
    ensures m == Some(InvalidCredentialsMessage)
            <==> HasError(outcome) && outcome.response.value.error.value == CredentialsSigninError
    ensures m == Some(SomethingWentWrongMessage)
            <==> outcome.Threw? || (HasError(outcome) && outcome.response.value.error.value != CredentialsSigninError)
    ensures m == None <==> Succeeded(outcome)
  {
    match outcome
    case Threw => Some(SomethingWentWrongMessage)
    case Resolved(response) =>
      if HasError(outcome) then
        if response.value.error.value == CredentialsSigninError then Some(InvalidCredentialsMessage)
        else Some(SomethingWentWrongMessage)
      else None
  }

  /** What the form shows: the error text (if any) and the submit button. */
  datatype View = View(errorText: Option<string>, buttonDisabled: bool, buttonLabel: string)

  /** `{errorMessage && <div>{errorMessage}</div>}` and
      `<button disabled={isPending}>{isPending ? "Logging in..." : "Log in"}</button>`. */
  function Render(errorMessage: Option<string>, isPending: bool): (v: View)
    ensures v.errorText.Some? <==> errorMessage.Some? && errorMessage.value != ""
    ensures v.errorText.Some? ==> v.errorText == errorMessage
    ensures v.buttonDisabled <==> isPending
    ensures v.buttonLabel == PendingLabel <==> isPending
    ensures v.buttonLabel == IdleLabel <==> !isPending
  {
    var text := if errorMessage.Some? && errorMessage.value != "" then errorMessage else None;
    View(text, isPending, if isPending then PendingLabel else IdleLabel)
  }

  /** Once `authenticate` has finished the button is enabled and reads "Log in", and an
      error is shown exactly when sign-in did not succeed. */
  lemma ViewAfterAuthenticate(outcome: SignInOutcome)
    ensures var v := Render(MessageAfter(outcome), false);
            !v.buttonDisabled && v.buttonLabel == IdleLabel
            && (v.errorText.Some? <==> !Succeeded(outcome))
  {
  }

  /** The form's state: the two React state cells plus what the handler did to the
      outside world (the sign-in requests sent and the router pushes, in order). */
  class LoginFormState {
    var errorMessage: Option<string>
    var isPending: bool
    var signInRequests: seq<SignInRequest>
    var navigations: seq<string>

    /** `useState(undefined)` and `useState(false)`. */
    constructor ()
      ensures errorMessage == None && !isPending
      ensures signInRequests == [] && navigations == []
    {
      errorMessage := None;
      isPending := false;
      signInRequests := [];
      navigations := [];
    }

    function CurrentView(): View
      reads this
    {
      Render(errorMessage, isPending)
    }

    /** `authenticate` up to the awaited `signIn`: mark pending, then send the request.
        There is no guard against a call while already pending. */
    method BeginAuthenticate(form: FormData) returns (req: SignInRequest)
      modifies this
      ensures req == SignInRequestFor(form)
      ensures isPending && errorMessage == old(errorMessage)
      ensures signInRequests == old(signInRequests) + [req] && navigations == old(navigations)
      ensures CurrentView().buttonDisabled && CurrentView().buttonLabel == PendingLabel
    {
      isPending := true;
      var email := Field(form, "email");
      var password := Field(form, "password");
      req := SignInRequest("credentials", false, email, password);
      signInRequests := signInRequests + [req];
    }

    /** `authenticate` after `signIn` settles: the response branch or the `catch`,
        then the `finally`. */
    method FinishAuthenticate(outcome: SignInOutcome)
      modifies this
      ensures errorMessage == MessageAfter(outcome)
      ensures !isPending
      ensures navigations == old(navigations) + (if Succeeded(outcome) then [SuccessPath] else [])
      ensures signInRequests == old(signInRequests)
    {
      match outcome {
        case Threw =>
          errorMessage := Some(SomethingWentWrongMessage);
        case Resolved(response) =>
          if response.Some? && response.value.error.Some? && response.value.error.value != "" {
            if response.value.error.value == CredentialsSigninError {
              errorMessage := Some(InvalidCredentialsMessage);
            } else {
              errorMessage := Some(SomethingWentWrongMessage);
            }
          } else {
            errorMessage := None;
            navigations := navigations + [SuccessPath];
          }
      }
      isPending := false;
    }

    /** The whole `authenticate(formData)` when `signIn` ends with `outcome`. */
    method Authenticate(form: FormData, outcome: SignInOutcome) returns (req: SignInRequest)
      modifies this
      ensures req == SignInRequestFor(form)
      ensures signInRequests == old(signInRequests) + [req]
      ensures errorMessage == MessageAfter(outcome) && !isPending
      ensures navigations == old(navigations) + (if Succeeded(outcome) then [SuccessPath] else [])
      ensures !CurrentView().buttonDisabled
      ensures CurrentView().errorText.Some? <==> !Succeeded(outcome)
    {
      req := BeginAuthenticate(form);
      FinishAuthenticate(outcome);
      ViewAfterAuthenticate(outcome);
    }
  }

  /** A failed attempt followed by a successful one on a fresh form: the error is
      cleared, the only navigation is the one to the dashboard, and both requests
      were sent in order. */
  method RetryAfterFailure(form1: FormData, form2: FormData, err: string)
    returns (navigations: seq<string>, errorMessage: Option<string>, requests: seq<SignInRequest>)
    requires err != ""
    ensures navigations == [SuccessPath]
    ensures errorMessage == None
    ensures requests == [SignInRequestFor(form1), SignInRequestFor(form2)]
  {
    var f := new LoginFormState();
    var r1 := f.Authenticate(form1, Resolved(Some(SignInResponse(Some(err)))));
    assert f.navigations == [] && f.CurrentView().errorText.Some?;
    var r2 := f.Authenticate(form2, Resolved(None));
    navigations, errorMessage, requests := f.navigations, f.errorMessage, f.signInRequests;
  }
}
