// The login view model (ViewModels/AuthViewModel.swift): one provider
// sign-in whose success or failure is written into `isAuthenticated` and
// `errorMessage`.

module Auth {
  import opened Models

  /** The provider's "next step" after a sign-in attempt. */
  datatype NextStep =
    | ConfirmSignUp
    | ConfirmSignInWithSMSMFACode
    | ConfirmSignInWithNewPassword
    | ConfirmSignInWithCustomChallenge
    | ResetPasswordStep
    | Done

  datatype SignInResult = SignInResult(isSignedIn: bool, nextStep: NextStep)

  /** The two published fields of the view model. */
  datatype LoginFields = LoginFields(isAuthenticated: bool, errorMessage: Option<string>)

  const LoginFailedPrefix: string := "Login failed: "

  /** The message shown for a failed sign-in with the given error description. */
  function LoginFailureMessage(description: string): (m: string)
    ensures |m| == |LoginFailedPrefix| + |description|
    ensures m[..|LoginFailedPrefix|] == LoginFailedPrefix
    ensures m[|LoginFailedPrefix|..] == description
  {
    LoginFailedPrefix + description
  }

  /** The fields after `login`: success copies the result's signed-in flag,
      failure sets the message; each leaves the other field alone. */
  function AfterLogin(f: LoginFields, outcome: Fetched<SignInResult>): LoginFields {
    match outcome
    case Ok(result) => f.(isAuthenticated := result.isSignedIn)
    case Failed(description) => f.(errorMessage := Some(LoginFailureMessage(description)))
  }

  /** Failure messages determine the description they were built from. */
  lemma LoginFailureMessageInjective(d1: string, d2: string)
    requires LoginFailureMessage(d1) == LoginFailureMessage(d2)
    ensures d1 == d2
  {
    assert d1 == LoginFailureMessage(d1)[|LoginFailedPrefix|..];
  }

  lemma LoginSuccess(f: LoginFields, result: SignInResult)
    ensures AfterLogin(f, Ok(result)).isAuthenticated == result.isSignedIn
    ensures AfterLogin(f, Ok(result)).errorMessage == f.errorMessage
  {
  }

  lemma LoginFailure(f: LoginFields, description: string)
    ensures AfterLogin(f, Failed(description)).isAuthenticated == f.isAuthenticated
    ensures AfterLogin(f, Failed(description)).errorMessage == Some(LoginFailedPrefix + description)
  {
  }

  /** The next step the provider reports has no effect on the outcome. */
  lemma LoginIgnoresNextStep(f: LoginFields, signedIn: bool, a: NextStep, b: NextStep)
    ensures AfterLogin(f, Ok(SignInResult(signedIn, a))) == AfterLogin(f, Ok(SignInResult(signedIn, b)))
  {
  }

  class AuthViewModel {
    var isAuthenticated: bool
    var errorMessage: Option<string>

    function Fields(): LoginFields
      reads this
    {
      LoginFields(isAuthenticated, errorMessage)
    }

    constructor ()
      ensures !isAuthenticated && errorMessage == None
    {
      isAuthenticated := false;
      errorMessage := None;
    }

    /** `login`; `outcome` is what the provider's sign-in returned or threw.
        The credentials only go to the provider. Nothing but this view model
        is written. */
    method Login(username: string, password: string, outcome: Fetched<SignInResult>)
      modifies this
      ensures Fields() == AfterLogin(old(Fields()), outcome)
    {
      match outcome {
        case Ok(result) =>
          isAuthenticated := result.isSignedIn;
        case Failed(description) =>
          errorMessage := Some("Login failed: " + description);
      }
    }
  }
}
