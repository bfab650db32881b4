// The navigation/authentication state of the client
// (Managers/SessionManager.swift): the AuthState tagged union, its
// hand-written equality, and the SessionManager object whose published
// `authState` the navigation intents and provider callbacks overwrite.

module Session {
  import opened Models

  datatype AuthState =
    | Onboarding
    | SignUp
    | Login
    | ForgotPassword
    | ResetPassword
    | ConfirmCode(username: string)
    | ConfirmMFACode
    | UserDashboard(user: AuthUser)
    | SessionUser(user: AuthUser)
    | SessionChurch(user: AuthUser)

  /** The states that carry no payload. */
  predicate PayloadFree(s: AuthState) {
    s.Onboarding? || s.SignUp? || s.Login? || s.ForgotPassword? || s.ResetPassword? || s.ConfirmMFACode?
  }

  /** Which case of the union a state is, as a number (for "different cases"). */
  function CaseOf(s: AuthState): nat {
    match s
    case Onboarding => 0
    case SignUp => 1
    case Login => 2
    case ForgotPassword => 3
    case ResetPassword => 4
    case ConfirmCode(_) => 5
    case ConfirmMFACode => 6
    case UserDashboard(_) => 7
    case SessionUser(_) => 8
    case SessionChurch(_) => 9
  }

  /** The `==` the source defines on AuthState: case by case, comparing the
      user name of ConfirmCode and only the `userId` of the three user states. */
  predicate Same(a: AuthState, b: AuthState) {
    match (a, b)
    case (Onboarding, Onboarding) => true
    case (SignUp, SignUp) => true
    case (Login, Login) => true
    case (ForgotPassword, ForgotPassword) => true
    case (ResetPassword, ResetPassword) => true
    case (ConfirmMFACode, ConfirmMFACode) => true
    case (ConfirmCode(x), ConfirmCode(y)) => x == y
    case (UserDashboard(u), UserDashboard(v)) => u.userId == v.userId
    case (SessionUser(u), SessionUser(v)) => u.userId == v.userId
    case (SessionChurch(u), SessionChurch(v)) => u.userId == v.userId
    case _ => false
  }

  /** An independent reading of that equality: the case together with the one
      string each case compares. */
  function ComparedKey(s: AuthState): (nat, string) {
    match s
    case ConfirmCode(name) => (CaseOf(s), name)
    case UserDashboard(u) => (CaseOf(s), u.userId)
    case SessionUser(u) => (CaseOf(s), u.userId)
    case SessionChurch(u) => (CaseOf(s), u.userId)
    case _ => (CaseOf(s), "")
  }

  lemma SameIsComparedKeyEquality(a: AuthState, b: AuthState)
    ensures Same(a, b) <==> ComparedKey(a) == ComparedKey(b)
  {
  }

  lemma PayloadFreeEqualsOnlyItself(a: AuthState, b: AuthState)
    requires PayloadFree(a)
    ensures Same(a, b) <==> a == b
  {
  }

  lemma DifferentCasesNeverSame(a: AuthState, b: AuthState)
    requires CaseOf(a) != CaseOf(b)
    ensures !Same(a, b)
  {
  }

  lemma ConfirmCodeSameIff(x: string, y: string)
    ensures Same(ConfirmCode(x), ConfirmCode(y)) <==> x == y
  {
  }

  /** The three user-carrying states compare the user id and nothing else. */
  lemma UserStatesCompareOnlyUserId(u: AuthUser, v: AuthUser)
    ensures Same(UserDashboard(u), UserDashboard(v)) <==> u.userId == v.userId
    ensures Same(SessionUser(u), SessionUser(v)) <==> u.userId == v.userId
    ensures Same(SessionChurch(u), SessionChurch(v)) <==> u.userId == v.userId
  {
  }

  /** Two different user handles with the same id are "equal" states. */
  lemma SameIgnoresUsername()
    ensures var u, v := AuthUser("42", "ann"), AuthUser("42", "bob");
            u != v && Same(SessionUser(u), SessionUser(v))
  {
  }

  lemma SessionUserDiffersFromOtherUserStates(u: AuthUser)
    ensures !Same(SessionUser(u), UserDashboard(u))
    ensures !Same(SessionUser(u), SessionChurch(u))
  {
  }

  lemma SameIsEquivalence(a: AuthState, b: AuthState, c: AuthState)
    ensures Same(a, a)
    ensures Same(a, b) ==> Same(b, a)
    ensures Same(a, b) && Same(b, c) ==> Same(a, c)
  {
  }

  /** The state SessionManager.init picks from the onboarding flag. */
  function InitialState(hasSeenOnboarding: bool): (s: AuthState)
    ensures s == Login <==> hasSeenOnboarding
    ensures s == Onboarding <==> !hasSeenOnboarding
  {
    if hasSeenOnboarding then Login else Onboarding
  }

  /** State after `signOut`: the provider's sign-out either returns or throws. */
  function AfterSignOut(s: AuthState, signOut: Fetched<()>): AuthState {
    if signOut.Ok? then Login else s
  }

  /** State after `getCurrentAuthUser`, given the outcome of the session fetch
      and of the user lookup (made only when the session is signed in). */
  function AfterCurrentAuthUser(s: AuthState, session: Fetched<bool>, user: Fetched<AuthUser>): AuthState {
    match session
    case Failed(_) => s
    case Ok(signedIn) =>
      if !signedIn then s
      else match user
        case Failed(_) => s
        case Ok(u) => SessionUser(u)
  }

  lemma SignOutOutcome(s: AuthState, signOut: Fetched<()>)
    ensures signOut.Ok? ==> AfterSignOut(s, signOut) == Login
    ensures signOut.Failed? ==> AfterSignOut(s, signOut) == s
  {
  }

  /** getCurrentAuthUser changes the state exactly when the session is signed in
      and the lookup returns a user, and then to that user's session. */
  lemma CurrentAuthUserMovesOnlyOnSignedInLookup(s: AuthState, session: Fetched<bool>, user: Fetched<AuthUser>)
    ensures session == Ok(true) && user.Ok? ==> AfterCurrentAuthUser(s, session, user) == SessionUser(user.value)
    ensures !(session == Ok(true) && user.Ok?) ==> AfterCurrentAuthUser(s, session, user) == s
  {
  }

  class SessionManager {
    var authState: AuthState
    var connectedInUser: Option<User>
    var currentEmail: string

    constructor (hasSeenOnboarding: bool)
      ensures authState == InitialState(hasSeenOnboarding)
      ensures connectedInUser == None && currentEmail == ""
    {
      connectedInUser := None;
      currentEmail := "";
      if hasSeenOnboarding {
        authState := Login;
      } else {
        authState := Onboarding;
      }
    }

    method ShowLogin()
      modifies this`authState
      ensures authState == Login
    {
      authState := Login;
    }

    method ShowForgotPassword()
      modifies this`authState
      ensures authState == ForgotPassword
    {
      authState := ForgotPassword;
    }

    method ShowResetPassword()
      modifies this`authState
      ensures authState == ResetPassword
    {
      authState := ResetPassword;
    }

    method ShowDashboard(user: AuthUser)
      modifies this`authState
      ensures authState == SessionUser(user)
    {
      authState := SessionUser(user);
    }

    /** `signOut`; `signOut` is what the provider's sign-out call did. */
    method SignOut(signOut: Fetched<()>)
      modifies this`authState
      ensures authState == AfterSignOut(old(authState), signOut)
    {
      if signOut.Ok? {
        authState := Login;
      }
    }

    /** `getCurrentAuthUser`; `session` and `user` are the outcomes of the
        provider's session fetch and current-user lookup. */
    method GetCurrentAuthUser(session: Fetched<bool>, user: Fetched<AuthUser>)
      modifies this`authState
      ensures authState == AfterCurrentAuthUser(old(authState), session, user)
    {
      if session.Ok? && session.value {
        if user.Ok? {
          authState := SessionUser(user.value);
        }
      }
    }
  }
}
