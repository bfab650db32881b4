// The start-up flow (Initializers/AppInitializer.swift): the choice between
// the splash path and the quick path, the `isInitializing` and
// `hasLaunchedBefore` bookkeeping, and checkUserState's decision of the
// first screen, which it writes into the session manager.

module Startup {
  import opened Models
  import opened Session

  /** What one run of checkUserState observes from the identity provider: its
      own session fetch, and the session fetch and user lookup that
      SessionManager.getCurrentAuthUser makes when the session is signed in. */
  datatype Probe = Probe(session: Fetched<bool>, managerSession: Fetched<bool>, user: Fetched<AuthUser>)

  /** The outside world during one start-up attempt: whether the Amplify
      configuration succeeds, the first checkUserState, whether the splash
      delay completes, and the checkUserState run again from the catch block. */
  datatype Launch = Launch(awsConfigured: bool, first: Probe, splashDelayCompletes: bool, retry: Probe)

  /** The state checkUserState leaves in the session manager. */
  function AfterCheckUserState(s: AuthState, p: Probe, hasSeenOnboarding: bool): AuthState {
    match p.session
    case Ok(signedIn) =>
      if signedIn then AfterCurrentAuthUser(s, p.managerSession, p.user)
      else InitialState(hasSeenOnboarding)
    case Failed(_) => InitialState(hasSeenOnboarding)
  }

  /** The state the splash path leaves: if configuration throws, only the
      catch block's check runs; if the delay throws after a first check, the
      catch block checks a second time. */
  function AfterSplash(s: AuthState, l: Launch, hasSeenOnboarding: bool): AuthState {
    if !l.awsConfigured then AfterCheckUserState(s, l.retry, hasSeenOnboarding)
    else
      var s1 := AfterCheckUserState(s, l.first, hasSeenOnboarding);
      if l.splashDelayCompletes then s1 else AfterCheckUserState(s1, l.retry, hasSeenOnboarding)
  }

  /** The state the quick path leaves; a configuration failure falls back to
      the splash path, which configures again under `fallback`. */
  function AfterQuick(s: AuthState, l: Launch, fallback: Launch, hasSeenOnboarding: bool): AuthState {
    if l.awsConfigured then AfterCheckUserState(s, l.first, hasSeenOnboarding)
    else AfterSplash(s, fallback, hasSeenOnboarding)
  }

  lemma SignedInSessionDelegates(s: AuthState, p: Probe, h: bool)
    requires p.session == Ok(true)
    ensures AfterCheckUserState(s, p, h) == AfterCurrentAuthUser(s, p.managerSession, p.user)
  {
  }

  lemma NotSignedInFallsBackOnFlag(s: AuthState, p: Probe, h: bool)
    requires p.session == Ok(false)
    ensures AfterCheckUserState(s, p, h) == (if h then Login else Onboarding)
  {
  }

  /** A failing session fetch ends exactly where a signed-out session does. */
  lemma FetchFailureActsAsSignedOut(s: AuthState, p: Probe, h: bool)
    requires p.session.Failed?
    ensures AfterCheckUserState(s, p, h) == AfterCheckUserState(s, p.(session := Ok(false)), h)
  {
  }

  /** Signed in but the user lookup fails: a manager fresh from its
      initializer keeps the state its initializer chose. */
  lemma FreshManagerKeepsInitialStateOnLookupFailure(p: Probe, h: bool)
    requires p.session == Ok(true) && p.user.Failed?
    ensures AfterCheckUserState(InitialState(h), p, h) == InitialState(h)
  {
  }

  /** The screens start-up can lead to from a fresh manager: login,
      onboarding, or the session of a user the provider returned. */
  predicate StartupScreen(s: AuthState, l: Launch) {
    s == Login || s == Onboarding ||
    (l.first.user.Ok? && s == SessionUser(l.first.user.value)) ||
    (l.retry.user.Ok? && s == SessionUser(l.retry.user.value))
  }

  lemma {:induction false} SplashLandsOnStartupScreen(l: Launch, h: bool)
    ensures StartupScreen(AfterSplash(InitialState(h), l, h), l)
  {
    var s0 := InitialState(h);
    CheckKeepsStartupScreen(s0, l.first, h, l);
    CheckKeepsStartupScreen(s0, l.retry, h, l);
    CheckKeepsStartupScreen(AfterCheckUserState(s0, l.first, h), l.retry, h, l);
  }

  lemma CheckKeepsStartupScreen(s: AuthState, p: Probe, h: bool, l: Launch)
    requires StartupScreen(s, l)
    requires p == l.first || p == l.retry
    ensures StartupScreen(AfterCheckUserState(s, p, h), l)
  {
  }

  class AppInitializer {
    var isInitializing: bool
    var hasLaunchedBefore: bool
    const sessionManager: SessionManager
    /** The `hasSeenOnboarding` flag of the local store. */
    const hasSeenOnboarding: bool

    /** `init`: the first launch takes the splash path, later ones the quick
        path (`fallback` is what the splash path meets if the quick one fails). */
    constructor (sessionManager: SessionManager, hasLaunchedBefore: bool, hasSeenOnboarding: bool,
                 launch: Launch, fallback: Launch)
      modifies sessionManager`authState
      ensures this.sessionManager == sessionManager && this.hasSeenOnboarding == hasSeenOnboarding
      ensures !hasLaunchedBefore ==>
        sessionManager.authState == AfterSplash(old(sessionManager.authState), launch, hasSeenOnboarding)
      ensures hasLaunchedBefore ==>
        sessionManager.authState == AfterQuick(old(sessionManager.authState), launch, fallback, hasSeenOnboarding)
      ensures !isInitializing
      ensures this.hasLaunchedBefore
    {
      this.sessionManager := sessionManager;
      this.hasSeenOnboarding := hasSeenOnboarding;
      this.isInitializing := true;
      this.hasLaunchedBefore := hasLaunchedBefore;
      new;
      if hasLaunchedBefore {
        QuickInitialize(launch, fallback);
      } else {
        InitializeWithSplash(launch);
      }
    }

    /** `quickInitialize`. */
    method QuickInitialize(launch: Launch, fallback: Launch)
      modifies this`isInitializing, this`hasLaunchedBefore, sessionManager`authState
      ensures !isInitializing
      ensures launch.awsConfigured ==> hasLaunchedBefore == old(hasLaunchedBefore)
      ensures !launch.awsConfigured ==> hasLaunchedBefore
      ensures sessionManager.authState ==
        AfterQuick(old(sessionManager.authState), launch, fallback, hasSeenOnboarding)
    {
      if launch.awsConfigured {
        CheckUserState(launch.first);
        isInitializing := false;
      } else {
        InitializeWithSplash(fallback);
      }
    }

    /** `initializeWithSplash`: ends initialised and launched whatever throws. */
    method InitializeWithSplash(launch: Launch)
      modifies this`isInitializing, this`hasLaunchedBefore, sessionManager`authState
      ensures !isInitializing && hasLaunchedBefore
      ensures sessionManager.authState == AfterSplash(old(sessionManager.authState), launch, hasSeenOnboarding)
    {
      if launch.awsConfigured {
        CheckUserState(launch.first);
        if launch.splashDelayCompletes {
          isInitializing := false;
          hasLaunchedBefore := true;
          return;
        }
      }
      CheckUserState(launch.retry);
      isInitializing := false;
      hasLaunchedBefore := true;
    }

    /** `checkUserState`. */
    method CheckUserState(p: Probe)
      modifies sessionManager`authState
      ensures sessionManager.authState == AfterCheckUserState(old(sessionManager.authState), p, hasSeenOnboarding)
    {
      if p.session.Ok? {
        if p.session.value {
          sessionManager.GetCurrentAuthUser(p.managerSession, p.user);
        } else if hasSeenOnboarding {
          sessionManager.authState := Login;
        } else {
          sessionManager.authState := Onboarding;
        }
      } else if hasSeenOnboarding {
        sessionManager.authState := Login;
      } else {
        sessionManager.authState := Onboarding;
      }
    }
  }
}
