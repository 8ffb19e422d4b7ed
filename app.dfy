/** The root controller: it caches the signed-in user and a recovery flag from
    the auth service's state change events and picks one of three screens. */
module App {
  import opened Wrappers
  import opened AuthSession
  import Dashboard

  /** The event name that the auth service sends when a password recovery link is opened. */
  const PasswordRecovery: string := "PASSWORD_RECOVERY"

  /** The controller's two state fields, `user` and `resetPassword`. */
  datatype RootState = RootState(user: Option<User>, resetPassword: bool)

  const InitialRoot := RootState(None, false)

  /** The auth state change callback: a recovery event turns on recovery mode and
      keeps the user; any other event takes the session's user (none without a
      session) and leaves recovery mode. */
  function AfterAuthEvent(s: RootState, event: string, session: Option<Session>): RootState
  {
    if event == PasswordRecovery then s.(resetPassword := true)
    else s.(user := if session.Some? then Some(session.value.user) else None, resetPassword := false)
  }

  /** `checkUser`: the initial lookup stores the user it found and nothing else. */
  function AfterCheckUser(s: RootState, found: Option<User>): RootState
  {
    s.(user := found)
  }

  datatype Screen = RecoveryScreen | LoginScreen | DashboardScreen(user: User)

  /** What the controller renders. */
  function ScreenOf(s: RootState): Screen
  {
    if s.resetPassword then RecoveryScreen
    else if s.user.None? then LoginScreen
    else DashboardScreen(s.user.value)
  }

  lemma InitialShowsLogin()
    ensures InitialRoot.user.None? && !InitialRoot.resetPassword
    ensures ScreenOf(InitialRoot) == LoginScreen
  {
  }

  /** A recovery event shows the recovery screen whatever came before, and keeps the user. */
  lemma RecoveryEventShowsRecovery(s: RootState, session: Option<Session>)
    ensures AfterAuthEvent(s, PasswordRecovery, session).user == s.user
    ensures ScreenOf(AfterAuthEvent(s, PasswordRecovery, session)) == RecoveryScreen
  {
  }

  /** Any other event follows the session and leaves recovery mode. */
  lemma OtherEventFollowsSession(s: RootState, event: string, session: Option<Session>)
    requires event != PasswordRecovery
    ensures var r := AfterAuthEvent(s, event, session);
      && !r.resetPassword
      && (session.None? ==> r.user.None? && ScreenOf(r) == LoginScreen)
      && (session.Some? ==> r.user == Some(session.value.user) && ScreenOf(r) == DashboardScreen(session.value.user))
  {
  }

  /** The initial lookup never touches recovery mode, so it cannot hide the recovery screen. */
  lemma CheckUserKeepsRecovery(s: RootState, found: Option<User>)
    ensures AfterCheckUser(s, found).resetPassword == s.resetPassword
    ensures AfterCheckUser(s, found).user == found
    ensures s.resetPassword ==> ScreenOf(AfterCheckUser(s, found)) == RecoveryScreen
  {
  }

  /** Screen precedence: recovery mode wins over everything; otherwise no user
      means the login form and a user means that user's dashboard. */
  lemma ScreenPrecedence(s: RootState)
    ensures ScreenOf(s) == RecoveryScreen <==> s.resetPassword
    ensures ScreenOf(s) == LoginScreen <==> !s.resetPassword && s.user.None?
    ensures ScreenOf(s).DashboardScreen? <==> !s.resetPassword && s.user.Some?
    ensures ScreenOf(s).DashboardScreen? ==> Some(ScreenOf(s).user) == s.user
  {
  }

  /** A sign-in (or sign-up) seen on the login screen: the session change event
      switches to the dashboard of the session's user, whose profile tab shows that
      user's email. */
  lemma SignInReachesProfile(s: RootState, event: string, session: Session)
    requires ScreenOf(s) == LoginScreen && event != PasswordRecovery
    ensures var r := AfterAuthEvent(s, event, Some(session));
      && ScreenOf(r) == DashboardScreen(session.user)
      && Dashboard.Content(Dashboard.Profile, ScreenOf(r).user).email == session.user.email
  {
  }

  /** The controller component. */
  class Root {
    var user: Option<User>
    var resetPassword: bool

    function State(): RootState
      reads this
    {
      RootState(user, resetPassword)
    }

    constructor ()
      ensures State() == InitialRoot
    {
      user := None;
      resetPassword := false;
    }

    /** The callback registered with the auth service's state change subscription. */
    method OnAuthStateChange(event: string, session: Option<Session>)
      modifies this
      ensures State() == AfterAuthEvent(old(State()), event, session)
    {
      if event == PasswordRecovery {
        resetPassword := true;
      } else {
        user := if session.Some? then Some(session.value.user) else None;
        resetPassword := false;
      }
    }

    /** The initial lookup, with the looked-up user as input. */
    method CheckUser(found: Option<User>)
      modifies this
      ensures State() == AfterCheckUser(old(State()), found)
    {
      user := found;
    }

    function CurrentScreen(): Screen
      reads this
    {
      ScreenOf(State())
    }
  }
}
