/**
 * The screen switching of the single-page app (App.tsx): the view shown and
 * whether the user is signed in, changed only by the navigation, sign-in,
 * sign-out and login/register switch handlers. The dashboard is the one
 * protected screen.
 */
module Navigation {
  import opened AppTypes

  /** The two state fields of the app. */
  datatype NavState = NavState(view: AppView, isAuthenticated: bool)

  /** What the handlers are called with. */
  datatype Action = NavigateTo(target: AppView) | AuthSuccess | Logout | SwitchMode(mode: string)

  const Initial := NavState(Landing, false)

  /** The mode names of the auth screen: "LOGIN" shows the login form, anything else the registration form. */
  function ModeView(mode: string): (v: AppView)
    ensures v == Login || v == Register
    ensures v == Login <==> mode == "LOGIN"
  {
    if mode == "LOGIN" then Login else Register
  }

  /** One handler call. */
  function Apply(s: NavState, a: Action): NavState {
    match a
    case NavigateTo(v) => if v == Dashboard && !s.isAuthenticated then s.(view := Login) else s.(view := v)
    case AuthSuccess => NavState(Landing, true)
    case Logout => NavState(Landing, false)
    case SwitchMode(m) => s.(view := ModeView(m))
  }

  /** A run of handler calls, first to last. */
  function Run(s: NavState, actions: seq<Action>): NavState
    decreases |actions|
  {
    if actions == [] then s else Run(Apply(s, actions[0]), actions[1..])
  }

  /** The rule of the app: the dashboard is shown only to a signed-in user. */
  predicate Guarded(s: NavState) {
    s.view == Dashboard ==> s.isAuthenticated
  }

  /**
   * Navigating sends a signed-out user who asks for the dashboard to the
   * login screen and everyone else to the screen asked for; it never changes
   * who is signed in.
   */
  lemma NavigateSpec(s: NavState, v: AppView)
    ensures Apply(s, NavigateTo(v)).isAuthenticated == s.isAuthenticated
    ensures v == Dashboard && !s.isAuthenticated ==> Apply(s, NavigateTo(v)).view == Login
    ensures !(v == Dashboard && !s.isAuthenticated) ==> Apply(s, NavigateTo(v)).view == v
  {
  }

  /** Signing in or out always lands on the home screen; switching modes keeps the sign-in as it is. */
  lemma AuthHandlersSpec(s: NavState, m: string)
    ensures Apply(s, AuthSuccess) == NavState(Landing, true)
    ensures Apply(s, Logout) == NavState(Landing, false)
    ensures Apply(s, SwitchMode(m)).isAuthenticated == s.isAuthenticated
    ensures Apply(s, SwitchMode(m)).view == (if m == "LOGIN" then Login else Register)
  {
  }

  /** The dashboard appears after a call exactly when a signed-in user navigated to it. */
  lemma DashboardOnlyByNavigation(s: NavState, a: Action)
    ensures Apply(s, a).view == Dashboard <==> a == NavigateTo(Dashboard) && s.isAuthenticated
  {
  }

  /** The sign-in state changes only through sign-in and sign-out. */
  lemma AuthOnlyByHandlers(s: NavState, a: Action)
    requires !a.AuthSuccess? && !a.Logout?
    ensures Apply(s, a).isAuthenticated == s.isAuthenticated
  {
  }

  /** Every handler keeps the rule. */
  lemma ApplyGuarded(s: NavState, a: Action)
    requires Guarded(s)
    ensures Guarded(Apply(s, a))
  {
  }

  /** From the initial state, no sequence of handler calls shows the dashboard to a signed-out user. */
  lemma {:induction false} RunGuarded(s: NavState, actions: seq<Action>)
    requires Guarded(s)
    ensures Guarded(Run(s, actions))
    decreases |actions|
  {
    if actions != [] {
      ApplyGuarded(s, actions[0]);
      RunGuarded(Apply(s, actions[0]), actions[1..]);
    }
  }

  /** The app's state and its handlers. */
  class App {
    var view: AppView
    var isAuthenticated: bool

    /** `useState(AppView.LANDING)` and `useState(false)`. */
    constructor ()
      ensures NavState(view, isAuthenticated) == Initial
      ensures Guarded(NavState(view, isAuthenticated))
    {
      view := Landing;
      isAuthenticated := false;
    }

    /** `navigateTo`. */
    method NavigateTo(v: AppView)
      modifies this
      ensures NavState(view, isAuthenticated) == Apply(old(NavState(view, isAuthenticated)), Action.NavigateTo(v))
    {
      if v == Dashboard && !isAuthenticated {
        view := Login;
        return;
      }
      view := v;
    }

    /** `handleAuthSuccess`. */
    method HandleAuthSuccess()
      modifies this
      ensures NavState(view, isAuthenticated) == Apply(old(NavState(view, isAuthenticated)), AuthSuccess)
    {
      isAuthenticated := true;
      view := Landing;
    }

    /** `handleLogout`. */
    method HandleLogout()
      modifies this
      ensures NavState(view, isAuthenticated) == Apply(old(NavState(view, isAuthenticated)), Logout)
    {
      isAuthenticated := false;
      view := Landing;
    }

    /** The `onSwitchMode` callback handed to the auth screen. */
    method SwitchMode(m: string)
      modifies this
      ensures NavState(view, isAuthenticated) == Apply(old(NavState(view, isAuthenticated)), Action.SwitchMode(m))
    {
      view := if m == "LOGIN" then Login else Register;
    }
  }
}
