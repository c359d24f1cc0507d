/**
 * The application shell (App.tsx): the theme the preference and the hour give, and
 * the screen the session and the view select, with the handlers that move between
 * them.
 */
module AppShell {
  import opened Wrappers
  import opened Records
  import Backend

  datatype ThemePreference = Light | Dark | Auto

  /** `calculateTheme`: dark by preference, light by preference, or by the hour (0 to 23) on 'auto'. */
  function IsDark(preference: ThemePreference, hour: nat): (dark: bool)
    requires hour < 24
    ensures preference != Auto ==> (dark <==> preference == Dark)
    ensures preference == Auto ==> (dark <==> !(6 <= hour < 18))
  {
    match preference
    case Dark => true
    case Light => false
    case Auto => hour < 6 || hour >= 18
  }

  /**
   * A fixed preference wins at every hour. On 'auto' the theme changes only between
   * 05:00 and 06:00 and between 17:00 and 18:00, and it is dark for exactly twelve of
   * the twenty-four hours.
   */
  lemma {:induction false} ThemeSchedule(hour: nat)
    requires hour < 23
    ensures IsDark(Dark, hour) && !IsDark(Light, hour)
    ensures IsDark(Auto, hour) != IsDark(Auto, hour + 1) <==> hour == 5 || hour == 17
    ensures |DarkHours(24)| == 12
  {
    DarkHoursCount(24);
  }

  /** The hours before `n` at which 'auto' is dark. */
  function DarkHours(n: nat): (hours: set<nat>)
    requires n <= 24
    ensures forall h: nat :: h in hours <==> h < n && IsDark(Auto, h)
  {
    if n == 0 then {} else DarkHours(n - 1) + (if IsDark(Auto, n - 1) then {n - 1} else {})
  }

  lemma {:induction false} DarkHoursCount(n: nat)
    requires n <= 24
    ensures |DarkHours(n)| == if n <= 6 then n else if n <= 18 then 6 else n - 12
  {
    if n > 0 {
      DarkHoursCount(n - 1);
      var before := DarkHours(n - 1);
      assert n - 1 !in before;
      if IsDark(Auto, n - 1) {
        assert DarkHours(n) == before + {n - 1};
      } else {
        assert DarkHours(n) == before;
      }
    }
  }

  datatype View = AuthView | WelcomeView | DashboardView

  datatype Screen = Splash | LoginScreen | WelcomeScreen | DashboardScreen

  /** The shell's state. */
  class Shell {
    var user: Option<User>
    var view: View
    var isInitializing: bool
    var themePreference: ThemePreference
    var language: string

    /** Nothing signed in, the sign-in view, 'auto' and 'en' unless something is saved. */
    constructor(savedTheme: Option<ThemePreference>, savedLanguage: string)
      ensures user.None? && view == AuthView && isInitializing
      ensures themePreference == (if savedTheme.Some? then savedTheme.value else Auto)
      ensures language == (if savedLanguage != "" then savedLanguage else "en")
    {
      user := None;
      view := AuthView;
      isInitializing := true;
      themePreference := if savedTheme.Some? then savedTheme.value else Auto;
      language := if savedLanguage != "" then savedLanguage else "en";
    }

    /**
     * The subscription callback: a user is kept and moves the sign-in view on to the
     * welcome view, leaving other views alone; no user clears the session and goes
     * back to sign-in. Initialisation is over either way.
     */
    method AuthChanged(userData: Option<User>)
      modifies this
      ensures user == userData && !isInitializing
      ensures userData.Some? ==> view == (if old(view) == AuthView then WelcomeView else old(view))
      ensures userData.None? ==> view == AuthView
      ensures themePreference == old(themePreference) && language == old(language)
    {
      if userData.Some? {
        user := userData;
        if view == AuthView {
          view := WelcomeView;
        }
      } else {
        user := None;
        view := AuthView;
      }
      isInitializing := false;
    }

    /** Mounting subscribes to the store, which delivers the stored session once. */
    method Mount(api: Backend.LocalStore)
      requires api.Valid()
      modifies this
      ensures Backend.SessionKey in api.store ==> user == Some(api.store[Backend.SessionKey].user)
      ensures Backend.SessionKey in api.store ==> view == (if old(view) == AuthView then WelcomeView else old(view))
      ensures Backend.SessionKey !in api.store ==> user.None? && view == AuthView
      ensures !isInitializing
      ensures themePreference == old(themePreference) && language == old(language)
    {
      var delivered := api.SubscribeToAuth();
      AuthChanged(delivered);
    }

    method HandleLogin(userData: User)
      modifies this`user, this`view
      ensures user == Some(userData) && view == WelcomeView
    {
      user := Some(userData);
      view := WelcomeView;
    }

    /** `handleLogout`: the store drops the session, then the shell forgets the user and shows sign-in. */
    method HandleLogout(api: Backend.LocalStore)
      requires api.Valid()
      modifies this`user, this`view, api
      ensures api.Valid() && api.store == old(api.store) - {Backend.SessionKey}
      ensures user.None? && view == AuthView
    {
      api.Logout();
      user := None;
      view := AuthView;
    }

    method HandleStartDashboard()
      modifies this`view
      ensures view == DashboardView
    {
      view := DashboardView;
    }

    /**
     * The screen shown: the splash while initialising, then sign-in whenever there is
     * no user or the view is the sign-in view, else the welcome page or the dashboard.
     */
    method CurrentScreen() returns (screen: Screen)
      ensures isInitializing <==> screen == Splash
      ensures !isInitializing ==> (screen == LoginScreen <==> user.None? || view == AuthView)
      ensures screen == WelcomeScreen <==> !isInitializing && user.Some? && view == WelcomeView
      ensures screen == DashboardScreen <==> !isInitializing && user.Some? && view == DashboardView
    {
      if isInitializing {
        screen := Splash;
      } else if user.None? || view == AuthView {
        screen := LoginScreen;
      } else if view == WelcomeView {
        screen := WelcomeScreen;
      } else {
        screen := DashboardScreen;
      }
    }
  }
}
