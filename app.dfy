/** The application shell: which view is shown, whether the dashboard runs
    in guest mode, the feature it opens on, the current session, and the
    colour theme. */
module App {
  import opened Common
  import opened UseTracker

  /** What `renderContent` shows. */
  datatype Page = LandingPage | AboutPage | ContactPage | AuthPage | Dashboard

  /** The views `renderContent` knows by name. */
  const KnownViews: set<string> := {"landing", "about", "contact", "auth", "dashboard"}

  function RenderContent(view: string): (p: Page)
    ensures view !in KnownViews ==> p == LandingPage
    ensures p == Dashboard <==> view == "dashboard"
    ensures p == AuthPage <==> view == "auth"
    ensures p == AboutPage <==> view == "about"
    ensures p == ContactPage <==> view == "contact"
  {
    match view
    case "landing" => LandingPage
    case "about" => AboutPage
    case "contact" => ContactPage
    case "auth" => AuthPage
    case "dashboard" => Dashboard
    case _ => LandingPage
  }

  /** The theme after a toggle. */
  function Toggled(theme: string): (r: string)
    ensures theme == "light" ==> r == "dark"
    ensures theme != "light" ==> r == "light"
  {
    if theme == "light" then "dark" else "light"
  }

  /** Toggling twice restores either theme, and any theme ends up light or
      dark after one toggle. */
  lemma ToggleTwiceRestores(theme: string)
    ensures theme == "light" || theme == "dark" ==> Toggled(Toggled(theme)) == theme
    ensures Toggled(theme) == "light" || Toggled(theme) == "dark"
    ensures Toggled(theme) != theme
  {
    assert "light"[0] != "dark"[0];
  }

  class AppState {
    var session: Option<Session>
    var view: string
    var targetFeature: string
    var isGuestMode: bool
    var theme: string

    ghost predicate Valid()
      reads this
    {
      theme == "light" || theme == "dark"
    }

    constructor ()
      ensures session == None && view == "landing" && targetFeature == "daily"
      ensures !isGuestMode && theme == "light"
      ensures Valid()
    {
      session := None;
      view := "landing";
      targetFeature := "daily";
      isGuestMode := false;
      theme := "light";
    }

    /** `handleFeatureClick(feature)`: open the dashboard on that feature,
        in guest mode exactly when nobody is signed in. */
    method HandleFeatureClick(feature: string)
      modifies this`targetFeature, this`isGuestMode, this`view
      ensures targetFeature == feature && view == "dashboard"
      ensures isGuestMode <==> session.None?
    {
      targetFeature := feature;
      if session.Some? {
        isGuestMode := false;
        view := "dashboard";
      } else {
        isGuestMode := true;
        view := "dashboard";
      }
    }

    /** The initial `getSession()` answer: only the session is set. */
    method ApplyInitialSession(s: Option<Session>)
      modifies this`session
      ensures session == s
    {
      session := s;
    }

    /** The auth-change callback: the session is stored; a signed-out
        session also returns to the landing page and leaves guest mode. */
    method OnAuthStateChange(s: Option<Session>)
      modifies this`session, this`view, this`isGuestMode
      ensures session == s
      ensures s.None? ==> view == "landing" && !isGuestMode
      ensures s.Some? ==> view == old(view) && isGuestMode == old(isGuestMode)
    {
      session := s;
      if s.None? {
        view := "landing";
        isGuestMode := false;
      }
    }

    /** A navigation callback (`onNavigate`, `onSignIn`, `onBackToHome`,
        `onGoToLogin`): the view changes and nothing else. */
    method Navigate(v: string)
      modifies this`view
      ensures view == v
    {
      view := v;
    }

    method ToggleTheme()
      modifies this`theme
      ensures theme == Toggled(old(theme))
      ensures old(Valid()) ==> Valid()
    {
      theme := Toggled(theme);
    }
  }

  /** Signing out from the dashboard in guest or user mode always lands on
      the landing page outside guest mode, whatever feature was opened. */
  method SignOutFromDashboard(feature: string, signedIn: bool) returns (page: Page, guest: bool)
    ensures page == LandingPage && !guest
  {
    var app := new AppState();
    if signedIn {
      app.ApplyInitialSession(Some(Session(Some(User("u")))));
    }
    app.HandleFeatureClick(feature);
    assert app.isGuestMode == !signedIn;
    app.OnAuthStateChange(None);
    page := RenderContent(app.view);
    guest := app.isGuestMode;
  }
}
