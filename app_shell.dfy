/** The application shell's reaction to each completed navigation: which
    layout the route gets (full width, big footer), whether it is public
    (robots allowed, no sign-in needed), and for every other route the
    authentication and multi-factor check that may send the user to the
    login page. */
module AppShell {
  import opened Wrappers
  import opened Text
  import JsValues

  /** Routes that never need a signed-in user. */
  const PublicRoutes: set<string> := {"/", "/home", "/about", "/login"}

  /** Route fragments that switch to the full-width layout. */
  const FullWidthRoutes: seq<string> := ["/settings", "/stats"]

  /** `urlAfterRedirects || url`. */
  function CurrentRoute(urlAfterRedirects: string, url: string): (route: string)
    ensures urlAfterRedirects != "" ==> route == urlAfterRedirects
    ensures urlAfterRedirects == "" ==> route == url
    ensures Some(JsValues.Str(route)) == JsValues.Or(Some(JsValues.Str(urlAfterRedirects)), Some(JsValues.Str(url)))
  {
    JsValues.OrText(Some(urlAfterRedirects), url)
  }

  predicate IsBigFooter(route: string)
  {
    "/about" <= route
  }

  /** `fullWidthRoutes.some(r => route.includes(r))`. */
  predicate IsFullWidth(route: string)
  {
    exists i :: 0 <= i < |FullWidthRoutes| && Includes(route, FullWidthRoutes[i])
  }

  predicate IsPublic(route: string)
  {
    route in PublicRoutes || "/login" <= route || "/about" <= route
  }

  /** A route is public exactly when it is `/` or `/home`, or starts with
      `/login` or `/about` (the set's other two entries add nothing); a
      full-width route is one containing `/settings` or `/stats` anywhere. */
  lemma RouteClasses(route: string)
    ensures IsPublic(route) <==> route == "/" || route == "/home" || "/login" <= route || "/about" <= route
    ensures IsFullWidth(route) <==> Includes(route, "/settings") || Includes(route, "/stats")
    ensures IsBigFooter(route) ==> IsPublic(route)
  {
    if IsFullWidth(route) {
      var i :| 0 <= i < |FullWidthRoutes| && Includes(route, FullWidthRoutes[i]);
      assert FullWidthRoutes[i] == "/settings" || FullWidthRoutes[i] == "/stats";
    }
    if Includes(route, "/settings") {
      assert Includes(route, FullWidthRoutes[0]);
    }
    if Includes(route, "/stats") {
      assert Includes(route, FullWidthRoutes[1]);
    }
  }

  /** `/home` is public but nothing below it is; anything starting with
      `/login` is, even `/login-help`. */
  lemma PublicRouteExamples()
    ensures IsPublic("/home") && !IsPublic("/home/x") && IsPublic("/login-help") && !IsPublic("/settings")
  {
    assert "/home/x"[1] == 'h' && "/login"[1] == 'l' && "/about"[1] == 'a';
    assert !("/login" <= "/home/x") && !("/about" <= "/home/x");
    assert "/settings"[1] == 's';
    assert !("/login" <= "/settings") && !("/about" <= "/settings");
    assert "/login" <= "/login-help";
  }

  /** A sub-page of the settings gets the full-width layout. */
  lemma SettingsIsFullWidth()
    ensures IsFullWidth("/settings/account") && !IsPublic("/settings/account")
  {
    assert "/settings" <= "/settings/account";
    assert Includes("/settings/account", FullWidthRoutes[0]);
    assert "/settings/account"[1] == 's' && "/login"[1] == 'l' && "/about"[1] == 'a';
    assert !("/login" <= "/settings/account") && !("/about" <= "/settings/account");
  }

  // ---------------------------------------------------------------------
  // checkAuthentication
  // ---------------------------------------------------------------------

  /** The result of an awaited auth call: its value, or an exception. */
  datatype Probe<T> = Value(value: T) | Throws

  /** What `checkAuthentication` learns, call by call. */
  datatype AuthState = AuthState(supabaseEnabled: bool, authenticated: Probe<bool>,
                                 mfaEnabled: Probe<bool>, assuranceLevel: Probe<string>)

  datatype Navigation = ToLogin | ToLoginRequiringMfa

  /** Where the check sends the user, and whether it failed with an exception. */
  datatype AuthOutcome = AuthOutcome(navigation: Option<Navigation>, failed: bool)

  /** `checkAuthentication`. */
  function CheckAuthentication(a: AuthState): AuthOutcome
  {
    if !a.supabaseEnabled then AuthOutcome(None, false)
    else match a.authenticated
      case Throws => AuthOutcome(None, true)
      case Value(false) => AuthOutcome(Some(ToLogin), false)
      case Value(true) =>
        match a.mfaEnabled
        case Throws => AuthOutcome(None, true)
        case Value(false) => AuthOutcome(None, false)
        case Value(true) =>
          match a.assuranceLevel
          case Throws => AuthOutcome(None, true)
          case Value(level) => if level != "aal2" then AuthOutcome(Some(ToLoginRequiringMfa), false) else AuthOutcome(None, false)
  }

  /** The check's decisions: nothing happens without Supabase; a signed-out
      user goes to the login page; a user with MFA enabled but below
      assurance level `aal2` goes to the login page asking for MFA; any
      exception from the auth calls fails the check. */
  lemma AuthDecisions(a: AuthState)
    ensures !a.supabaseEnabled ==> CheckAuthentication(a) == AuthOutcome(None, false)
    ensures CheckAuthentication(a).navigation == Some(ToLogin) <==> a.supabaseEnabled && a.authenticated == Value(false)
    ensures CheckAuthentication(a).navigation == Some(ToLoginRequiringMfa) <==>
              a.supabaseEnabled && a.authenticated == Value(true) && a.mfaEnabled == Value(true)
              && a.assuranceLevel.Value? && a.assuranceLevel.value != "aal2"
    ensures CheckAuthentication(a).failed <==>
              a.supabaseEnabled && (a.authenticated.Throws?
              || (a.authenticated == Value(true) && (a.mfaEnabled.Throws?
              || (a.mfaEnabled == Value(true) && a.assuranceLevel.Throws?))))
    ensures CheckAuthentication(a).failed ==> CheckAuthentication(a).navigation == None
  {
  }

  /** A signed-in user at level `aal2`, or without MFA, stays where they are. */
  lemma SignedInStays(a: AuthState)
    requires a.authenticated == Value(true)
    requires a.mfaEnabled == Value(false) || (a.mfaEnabled == Value(true) && a.assuranceLevel == Value("aal2"))
    ensures CheckAuthentication(a) == AuthOutcome(None, false)
  {
  }

  /** The service the shell calls defines neither `isMFAEnabled` nor
      `getAuthenticatorAssuranceLevel`, so the first of those calls throws.
      Every signed-in user then fails the check and is never sent to the
      MFA login. */
  lemma MissingMfaProbeFails(a: AuthState)
    requires a.supabaseEnabled && a.authenticated == Value(true) && a.mfaEnabled == Throws
    ensures CheckAuthentication(a) == AuthOutcome(None, true)
    ensures forall level :: CheckAuthentication(a.(assuranceLevel := level)) == AuthOutcome(None, true)
  {
  }

  const MsgVerifyFailed: string := "Unable to verify auth status, please log in again"
  const MsgValidateFailed: string := "Unable to validate auth state"

  class AppComponent {
    var loading: bool
    var pagePath: string
    var isFullWidth: bool
    var isBigFooter: bool
    /** The latest `allowRobots` setting, `None` before the first navigation. */
    var robotsAllowed: Option<bool>
    /** Navigations requested by the auth check, in order. */
    var navigations: seq<Navigation>
    /** Error toasts shown, in order. */
    var toasts: seq<string>

    constructor ()
      ensures loading && pagePath == "" && !isFullWidth && !isBigFooter
      ensures robotsAllowed == None && navigations == [] && toasts == []
    {
      loading := true;
      pagePath := "";
      isFullWidth := false;
      isBigFooter := false;
      robotsAllowed := None;
      navigations := [];
      toasts := [];
    }

    /** The `NavigationEnd` handler, with the auth check's outcome. */
    method OnNavigationEnd(urlAfterRedirects: string, url: string, auth: AuthState)
      modifies this
      ensures var route := CurrentRoute(urlAfterRedirects, url);
              pagePath == route && (isBigFooter <==> IsBigFooter(route)) && (isFullWidth <==> IsFullWidth(route))
              && !loading && robotsAllowed == Some(IsPublic(route))
      ensures var route := CurrentRoute(urlAfterRedirects, url);
              IsPublic(route) ==> navigations == old(navigations) && toasts == old(toasts)
      ensures var route := CurrentRoute(urlAfterRedirects, url);
              var outcome := CheckAuthentication(auth);
              !IsPublic(route) ==>
                navigations == old(navigations) + (if outcome.navigation.Some? then [outcome.navigation.value] else [])
                && toasts == old(toasts) + (if outcome.failed then [MsgVerifyFailed, MsgValidateFailed] else [])
    {
      var route := CurrentRoute(urlAfterRedirects, url);
      pagePath := route;
      if "/about" <= route {
        isBigFooter := true;
      } else {
        isBigFooter := false;
      }
      var fullWidth := false;
      for i := 0 to |FullWidthRoutes|
        invariant fullWidth <==> exists j :: 0 <= j < i && Includes(route, FullWidthRoutes[j])
      {
        if Includes(route, FullWidthRoutes[i]) {
          fullWidth := true;
        }
      }
      isFullWidth := fullWidth;
      if route in PublicRoutes || "/login" <= route || "/about" <= route {
        loading := false;
        robotsAllowed := Some(true);
        return;
      }
      robotsAllowed := Some(false);
      var outcome := CheckAuthentication(auth);
      if outcome.navigation.Some? {
        navigations := navigations + [outcome.navigation.value];
      }
      if outcome.failed {
        toasts := toasts + [MsgVerifyFailed, MsgValidateFailed];
      }
      loading := false;
    }
  }
}
