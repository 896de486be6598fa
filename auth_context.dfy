/**
 * The client-side authentication context: the locale read from the
 * browser path, the unauthenticated redirect rule, and the login/logout
 * transitions of the `user` and `isLoading` state.
 */
module AuthContext {
  import opened Text
  import opened Domain

  /**
   * The locale of the browser path: its second `/`-separated segment when
   * that is `en` or `zh`, else `en`.  `windowPath` is None when there is
   * no browser window (server rendering).
   */
  function CurrentLocaleFromPath(windowPath: Option<string>): (r: string)
    ensures r == "en" || r == "zh"
    ensures windowPath.None? ==> r == "en"
  {
    if windowPath.None? then "en"
    else
      var segments := Split(windowPath.value, '/');
      if |segments| > 1 && (segments[1] == "en" || segments[1] == "zh") then segments[1] else "en"
  }

  /** `/<loc>/...` and `/<loc>` yield `<loc>` for both locales. */
  lemma LocaleOfPrefixedPath(locale: string, rest: string)
    requires locale == "en" || locale == "zh"
    ensures CurrentLocaleFromPath(Some("/" + locale + "/" + rest)) == locale
    ensures CurrentLocaleFromPath(Some("/" + locale)) == locale
  {
    SplitHead("", '/', locale + "/" + rest);
    assert "" + ['/'] + (locale + "/" + rest) == "/" + locale + "/" + rest;
    SplitHead(locale, '/', rest);
    assert locale + ['/'] + rest == locale + "/" + rest;
    SplitHead("", '/', locale);
    assert "" + ['/'] + locale == "/" + locale;
    SplitNone(locale, '/');
  }

  /** Any other second segment, `/zhx` or `/fr` alike, falls back to `en`. */
  lemma UnknownSegmentFallsBack(segment: string, rest: string)
    requires '/' !in segment && segment != "en" && segment != "zh"
    ensures CurrentLocaleFromPath(Some("/" + segment + "/" + rest)) == "en"
  {
    SplitHead("", '/', segment + "/" + rest);
    assert "" + ['/'] + (segment + "/" + rest) == "/" + segment + "/" + rest;
    SplitHead(segment, '/', rest);
    assert segment + ['/'] + rest == segment + "/" + rest;
  }

  /** The unauthenticated-visitor rule of the redirect effect. */
  predicate ShouldRedirectToLogin(isLoading: bool, user: Option<User>, pathname: string) {
    !isLoading && user.None? && !StartsWith(pathname, "/login") && pathname != "/"
  }

  function LoginPath(windowPath: Option<string>): string {
    "/" + CurrentLocaleFromPath(windowPath) + "/login"
  }

  function DashboardPath(windowPath: Option<string>): string {
    "/" + CurrentLocaleFromPath(windowPath) + "/dashboard"
  }

  /** What the service login produced: a user, no match (null), or an exception. */
  datatype LoginOutcome = Authenticated(user: User) | InvalidCredentials | Threw(error: string)

  /** The provider's state; `pushed` records the router navigations in order. */
  class AuthProvider {
    var user: Option<User>
    var isLoading: bool
    var pushed: seq<string>

    constructor ()
      ensures user.None? && isLoading && pushed == []
    {
      user := None;
      isLoading := true;
      pushed := [];
    }

    /** The mount effect: the stored session (if any) becomes the user. */
    method InitializeAuth(stored: Option<User>)
      modifies this
      ensures user == stored && !isLoading && pushed == old(pushed)
    {
      user := stored;
      isLoading := false;
    }

    /** The redirect effect, run whenever user, loading state or pathname change. */
    method RedirectEffect(pathname: string, windowPath: Option<string>)
      modifies this`pushed
      ensures ShouldRedirectToLogin(isLoading, user, pathname) ==>
        pushed == old(pushed) + [LoginPath(windowPath)]
      ensures !ShouldRedirectToLogin(isLoading, user, pathname) ==> pushed == old(pushed)
    {
      var lang := CurrentLocaleFromPath(windowPath);
      if !isLoading && user.None? && !StartsWith(pathname, "/login") && pathname != "/" {
        pushed := pushed + ["/" + lang + "/login"];
      }
    }

    method Login(outcome: LoginOutcome, windowPath: Option<string>) returns (r: Result<Option<User>, string>)
      modifies this
      ensures !isLoading
      ensures outcome.Authenticated? ==>
        user == Some(outcome.user) && r == Success(Some(outcome.user)) &&
        pushed == old(pushed) + [DashboardPath(windowPath)]
      ensures outcome.InvalidCredentials? ==>
        user.None? && r == Success(None) && pushed == old(pushed)
      ensures outcome.Threw? ==>
        user.None? && r == Failure(outcome.error) && pushed == old(pushed)
    {
      isLoading := true;
      match outcome {
        case Authenticated(u) =>
          user := Some(u);
          var lang := CurrentLocaleFromPath(windowPath);
          pushed := pushed + ["/" + lang + "/dashboard"];
          r := Success(Some(u));
        case InvalidCredentials =>
          user := None;
          r := Success(None);
        case Threw(e) =>
          user := None;
          r := Failure(e);
      }
      isLoading := false;
    }

    method Logout(windowPath: Option<string>)
      modifies this
      ensures user.None? && !isLoading
      ensures pushed == old(pushed) + [LoginPath(windowPath)]
    {
      isLoading := true;
      user := None;
      isLoading := false;
      var lang := CurrentLocaleFromPath(windowPath);
      pushed := pushed + ["/" + lang + "/login"];
    }
  }

  /**
   * After logout the visitor is unauthenticated, so the redirect rule fires
   * on every path except `/` and the login pages.
   */
  lemma LoggedOutVisitorIsRedirected(pathname: string)
    requires !StartsWith(pathname, "/login") && pathname != "/"
    ensures ShouldRedirectToLogin(false, None, pathname)
    ensures !ShouldRedirectToLogin(true, None, pathname)
  {
  }
}
