/** The header theme script exercised by public/js/theme-script.test.js: it
    reads the saved theme from `localStorage` and, unless the page is the
    dashboard, adds `dark-mode` to the root element's class list. The page's
    `location.pathname` is taken as given (the URL parsing that produces it
    is not part of this model). */
module ThemeScript {
  import opened Wrappers

  const DarkMode := "dark-mode"

  /** The decision `applyThemeScript` makes: the saved theme is exactly
      `"dark"` and the pathname is not exactly `/dashboard`. */
  predicate DarkModeApplies(savedTheme: Option<string>, pathname: string)
  {
    savedTheme == Some("dark") && pathname != "/dashboard"
  }

  /** `DOMTokenList.add(token)`: appends the token unless it is already
      present; the tokens already there keep their order. */
  function AddToken(tokens: seq<string>, token: string): (r: seq<string>)
    ensures tokens <= r && token in r
    ensures forall t :: t in r <==> t in tokens || t == token
    ensures token in tokens ==> r == tokens
    ensures (forall i, j :: 0 <= i < j < |tokens| ==> tokens[i] != tokens[j]) ==>
      forall i, j :: 0 <= i < j < |r| ==> r[i] != r[j]
  {
    if token in tokens then tokens else tokens + [token]
  }

  /** The root `<html>` element and its class list. */
  class RootElement {
    var classList: seq<string>

    constructor ()
      ensures classList == []
    {
      classList := [];
    }

    /** `classList.contains(token)` */
    function Contains(token: string): bool
      reads this
    {
      token in classList
    }

    /** `classList.add(token)` */
    method Add(token: string)
      modifies this
      ensures classList == AddToken(old(classList), token)
    {
      if token !in classList {
        classList := classList + [token];
      }
    }
  }

  /** `applyThemeScript(window)`, with `localStorage.getItem('theme')` given
      as `savedTheme` (`None` for `null`): adds `dark-mode` when the decision
      holds and changes nothing otherwise. */
  method ApplyThemeScript(root: RootElement, savedTheme: Option<string>, pathname: string)
    modifies root
    ensures root.classList == if DarkModeApplies(savedTheme, pathname) then AddToken(old(root.classList), DarkMode)
                              else old(root.classList)
  {
    var isDashboard := pathname == "/dashboard";
    if savedTheme == Some("dark") && !isDashboard {
      root.Add(DarkMode);
    }
  }

  /** The class list after the script, as a function of the one before. */
  function AfterScript(tokens: seq<string>, savedTheme: Option<string>, pathname: string): seq<string>
  {
    if DarkModeApplies(savedTheme, pathname) then AddToken(tokens, DarkMode) else tokens
  }

  /** On a fresh page the class is present afterwards exactly when the saved
      theme is `"dark"` and the page is not `/dashboard`; a `"light"`, a
      missing or any other saved value never adds it, on any path. */
  lemma ScriptDecision(savedTheme: Option<string>, pathname: string)
    ensures DarkMode in AfterScript([], savedTheme, pathname) <==> (savedTheme == Some("dark") && pathname != "/dashboard")
    ensures savedTheme == Some("light") ==> DarkMode !in AfterScript([], savedTheme, pathname)
    ensures savedTheme.None? ==> DarkMode !in AfterScript([], savedTheme, pathname)
    ensures savedTheme != Some("dark") ==> AfterScript([], savedTheme, pathname) == []
  {
  }

  /** The script only ever adds: every class already there stays, in its
      place, and nothing but `dark-mode` appears. Running it again changes
      nothing. */
  lemma ScriptOnlyAdds(tokens: seq<string>, savedTheme: Option<string>, pathname: string)
    ensures var after := AfterScript(tokens, savedTheme, pathname);
      && tokens <= after
      && (after == tokens || after == tokens + [DarkMode])
      && AfterScript(after, savedTheme, pathname) == after
  {
  }

  /** The script as written darkens the dashboard when its path carries a
      trailing slash, although the dashboard property of the test file
      expects `/dashboard/` to stay light. */
  lemma TrailingSlashDashboardDarkened()
    ensures DarkModeApplies(Some("dark"), "/dashboard/")
    ensures AfterScript([], Some("dark"), "/dashboard/") == [DarkMode]
  {
    assert "/dashboard/" != "/dashboard" by {
      assert |"/dashboard/"| != |"/dashboard"|;
    }
  }

  /** The dashboard paths the tests name: with and without trailing slash. */
  predicate IsDashboard(pathname: string)
  {
    pathname == "/dashboard" || pathname == "/dashboard/"
  }

  /** The decision the tests expect. */
  predicate DarkModeAppliesIntended(savedTheme: Option<string>, pathname: string)
  {
    savedTheme == Some("dark") && !IsDashboard(pathname)
  }

  /** The script as the tests expect it: the dashboard stays light on both
      of its paths. */
  method ApplyThemeScriptIntended(root: RootElement, savedTheme: Option<string>, pathname: string)
    modifies root
    ensures root.classList == if DarkModeAppliesIntended(savedTheme, pathname) then AddToken(old(root.classList), DarkMode)
                              else old(root.classList)
  {
    var isDashboard := pathname == "/dashboard" || pathname == "/dashboard/";
    if savedTheme == Some("dark") && !isDashboard {
      root.Add(DarkMode);
    }
  }

  function AfterScriptIntended(tokens: seq<string>, savedTheme: Option<string>, pathname: string): seq<string>
  {
    if DarkModeAppliesIntended(savedTheme, pathname) then AddToken(tokens, DarkMode) else tokens
  }

  /** The intended script meets every property of the test file on a fresh
      page: present exactly for a saved `"dark"` off the dashboard, absent on
      either dashboard path, and it differs from the script as written only on
      `/dashboard/`. */
  lemma IntendedMeetsTests(savedTheme: Option<string>, pathname: string)
    ensures DarkMode in AfterScriptIntended([], savedTheme, pathname) <==> (savedTheme == Some("dark") && !IsDashboard(pathname))
    ensures IsDashboard(pathname) ==> DarkMode !in AfterScriptIntended([], savedTheme, pathname)
    ensures pathname != "/dashboard/" ==> AfterScriptIntended([], savedTheme, pathname) == AfterScript([], savedTheme, pathname)
  {
  }

  /** A fresh document after the script holds exactly what `AfterScript`
      predicts. */
  method FreshPage(savedTheme: Option<string>, pathname: string) returns (hasDarkMode: bool)
    ensures hasDarkMode <==> DarkModeApplies(savedTheme, pathname)
  {
    var root := new RootElement();
    ApplyThemeScript(root, savedTheme, pathname);
    hasDarkMode := root.Contains(DarkMode);
  }
}
