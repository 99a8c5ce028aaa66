/**
 * Session-state logic of both providers: the logged-in test on a page
 * snapshot, the outcome of a login attempt, and Freebox's walk over its
 * billing paths.
 */
module Session {
  import opened Wrappers
  import opened Text
  import opened Orders
  import opened Discovery

  /** The page a freshly started browser shows (no portal URL, no form). */
  const BlankPage: Page := Page("about:blank", "", false, map[], [], [])

  /**
   * `_is_logged_in` with the browser open or not. Free Mobile: on
   * `mobile.free.fr`, and no visible password field on a page that speaks of
   * "se connecter" or "connexion". Freebox: on `adsl.free.fr` or
   * `moncompte.free.fr`, no "session invalide", and no visible password field
   * on a page that speaks of "se connecter".
   */
  predicate IsLoggedIn(kind: Kind, driverOpen: bool, p: Page) {
    var body := Lower(p.body);
    driverOpen &&
    match kind
    case FreeMobile =>
      Contains(p.url, "mobile.free.fr") &&
      !((Contains(body, "se connecter") || Contains(body, "connexion")) && p.passwordVisible)
    case Freebox =>
      (Contains(p.url, "adsl.free.fr") || Contains(p.url, "moncompte.free.fr")) &&
      !Contains(body, "session invalide") &&
      !(p.passwordVisible && Contains(body, "se connecter"))
  }

  /** The lowered exception message names a network-level failure. */
  predicate IsNetworkError(message: string) {
    var m := Lower(message);
    Contains(m, "dns") || Contains(m, "neterror") || Contains(m, "could not reach") ||
    Contains(m, "offline") || Contains(m, "impossible de se connecter")
  }

  const NetworkErrorMessage: string :=
    "Impossible de joindre mobile.free.fr (réseau ou DNS). Vérifiez votre connexion internet et que https://mobile.free.fr s’ouvre dans un navigateur."

  /**
   * How the form part of a login attempt goes: it raised (page load, element
   * lookup or click), the identifier/password fields or the submit button
   * were not found, or the form was submitted and `after` is the page shown.
   * The login page has been loaded by then, so the first two carry the page
   * the browser was left on (`shown`), which may well be a logged-in page the
   * login URL redirected to.
   */
  datatype LoginFlow = Threw(message: string, shown: Page) | NoForm(shown: Page) | Submitted(after: Page)

  /** What `login` does for the caller: return a boolean, or raise with a message. */
  datatype LoginResult = Returned(ok: bool) | Raised(message: string)

  /** The `except` clause of `login`: Free Mobile re-raises network failures with its own message; every other failure returns False. */
  function LoginFailure(kind: Kind, message: string): (r: LoginResult)
    ensures r.Raised? <==> kind == FreeMobile && IsNetworkError(message)
    ensures r.Raised? ==> r.message == NetworkErrorMessage
    ensures r.Returned? ==> !r.ok
  {
    if kind == FreeMobile && IsNetworkError(message) then Raised(NetworkErrorMessage) else Returned(false)
  }

  /** The state a login attempt leaves: the result, whether the browser is open, and the page it shows. */
  datatype LoginState = LoginState(result: LoginResult, driverOpen: bool, page: Page)

  /**
   * `login`: start the browser if needed (`setupError` is the message when
   * that raises), return True at once when already logged in, otherwise go
   * through the form.
   */
  function LoginSpec(kind: Kind, driverOpen: bool, page: Page, setupError: Option<string>, flow: LoginFlow): LoginState {
    if !driverOpen && setupError.Some? then LoginState(LoginFailure(kind, setupError.value), false, page)
    else
      var current := if driverOpen then page else BlankPage;
      if IsLoggedIn(kind, true, current) then LoginState(Returned(true), true, current)
      else match flow
        case Threw(m, shown) => LoginState(LoginFailure(kind, m), true, shown)
        case NoForm(shown) => LoginState(Returned(false), true, shown)
        case Submitted(after) => LoginState(Returned(IsLoggedIn(kind, true, after)), true, after)
  }

  // ------------------------------------------------------------ Freebox navigation

  const FreeboxBaseUrl: string := "https://adsl.free.fr"

  const FreeboxBillingPaths: seq<string> := ["/facturation/", "/mes-factures/", "/factures/", "/home.pl", "/"]

  /**
   * The browser's behaviour during navigation: the page each URL loads, and
   * the page shown after clicking the first link whose text or href mentions
   * "factur" (the same page when there is none or the click fails).
   */
  datatype Browser = Browser(load: string -> Page, follow: Page -> Page)

  /** The page the browser shows after loading the `j`-th billing path. */
  function PathPage(b: Browser, j: nat): Page
    requires j < |FreeboxBillingPaths|
  {
    b.load(FreeboxBaseUrl + FreeboxBillingPaths[j])
  }

  /** The path loop of Freebox `navigate_to_invoices` from path `k` on, `current` being the page shown. */
  function NavigatePaths(res: Resolver, b: Browser, k: nat, current: Page): (bool, Page)
    decreases |FreeboxBillingPaths| - k
  {
    if k >= |FreeboxBillingPaths| then (IsLoggedIn(Freebox, true, current), current)
    else
      var p := PathPage(b, k);
      if IsLoggedIn(Freebox, true, p) then
        if ListedOrders(Freebox, res, p) != [] then (true, p) else (true, b.follow(p))
      else NavigatePaths(res, b, k + 1, p)
  }

  /**
   * Freebox `navigate_to_invoices`: False without a browser; True at once if
   * the current page is a logged-in free.fr page already listing invoices;
   * otherwise the path loop.
   */
  function NavigateSpec(res: Resolver, b: Browser, driverOpen: bool, page: Page): (bool, Page) {
    if !driverOpen then (false, page)
    else if IsLoggedIn(Freebox, true, page) && Contains(page.url, "free.fr") && ListedOrders(Freebox, res, page) != [] then (true, page)
    else NavigatePaths(res, b, 0, page)
  }
}

module SessionProperties {
  import opened Wrappers
  import opened Text
  import opened Orders
  import opened Discovery
  import opened Session

  /** Without a Free Mobile URL (or with the browser closed) the session is never logged in. */
  lemma FreeMobileNeedsPortalUrl(p: Page, driverOpen: bool)
    ensures IsLoggedIn(FreeMobile, driverOpen, p) ==> driverOpen && Contains(p.url, "mobile.free.fr")
    ensures driverOpen && Contains(p.url, "mobile.free.fr") && !p.passwordVisible ==> IsLoggedIn(FreeMobile, driverOpen, p)
  {
  }

  /**
   * Freebox is logged in exactly on an `adsl.free.fr` / `moncompte.free.fr`
   * page with no "session invalide" and no visible password field beside
   * "se connecter".
   */
  lemma FreeboxLoggedInCases(p: Page)
    ensures IsLoggedIn(Freebox, true, p) <==>
              (Contains(p.url, "adsl.free.fr") || Contains(p.url, "moncompte.free.fr")) &&
              !Contains(Lower(p.body), "session invalide") &&
              (p.passwordVisible ==> !Contains(Lower(p.body), "se connecter"))
  {
  }

  /** A fresh browser is logged in nowhere. */
  lemma BlankPageNotLoggedIn(kind: Kind)
    ensures !IsLoggedIn(kind, true, BlankPage)
  {
    var u := BlankPage.url;
    assert !Contains(u[1..], "mobile.free.fr") by { NotContainsShort(u[1..], "mobile.free.fr"); }
    assert !Contains(u, "mobile.free.fr") by { NotContainsShort(u, "mobile.free.fr"); }
    assert !Contains(u, "adsl.free.fr") by { NotContainsShort(u, "adsl.free.fr"); }
    assert !Contains(u, "moncompte.free.fr") by { NotContainsShort(u, "moncompte.free.fr"); }
  }

  lemma {:induction false} NotContainsShort(s: string, sub: string)
    requires |s| < |sub|
    ensures !Contains(s, sub)
  {
    if |s| > 0 {
      NotContainsShort(s[1..], sub);
    }
  }

  /**
   * Login when already logged in returns True at once, with nothing else
   * consulted; otherwise the result is True only when the page after
   * submitting the form is logged in.
   */
  lemma LoginOutcomes(kind: Kind, driverOpen: bool, page: Page, setupError: Option<string>, flow: LoginFlow)
    ensures driverOpen && IsLoggedIn(kind, true, page) ==>
              LoginSpec(kind, driverOpen, page, setupError, flow) == LoginState(Returned(true), true, page)
    ensures LoginSpec(kind, driverOpen, page, setupError, flow).result == Returned(true) ==>
              IsLoggedIn(kind, true, LoginSpec(kind, driverOpen, page, setupError, flow).page)
  {
    var s := LoginSpec(kind, driverOpen, page, setupError, flow);
    if !driverOpen && setupError.Some? {
      assert s.result == LoginFailure(kind, setupError.value);
    } else {
      var current := if driverOpen then page else BlankPage;
      if !IsLoggedIn(kind, true, current) && s.result == Returned(true) {
        assert flow.Submitted? && s.page == flow.after;
      }
    }
  }

  /**
   * Only Free Mobile raises from `login`, only for a network-type message,
   * and always with its network message; Freebox maps every exception to
   * False.
   */
  lemma LoginRaisesOnlyOnNetworkErrors(kind: Kind, driverOpen: bool, page: Page, setupError: Option<string>, flow: LoginFlow)
    ensures var r := LoginSpec(kind, driverOpen, page, setupError, flow).result;
            r.Raised? ==> kind == FreeMobile && r.message == NetworkErrorMessage &&
                          ((!driverOpen && setupError.Some? && IsNetworkError(setupError.value)) ||
                           (flow.Threw? && IsNetworkError(flow.message)))
    ensures kind == Freebox ==> LoginSpec(kind, driverOpen, page, setupError, flow).result.Returned?
  {
    var r := LoginSpec(kind, driverOpen, page, setupError, flow).result;
    if !driverOpen && setupError.Some? {
      assert r == LoginFailure(kind, setupError.value);
    } else if r.Raised? {
      assert flow.Threw? && r == LoginFailure(kind, flow.message);
    }
  }

  /**
   * A login that finds no form, or raises, leaves the browser on the page it
   * reached; when the login URL redirected to a logged-in page, the attempt
   * returns False (or raises) but the next `login` returns True at once.
   */
  lemma FailedLoginKeepsReachedPage(kind: Kind, page: Page, flow: LoginFlow, again: LoginFlow)
    requires !IsLoggedIn(kind, true, page)
    requires flow.NoForm? || flow.Threw?
    ensures var s := LoginSpec(kind, true, page, None, flow);
            s.page == flow.shown && s.driverOpen && (s.result.Returned? ==> !s.result.ok)
    ensures var s := LoginSpec(kind, true, page, None, flow);
            IsLoggedIn(kind, true, flow.shown) ==>
              LoginSpec(kind, s.driverOpen, s.page, None, again) == LoginState(Returned(true), true, flow.shown)
  {
  }

  /** A DNS failure while submitting the Free Mobile form surfaces as the network error, not as rejected credentials. */
  lemma DnsFailureIsNetworkError(page: Page)
    requires !IsLoggedIn(FreeMobile, true, page)
    ensures LoginSpec(FreeMobile, true, page, None, Threw("net::ERR_NAME_NOT_RESOLVED (DNS)", page)).result == Raised(NetworkErrorMessage)
  {
    var m := Lower("net::ERR_NAME_NOT_RESOLVED (DNS)");
    assert m[28..31] == "dns";
    ContainsAt(m, "dns", 28);
  }

  lemma {:induction false} ContainsAt(s: string, sub: string, i: nat)
    requires i + |sub| <= |s| && s[i..i + |sub|] == sub
    ensures Contains(s, sub)
    decreases i
  {
    if i == 0 {
      assert sub <= s;
    } else {
      assert s[1..][i - 1..i - 1 + |sub|] == sub;
      ContainsAt(s[1..], sub, i - 1);
    }
  }

  /** The first billing path from `k` on whose page is logged in, or the number of paths when there is none. */
  function FirstLoggedIn(b: Browser, k: nat): (j: nat)
    requires k <= |FreeboxBillingPaths|
    ensures k <= j <= |FreeboxBillingPaths|
    ensures forall i :: k <= i < j ==> !IsLoggedIn(Freebox, true, PathPage(b, i))
    ensures j < |FreeboxBillingPaths| ==> IsLoggedIn(Freebox, true, PathPage(b, j))
    decreases |FreeboxBillingPaths| - k
  {
    if k == |FreeboxBillingPaths| || IsLoggedIn(Freebox, true, PathPage(b, k)) then k else FirstLoggedIn(b, k + 1)
  }

  /**
   * The Freebox path walk succeeds exactly when some billing path loads a
   * logged-in page, and then it stops at the first such path: the page shown
   * is that one when it lists orders, otherwise the page its invoice link
   * leads to. When no path is logged in, the last path's page stays shown.
   */
  lemma {:induction false} NavigatePathsFirstLoggedIn(res: Resolver, b: Browser, k: nat, current: Page)
    requires k < |FreeboxBillingPaths|
    ensures var j := FirstLoggedIn(b, k);
            var r := NavigatePaths(res, b, k, current);
            (j < |FreeboxBillingPaths| ==>
               r.0 && r.1 == if ListedOrders(Freebox, res, PathPage(b, j)) != [] then PathPage(b, j) else b.follow(PathPage(b, j))) &&
            (j == |FreeboxBillingPaths| ==> !r.0 && r.1 == PathPage(b, |FreeboxBillingPaths| - 1))
    decreases |FreeboxBillingPaths| - k
  {
    var p := PathPage(b, k);
    if !IsLoggedIn(Freebox, true, p) {
      if k + 1 < |FreeboxBillingPaths| {
        NavigatePathsFirstLoggedIn(res, b, k + 1, p);
        assert FirstLoggedIn(b, k) == FirstLoggedIn(b, k + 1);
        assert NavigatePaths(res, b, k, current) == NavigatePaths(res, b, k + 1, p);
      } else {
        assert FirstLoggedIn(b, k + 1) == |FreeboxBillingPaths|;
      }
    }
  }



  /** Without a browser navigation fails; with one already on a logged-in page listing invoices it succeeds without loading anything. */
  lemma NavigateShortcuts(res: Resolver, b: Browser, page: Page)
    ensures NavigateSpec(res, b, false, page) == (false, page)
    ensures IsLoggedIn(Freebox, true, page) && Contains(page.url, "free.fr") && ListedOrders(Freebox, res, page) != [] ==>
              NavigateSpec(res, b, true, page) == (true, page)
  {
  }
}
