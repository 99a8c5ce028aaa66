/**
 * The decision logic of the HTTP layer (`backend/main.py`): settings
 * validation, which providers are registered and listed, how a download
 * request picks its provider or is refused, and how the progress queue
 * filled by a run becomes the server-sent event frames of the response.
 */
module Api {
  import opened Wrappers
  import opened Text
  import opened Run

  // ---------------------------------------------------------------------
  // Settings
  // ---------------------------------------------------------------------

  /** The `Settings` fields the decision logic reads (paths and flags that are only passed on are left out). */
  datatype Settings = Settings(
    amazonEmail: string,
    amazonPassword: string,
    maxInvoices: int,
    seleniumTimeout: int,
    seleniumBrowser: string,
    firefoxProfilePath: Option<string>,
    chromeProfileDir: Option<string>,
    freeboxLogin: Option<string>,
    freeboxPassword: Option<string>)

  /** Python truthiness of an optional string: set and non-empty. */
  predicate Truthy(o: Option<string>) {
    o.Some? && o.value != []
  }

  const EmailPlaceholder := "votre_email@example.com"
  const PasswordPlaceholder := "votre_mot_de_passe"

  predicate EmailConfigured(s: Settings) {
    s.amazonEmail != [] && s.amazonEmail != EmailPlaceholder
  }

  predicate PasswordConfigured(s: Settings) {
    s.amazonPassword != [] && s.amazonPassword != PasswordPlaceholder
  }

  /** Every configuration rule holds: the reference against which validation is proved. */
  predicate SettingsValid(s: Settings) {
    && EmailConfigured(s)
    && PasswordConfigured(s)
    && (s.seleniumBrowser == "chrome" || s.seleniumBrowser == "firefox")
    && 10 <= s.seleniumTimeout <= 300
    && s.maxInvoices > 0
    && (Truthy(s.firefoxProfilePath) ==> s.seleniumBrowser == "firefox")
    && (Truthy(s.chromeProfileDir) ==> s.seleniumBrowser == "chrome")
  }

  /** One broken configuration rule, carrying the value the message quotes. */
  datatype Violation =
    | BadEmail
    | BadPassword
    | BadBrowser(browser: string)
    | BadTimeout(timeout: int)
    | BadMaxInvoices(max: int)
    | FirefoxProfileIgnored(browser: string)
    | ChromeProfileIgnored(browser: string)

  function ViolationText(v: Violation): string {
    match v
    case BadEmail => "AMAZON_EMAIL n'est pas configuré ou utilise la valeur par défaut"
    case BadPassword => "AMAZON_PASSWORD n'est pas configuré ou utilise la valeur par défaut"
    case BadBrowser(b) => "SELENIUM_BROWSER doit être 'chrome' ou 'firefox', pas '" + b + "'"
    case BadTimeout(t) => "SELENIUM_TIMEOUT doit être entre 10 et 300 secondes, pas " + IntToString(t)
    case BadMaxInvoices(m) => "MAX_INVOICES doit être positif, pas " + IntToString(m)
    case FirefoxProfileIgnored(b) =>
      "FIREFOX_PROFILE_PATH est défini mais SELENIUM_BROWSER='" + b + "'. Le profil Firefox sera ignoré."
    case ChromeProfileIgnored(b) =>
      "SELENIUM_CHROME_PROFILE_DIR est défini mais SELENIUM_BROWSER='" + b + "'. Le profil Chrome sera ignoré."
  }

  /** The seven rules `validate_settings` checks, in its order. */
  datatype Rule = EmailRule | PasswordRule | BrowserRule | TimeoutRule | MaxInvoicesRule | FirefoxProfileRule | ChromeProfileRule

  const Rules: seq<Rule> := [EmailRule, PasswordRule, BrowserRule, TimeoutRule, MaxInvoicesRule, FirefoxProfileRule, ChromeProfileRule]

  /** The condition under which `validate_settings` appends the rule's message. */
  predicate Broken(s: Settings, rule: Rule) {
    var b := s.seleniumBrowser;
    match rule
    case EmailRule => !EmailConfigured(s)
    case PasswordRule => !PasswordConfigured(s)
    case BrowserRule => b != "chrome" && b != "firefox"
    case TimeoutRule => s.seleniumTimeout < 10 || s.seleniumTimeout > 300
    case MaxInvoicesRule => s.maxInvoices <= 0
    case FirefoxProfileRule => Truthy(s.firefoxProfilePath) && b != "firefox"
    case ChromeProfileRule => Truthy(s.chromeProfileDir) && b != "chrome"
  }

  /** The violation a broken rule reports. */
  function Report(s: Settings, rule: Rule): Violation {
    match rule
    case EmailRule => BadEmail
    case PasswordRule => BadPassword
    case BrowserRule => BadBrowser(s.seleniumBrowser)
    case TimeoutRule => BadTimeout(s.seleniumTimeout)
    case MaxInvoicesRule => BadMaxInvoices(s.maxInvoices)
    case FirefoxProfileRule => FirefoxProfileIgnored(s.seleniumBrowser)
    case ChromeProfileRule => ChromeProfileIgnored(s.seleniumBrowser)
  }

  /** The reports of the broken rules among `rules`, in order. */
  function Reported(s: Settings, rules: seq<Rule>): (r: seq<Violation>)
    ensures |r| <= |rules|
  {
    if rules == [] then []
    else
      var last := rules[|rules| - 1];
      Reported(s, rules[..|rules| - 1]) + if Broken(s, last) then [Report(s, last)] else []
  }

  /** The broken rules of `s`, in the order `validate_settings` checks them. */
  function Violations(s: Settings): seq<Violation> {
    Reported(s, Rules)
  }

  /** The messages of `vs`. */
  function Texts(vs: seq<Violation>): seq<string>
  {
    seq(|vs|, i requires 0 <= i < |vs| => ViolationText(vs[i]))
  }

  /** `"\n".join(f"  - {err}" for err in errors)`. */
  function Bullets(errors: seq<string>): string {
    if errors == [] then ""
    else if |errors| == 1 then "  - " + errors[0]
    else "  - " + errors[0] + "\n" + Bullets(errors[1..])
  }

  /** The text of the `ValueError` raised on a broken configuration. */
  function ConfigErrorMessage(errors: seq<string>): string {
    "Erreurs de configuration détectées:\n" + Bullets(errors)
  }

  /**
   * `Settings.validate_settings`: collect one message per broken rule and
   * raise (here: return the message) when there is at least one.
   */
  method ValidateSettings(s: Settings) returns (error: Option<string>)
    ensures error.None? <==> SettingsValid(s)
    ensures error.Some? ==> error.value == ConfigErrorMessage(Texts(Violations(s)))
  {
    var errors := CollectErrors(s);
    ViolationsEmpty(s);
    if errors != [] {
      error := Some(ConfigErrorMessage(errors));
    } else {
      error := None;
    }
  }

  /** The checks of `validate_settings`, in order, each appending its message when its rule is broken. */
  method CollectErrors(s: Settings) returns (errors: seq<string>)
    ensures errors == Texts(Violations(s))
  {
    errors := CredentialChecks(s);
    errors := BrowserChecks(s, errors);
    assert Rules[..7] == Rules;
  }

  /** The e-mail, password and browser checks. */
  method CredentialChecks(s: Settings) returns (errors: seq<string>)
    ensures errors == Texts(Reported(s, Rules[..3]))
  {
    assert Rules[..0] == [];
    errors := [];
    errors := CheckRule(s, 0, errors);  // e-mail
    errors := CheckRule(s, 1, errors);  // password
    errors := CheckRule(s, 2, errors);  // browser
  }

  /** The timeout, invoice cap and profile checks. */
  method BrowserChecks(s: Settings, errors0: seq<string>) returns (errors: seq<string>)
    requires errors0 == Texts(Reported(s, Rules[..3]))
    ensures errors == Texts(Reported(s, Rules[..7]))
  {
    errors := CheckRule(s, 3, errors0);  // timeout
    errors := CheckRule(s, 4, errors);  // invoice cap
    errors := CheckRule(s, 5, errors);  // Firefox profile
    errors := CheckRule(s, 6, errors);  // Chrome profile
  }

  /** One `if … : errors.append(…)` of `validate_settings`, for the `k`-th rule. */
  method CheckRule(s: Settings, k: nat, errors: seq<string>) returns (out: seq<string>)
    requires k < |Rules|
    requires errors == Texts(Reported(s, Rules[..k]))
    ensures out == Texts(Reported(s, Rules[..k + 1]))
    ensures |out| == |errors| + if Broken(s, Rules[k]) then 1 else 0
  {
    ReportedStep(s, k);
    var rule := Rules[k];
    out := errors;
    if Broken(s, rule) {
      TextsSnoc(Reported(s, Rules[..k]), Report(s, rule));
      out := errors + [ViolationText(Report(s, rule))];
    }
  }

  lemma TextsSnoc(vs: seq<Violation>, v: Violation)
    ensures Texts(vs + [v]) == Texts(vs) + [ViolationText(v)]
  {
    PointwiseSnoc(vs + [v], ViolationText, Texts(vs + [v]), Texts(vs), |vs|);
  }

  /** Checking one more rule appends its report when it is broken. */
  lemma ReportedStep(s: Settings, k: nat)
    requires k < |Rules|
    ensures Reported(s, Rules[..k + 1]) == Reported(s, Rules[..k]) + if Broken(s, Rules[k]) then [Report(s, Rules[k])] else []
  {
    TakeOneLess(Rules, k);
  }

  lemma TakeOneLess<T>(xs: seq<T>, k: nat)
    requires k < |xs|
    ensures xs[..k + 1][..k] == xs[..k] && xs[..k + 1][k] == xs[k]
  {
  }

  /** Nothing is reported for `rules` exactly when none of them is broken. */
  lemma {:induction false} ReportedEmpty(s: Settings, rules: seq<Rule>)
    ensures Reported(s, rules) == [] <==> forall i :: 0 <= i < |rules| ==> !Broken(s, rules[i])
  {
    if rules != [] {
      var init := rules[..|rules| - 1];
      ReportedEmpty(s, init);
      assert forall i :: 0 <= i < |init| ==> init[i] == rules[i];
    }
  }

  /** Validation passes exactly when every rule holds. */
  lemma ViolationsEmpty(s: Settings)
    ensures Violations(s) == [] <==> SettingsValid(s)
  {
    ReportedEmpty(s, Rules);
    assert Rules[0] == EmailRule && Rules[1] == PasswordRule && Rules[2] == BrowserRule && Rules[3] == TimeoutRule;
    assert Rules[4] == MaxInvoicesRule && Rules[5] == FirefoxProfileRule && Rules[6] == ChromeProfileRule;
  }

  // ---------------------------------------------------------------------
  // Providers: registration, listing, request dispatch
  // ---------------------------------------------------------------------

  /** `PROVIDER_LABELS`, in its declaration order. */
  const Labels: seq<(string, string)> := [
    ("amazon", "Amazon"),
    ("fnac", "FNAC"),
    ("freebox", "Freebox"),
    ("free_mobile", "Free Mobile"),
    ("bouygues", "Bouygues Telecom"),
    ("decathlon", "Decathlon"),
    ("leroy_merlin", "Leroy Merlin")
  ]

  /** The keys of `PROVIDERS`: the implemented providers. */
  const Implemented: set<string> := {"amazon", "freebox", "free_mobile"}

  predicate Labelled(id: string) {
    exists i :: 0 <= i < |Labels| && Labels[i].0 == id
  }

  /**
   * The keys of `downloaders` after start-up: Amazon unless its constructor
   * raises, Freebox when both its credentials are set and its constructor
   * does not raise. No other provider is ever registered.
   */
  function StartupDownloaders(s: Settings, amazonStarts: bool, freeboxStarts: bool): (r: set<string>)
    ensures r <= {"amazon", "freebox"}
    ensures "freebox" in r <==> Truthy(s.freeboxLogin) && Truthy(s.freeboxPassword) && freeboxStarts
  {
    (if amazonStarts then {"amazon"} else {})
    + (if Truthy(s.freeboxLogin) && Truthy(s.freeboxPassword) && freeboxStarts then {"freebox"} else {})
  }

  /** One entry of the `/api/providers` answer. */
  datatype ProviderInfo = ProviderInfo(id: string, name: string, configured: bool, implemented: bool)

  /**
   * When a listed provider is reported configured: only implemented ones
   * are, either because they are registered or because their credentials
   * are present (Amazon: real e-mail and password; Freebox: login and
   * password).
   */
  predicate ReportedConfigured(s: Settings, downloaders: set<string>, id: string) {
    id in Implemented &&
    (id in downloaders
     || (id == "amazon" && EmailConfigured(s) && PasswordConfigured(s))
     || (id == "freebox" && Truthy(s.freeboxLogin) && Truthy(s.freeboxPassword)))
  }

  /** `list_providers`: one entry per labelled provider, in label order. */
  method ListProviders(s: Settings, downloaders: set<string>) returns (list: seq<ProviderInfo>)
    ensures |list| == |Labels|
    ensures forall i :: 0 <= i < |list| ==> list[i].id == Labels[i].0 && list[i].name == Labels[i].1
    ensures forall i :: 0 <= i < |list| ==> (list[i].implemented <==> list[i].id in Implemented)
    ensures forall i :: 0 <= i < |list| ==> (list[i].configured <==> ReportedConfigured(s, downloaders, list[i].id))
  {
    list := [];
    for i := 0 to |Labels|
      invariant |list| == i
      invariant forall j :: 0 <= j < i ==> list[j].id == Labels[j].0 && list[j].name == Labels[j].1
      invariant forall j :: 0 <= j < i ==> (list[j].implemented <==> list[j].id in Implemented)
      invariant forall j :: 0 <= j < i ==> (list[j].configured <==> ReportedConfigured(s, downloaders, list[j].id))
    {
      var (pid, name) := Labels[i];
      var implemented := pid in Implemented;
      var configured := false;
      if pid == "amazon" {
        configured := EmailConfigured(s) && PasswordConfigured(s);
      } else if pid == "freebox" {
        configured := Truthy(s.freeboxLogin) && Truthy(s.freeboxPassword);
      }
      if implemented {
        configured := configured || pid in downloaders;
      }
      list := list + [ProviderInfo(pid, name, configured, implemented)];
    }
  }

  /** `(provider_id or "amazon").strip().lower()`. */
  function NormalizeId(provider: Option<string>): (r: string)
    ensures forall i :: 0 <= i < |r| ==> !('A' <= r[i] <= 'Z')
    ensures r != [] ==> !IsSpace(r[0]) && !IsSpace(r[|r| - 1])
  {
    Lower(Strip(if provider.None? || provider.value == [] then "amazon" else provider.value))
  }

  /** How `/api/download` answers before streaming: start the registered downloader, or refuse. */
  datatype Dispatch = Start(key: string) | Refuse(status: int, detail: string)

  /**
   * The handler normalises the requested id, then `_get_downloader`
   * normalises it once more for the lookup; a missing downloader is 501 for a
   * labelled but unimplemented provider and 503 otherwise.
   */
  function DispatchRequest(downloaders: set<string>, provider: Option<string>): Dispatch {
    var pid := NormalizeId(provider);
    var key := NormalizeId(Some(pid));
    if key in downloaders then Start(key)
    else if Labelled(pid) && pid !in Implemented then Refuse(501, NotImplementedDetail(pid))
    else Refuse(503, NotReadyDetail(pid))
  }

  function NotImplementedDetail(pid: string): string {
    "Le fournisseur '" + pid + "' n'est pas encore implémenté"
  }

  function NotReadyDetail(pid: string): string {
    "Le fournisseur '" + pid + "' n'est pas configuré ou initialisé"
  }

  /** `request.max_invoices or settings.max_invoices`: an absent or zero request falls back to the settings. */
  function RequestedMax(requested: Option<int>, s: Settings): int {
    if requested.Some? && requested.value != 0 then requested.value else s.maxInvoices
  }

  // ---------------------------------------------------------------------
  // Progress queue and event stream
  // ---------------------------------------------------------------------

  /** What `download_invoices` returns: `{"count": …, "files": …}`, `files` possibly missing. */
  datatype DownloadResult = DownloadResult(count: int, files: Option<seq<string>>)

  /** A queue item: a progress report, or one of the two terminal items. */
  datatype Item =
    | ProgressItem(current: int, total: int, message: string)
    | DoneItem(result: DownloadResult)
    | ErrorItem(error: string)

  /** How the awaited download ended: a result, the 600-second timeout, or an exception with its text. */
  datatype TaskEnd = Finished(result: DownloadResult) | TimedOut | Crashed(error: string)

  /** One server-sent event: `progress`, `done` or `error`, with its JSON payload's fields. */
  datatype Frame =
    | ProgressFrame(current: int, total: int, message: string)
    | DoneFrame(success: bool, message: string, count: int, files: seq<string>)
    | ErrorFrame(detail: string, requiresOtp: bool)

  /** The queue item `on_progress` puts for one provider report. */
  function ReportItem(p: Progress): Item {
    ProgressItem(p.done, p.total, Message(p))
  }

  function ReportItems(events: seq<Progress>): seq<Item>
  {
    seq(|events|, i requires 0 <= i < |events| => ReportItem(events[i]))
  }

  lemma ReportItemsSnoc(events: seq<Progress>, i: nat)
    requires i < |events|
    ensures ReportItems(events[..i + 1]) == ReportItems(events[..i]) + [ReportItem(events[i])]
  {
    PointwiseSnoc(events, ReportItem, ReportItems(events[..i + 1]), ReportItems(events[..i]), i);
  }

  /** The last item `run_download` puts. */
  function TerminalItem(end: TaskEnd): Item {
    match end
    case Finished(result) => DoneItem(result)
    case TimedOut => ErrorItem("timeout")
    case Crashed(e) => ErrorItem(e)
  }

  /** The `done` frame of a result: the count, its message, and the files (none when missing). */
  function Done(result: DownloadResult): Frame {
    DoneFrame(true, IntToString(result.count) + " facture(s) téléchargée(s)", result.count,
              if result.files.Some? then result.files.value else [])
  }

  /** The `error` frame of a message; `twoFactor` is what the provider's `is_2fa_required` answers. */
  function Failure(error: string, twoFactor: bool): Frame {
    ErrorFrame(if error == [] then "Erreur" else error, Contains(error, "Code 2FA requis") || twoFactor)
  }

  function FrameOf(item: Item, twoFactor: bool): Frame {
    match item
    case ProgressItem(c, t, m) => ProgressFrame(c, t, m)
    case DoneItem(result) => Done(result)
    case ErrorItem(e) => Failure(e, twoFactor)
  }

  /** Some item of `items` is terminal. */
  predicate HasTerminal(items: seq<Item>) {
    exists i :: 0 <= i < |items| && !items[i].ProgressItem?
  }

  /** Taking a progress item off the queue leaves the terminal item in it. */
  lemma TerminalInTail(items: seq<Item>)
    requires HasTerminal(items) && items[0].ProgressItem?
    ensures HasTerminal(items[1..])
  {
    var k :| 0 <= k < |items| && !items[k].ProgressItem?;
    assert items[1..][k - 1] == items[k];
  }

  /** The frames `event_stream` yields for queue contents `items`: up to and including the first terminal one. */
  function Frames(items: seq<Item>, twoFactor: bool): (r: seq<Frame>)
    ensures |r| <= |items|
  {
    if items == [] then []
    else if items[0].ProgressItem? then [FrameOf(items[0], twoFactor)] + Frames(items[1..], twoFactor)
    else [FrameOf(items[0], twoFactor)]
  }

  /** The items still queued once the stream has ended: those after the first terminal one. */
  function Unread(items: seq<Item>): (r: seq<Item>)
    ensures |r| < |items| || items == []
  {
    if items == [] then []
    else if items[0].ProgressItem? then Unread(items[1..])
    else items[1..]
  }

  lemma FramesCons(items: seq<Item>, twoFactor: bool)
    requires items != []
    ensures Frames(items, twoFactor)
            == [FrameOf(items[0], twoFactor)] + if items[0].ProgressItem? then Frames(items[1..], twoFactor) else []
  {
  }

  /** `asyncio.Queue`, as the sequence of items not yet taken. */
  class Queue {
    var items: seq<Item>

    constructor()
      ensures items == []
    {
      items := [];
    }

    method Put(x: Item)
      modifies this
      ensures items == old(items) + [x]
    {
      items := items + [x];
    }

    /** `get`; the real queue waits while it is empty, the model demands an item. */
    method Get() returns (x: Item)
      requires items != []
      modifies this
      ensures x == old(items)[0] && items == old(items)[1..]
    {
      x := items[0];
      items := items[1..];
    }
  }

  /**
   * `run_download`: every `on_progress` report of the awaited download, in
   * order, then exactly one terminal item for how it ended.
   */
  method RunDownload(q: Queue, events: seq<Progress>, end: TaskEnd)
    modifies q
    ensures q.items == old(q.items) + ReportItems(events) + [TerminalItem(end)]
  {
    for i := 0 to |events|
      invariant q.items == old(q.items) + ReportItems(events[..i])
    {
      ReportItemsSnoc(events, i);
      q.Put(ReportItem(events[i]));
    }
    assert events[..|events|] == events;
    match end
    case Finished(result) => q.Put(DoneItem(result));
    case TimedOut => q.Put(ErrorItem("timeout"));
    case Crashed(e) => q.Put(ErrorItem(e));
  }

  /** One turn of `event_stream`: take the next item and format its frame; a terminal item ends the stream. */
  method NextFrame(q: Queue, twoFactor: bool) returns (frame: Frame, last: bool)
    requires q.items != []
    modifies q
    ensures frame == FrameOf(old(q.items)[0], twoFactor) && last == !old(q.items)[0].ProgressItem?
    ensures q.items == old(q.items)[1..]
  {
    var item := q.Get();
    match item {
      case ProgressItem(current, total, message) =>
        frame, last := ProgressFrame(current, total, message), false;
      case DoneItem(result) =>
        frame, last := Done(result), true;
      case ErrorItem(e) =>
        frame, last := Failure(e, twoFactor), true;
    }
  }

  /**
   * `event_stream`: take items one by one, yield a progress frame for each
   * progress item, and stop right after yielding the first terminal frame.
   */
  method EventStream(q: Queue, twoFactor: bool) returns (frames: seq<Frame>)
    requires HasTerminal(q.items)
    modifies q
    ensures frames == Frames(old(q.items), twoFactor)
    ensures q.items == Unread(old(q.items))
  {
    ghost var items := q.items;
    frames := [];
    while true
      invariant HasTerminal(q.items)
      invariant Unread(q.items) == Unread(items)
      invariant frames + Frames(q.items, twoFactor) == Frames(items, twoFactor)
      decreases |q.items|
    {
      StreamStep(items, q.items, frames, twoFactor);
      var frame, last := NextFrame(q, twoFactor);
      frames := frames + [frame];
      if last {
        break;
      }
    }
  }

  /** One turn of `event_stream` keeps the loop's invariant, or ends it with every frame yielded. */
  lemma StreamStep(items: seq<Item>, rest: seq<Item>, frames: seq<Frame>, twoFactor: bool)
    requires HasTerminal(rest)
    requires Unread(rest) == Unread(items)
    requires frames + Frames(rest, twoFactor) == Frames(items, twoFactor)
    ensures rest != []
    ensures !rest[0].ProgressItem? ==> frames + [FrameOf(rest[0], twoFactor)] == Frames(items, twoFactor) && rest[1..] == Unread(items)
    ensures rest[0].ProgressItem? ==>
              HasTerminal(rest[1..]) && Unread(rest[1..]) == Unread(items) &&
              (frames + [FrameOf(rest[0], twoFactor)]) + Frames(rest[1..], twoFactor) == Frames(items, twoFactor)
  {
    var k :| 0 <= k < |rest| && !rest[k].ProgressItem?;
    FramesCons(rest, twoFactor);
    var head := [FrameOf(rest[0], twoFactor)];
    if rest[0].ProgressItem? {
      TerminalInTail(rest);
      assert Unread(rest) == Unread(rest[1..]);
      assert frames + (head + Frames(rest[1..], twoFactor)) == (frames + head) + Frames(rest[1..], twoFactor);
    } else {
      assert Unread(rest) == rest[1..];
      assert Frames(rest, twoFactor) == head;
    }
  }
}

module ApiProperties {
  import opened Wrappers
  import opened Text
  import opened Run
  import opened Orders
  import opened DateFilter
  import opened Discovery
  import opened Session
  import opened Api
  import opened RunProperties
  import SessionProperties

  /** Reports of different rules differ. */
  lemma ReportInjective(s: Settings, r1: Rule, r2: Rule)
    ensures Report(s, r1) == Report(s, r2) ==> r1 == r2
  {
  }

  lemma {:induction false} ReportedMembers(s: Settings, rules: seq<Rule>, rule: Rule)
    ensures Report(s, rule) in Reported(s, rules) <==> rule in rules && Broken(s, rule)
  {
    if rules != [] {
      var last := rules[|rules| - 1];
      var init := rules[..|rules| - 1];
      ReportedMembers(s, init, rule);
      ReportInjective(s, rule, last);
      assert rules == init + [last];
    }
  }

  /** Each rule is reported, with the value it quotes, exactly when it is broken. */
  lemma ViolationsExact(s: Settings, rule: Rule)
    ensures Report(s, rule) in Violations(s) <==> Broken(s, rule)
  {
    ReportedMembers(s, Rules, rule);
    assert rule in Rules by {
      match rule
      case EmailRule => assert Rules[0] == rule;
      case PasswordRule => assert Rules[1] == rule;
      case BrowserRule => assert Rules[2] == rule;
      case TimeoutRule => assert Rules[3] == rule;
      case MaxInvoicesRule => assert Rules[4] == rule;
      case FirefoxProfileRule => assert Rules[5] == rule;
      case ChromeProfileRule => assert Rules[6] == rule;
    }
  }

  /** Valid settings make Amazon listed as configured, registered or not. */
  lemma ValidSettingsListAmazon(s: Settings, downloaders: set<string>)
    requires SettingsValid(s)
    ensures ReportedConfigured(s, downloaders, "amazon")
  {
  }

  /** A provider without a label is never refused with 501; an implemented one never either. */
  lemma NotImplementedOnlyForLabelled(downloaders: set<string>, provider: Option<string>)
    ensures var d := DispatchRequest(downloaders, provider);
            d.Refuse? && d.status == 501 ==> Labelled(NormalizeId(provider)) && NormalizeId(provider) !in Implemented
  {
  }

  lemma {:induction false} TrimStartNoop(s: string)
    requires s == [] || !IsSpace(s[0])
    ensures TrimStart(s) == s
  {
  }

  lemma {:induction false} TrimEndNoop(s: string)
    requires s == [] || !IsSpace(s[|s| - 1])
    ensures TrimEnd(s) == s
  {
  }

  /** Normalising an id that has no surrounding blanks and no capitals leaves it as it is. */
  lemma NormalizeFixed(x: string)
    requires x != []
    requires !IsSpace(x[0]) && !IsSpace(x[|x| - 1])
    requires forall i :: 0 <= i < |x| ==> LowerChar(x[i]) == x[i]
    ensures NormalizeId(Some(x)) == x
  {
    TrimStartNoop(x);
    TrimEndNoop(x);
    assert Strip(x) == x;
  }

  /** `lower()` is idempotent on the characters it folds. */
  lemma LowerCharTwice(c: char)
    ensures LowerChar(LowerChar(c)) == LowerChar(c)
  {
  }

  /** Normalisation is idempotent on the ids it can produce, except the empty one. */
  lemma NormalizeTwice(provider: Option<string>)
    requires NormalizeId(provider) != []
    ensures NormalizeId(Some(NormalizeId(provider))) == NormalizeId(provider)
  {
    var r := NormalizeId(provider);
    var raw := Strip(if provider.None? || provider.value == [] then "amazon" else provider.value);
    forall i | 0 <= i < |r|
      ensures LowerChar(r[i]) == r[i]
    {
      LowerCharTwice(raw[i]);
    }
    NormalizeFixed(r);
  }

  /** A blank id normalises to "", which the second normalisation turns back into "amazon". */
  lemma BlankIdNormalizesToEmpty(provider: Option<string>)
    requires provider.Some? && provider.value != []
    requires forall i :: 0 <= i < |provider.value| ==> IsSpace(provider.value[i])
    ensures NormalizeId(provider) == []
    ensures NormalizeId(Some(NormalizeId(provider))) == "amazon"
  {
    BlankTrims(provider.value);
    assert NormalizeId(Some([])) == Lower(Strip("amazon"));
    NormalizeFixed("amazon");
  }

  lemma {:induction false} BlankTrims(s: string)
    requires forall i :: 0 <= i < |s| ==> IsSpace(s[i])
    ensures TrimStart(s) == []
  {
    if s != [] {
      BlankTrims(s[1..]);
    }
  }

  /**
   * Which downloader a request reaches: the one registered under its
   * normalised id, or Amazon's for a blank id; refused otherwise.
   */
  lemma DispatchCases(downloaders: set<string>, provider: Option<string>)
    ensures var pid := NormalizeId(provider);
            var key := if pid == [] then "amazon" else pid;
            var d := DispatchRequest(downloaders, provider);
            (d.Start? <==> key in downloaders) && (d.Start? ==> d.key == key) &&
            (d.Refuse? ==> (d.status == 501 <==> Labelled(pid) && pid !in Implemented) && (d.status == 501 || d.status == 503))
  {
    var pid := NormalizeId(provider);
    var key := if pid == [] then "amazon" else pid;
    if pid == [] {
      assert NormalizeId(Some(pid)) == Lower(Strip("amazon"));
      NormalizeFixed("amazon");
    } else {
      NormalizeTwice(provider);
    }
    assert NormalizeId(Some(pid)) == key;
  }

  /** Free Mobile is implemented but never registered at start-up, so a request for it is refused with 503. */
  lemma FreeMobileNeverServed(s: Settings, amazonStarts: bool, freeboxStarts: bool)
    ensures DispatchRequest(StartupDownloaders(s, amazonStarts, freeboxStarts), Some("free_mobile"))
            == Refuse(503, NotReadyDetail("free_mobile"))
  {
    NormalizeFixed("free_mobile");
    assert NormalizeId(Some("free_mobile")) == "free_mobile";
    assert "free_mobile" !in StartupDownloaders(s, amazonStarts, freeboxStarts);
  }

  /** Valid settings and a non-negative request give the download a positive cap. */
  lemma RequestedMaxPositive(requested: Option<int>, s: Settings)
    requires SettingsValid(s)
    requires requested.None? || requested.value >= 0
    ensures RequestedMax(requested, s) > 0
  {
  }

  function ReportFrames(events: seq<Progress>): seq<Frame>
  {
    seq(|events|, i requires 0 <= i < |events| => ProgressFrame(events[i].done, events[i].total, Message(events[i])))
  }

  function TerminalFrame(end: TaskEnd, twoFactor: bool): Frame {
    FrameOf(TerminalItem(end), twoFactor)
  }

  /**
   * What a client receives from one download: a progress frame per
   * provider report in order, then exactly one terminal frame; anything
   * queued after the terminal item is never streamed.
   */
  lemma {:induction false} StreamOfRun(events: seq<Progress>, end: TaskEnd, later: seq<Item>, twoFactor: bool)
    ensures Frames(ReportItems(events) + [TerminalItem(end)] + later, twoFactor)
            == ReportFrames(events) + [TerminalFrame(end, twoFactor)]
    ensures Unread(ReportItems(events) + [TerminalItem(end)] + later) == later
    decreases |events|
  {
    var items := ReportItems(events) + [TerminalItem(end)] + later;
    if events == [] {
      assert items == [TerminalItem(end)] + later;
      assert items[1..] == later;
    } else {
      var x := ReportItem(events[0]);
      var tail := ReportItems(events[1..]) + [TerminalItem(end)] + later;
      ReportsCons(events);
      ConsThrough(x, ReportItems(events[1..]), [TerminalItem(end)], later);
      FramesCons(items, twoFactor);
      assert items[1..] == tail;
      StreamOfRun(events[1..], end, later, twoFactor);
      assert FrameOf(x, twoFactor) == FrameOf(x, false);
      AppendAssoc([FrameOf(x, false)], ReportFrames(events[1..]), [TerminalFrame(end, twoFactor)]);
    }
  }

  lemma ConsThrough<T>(x: T, r: seq<T>, u: seq<T>, v: seq<T>)
    ensures ([x] + r) + u + v == [x] + (r + u + v)
    ensures ([x] + (r + u + v))[0] == x && ([x] + (r + u + v))[1..] == r + u + v
  {
  }

  lemma ReportsCons(events: seq<Progress>)
    requires events != []
    ensures ReportItems(events) == [ReportItem(events[0])] + ReportItems(events[1..])
    ensures ReportFrames(events) == [FrameOf(ReportItem(events[0]), false)] + ReportFrames(events[1..])
  {
    ReportItemsCons(events);
    ReportFramesCons(events);
  }

  lemma ReportItemsCons(events: seq<Progress>)
    requires events != []
    ensures ReportItems(events) == [ReportItem(events[0])] + ReportItems(events[1..])
  {
    var a := ReportItems(events);
    var b := [ReportItem(events[0])] + ReportItems(events[1..]);
    forall i | 0 <= i < |a| ensures a[i] == b[i] {
      if i > 0 {
        assert events[1..][i - 1] == events[i];
        assert b[i] == ReportItems(events[1..])[i - 1];
      }
    }
  }

  lemma ReportFramesCons(events: seq<Progress>)
    requires events != []
    ensures ReportFrames(events) == [FrameOf(ReportItem(events[0]), false)] + ReportFrames(events[1..])
  {
    var c := ReportFrames(events);
    var d := [FrameOf(ReportItem(events[0]), false)] + ReportFrames(events[1..]);
    forall i | 0 <= i < |c| ensures c[i] == d[i] {
      if i > 0 {
        assert events[1..][i - 1] == events[i];
        assert d[i] == ReportFrames(events[1..])[i - 1];
      }
    }
  }

  /** The frames of any queue holding a terminal item: progress frames, then one terminal frame last. */
  lemma {:induction false} StreamShape(items: seq<Item>, twoFactor: bool)
    requires HasTerminal(items)
    ensures var r := Frames(items, twoFactor);
            r != [] && !r[|r| - 1].ProgressFrame? && forall i :: 0 <= i < |r| - 1 ==> r[i].ProgressFrame?
  {
    if items[0].ProgressItem? {
      TerminalInTail(items);
      StreamShape(items[1..], twoFactor);
    }
  }

  /** A timeout is reported as "timeout", demanding a code only when the provider itself waits for one. */
  lemma TimeoutFrame(twoFactor: bool)
    ensures TerminalFrame(TimedOut, twoFactor) == ErrorFrame("timeout", twoFactor)
  {
    SessionProperties.NotContainsShort("timeout", "Code 2FA requis");
  }

  /** An error message carrying "Code 2FA requis" always asks the client for a code. */
  lemma TwoFactorMessageAsksForCode(prefix: string, suffix: string, twoFactor: bool)
    ensures Failure(prefix + "Code 2FA requis" + suffix, twoFactor).requiresOtp
  {
    ContainsInside(prefix, "Code 2FA requis", suffix);
  }

  lemma {:induction false} ContainsInside(prefix: string, sub: string, suffix: string)
    ensures Contains(prefix + sub + suffix, sub)
    decreases |prefix|
  {
    var s := prefix + sub + suffix;
    if prefix == [] {
      assert sub <= s;
    } else {
      assert s[1..] == prefix[1..] + sub + suffix;
      ContainsInside(prefix[1..], sub, suffix);
    }
  }

  /** How a provider run that beat the timeout ends: its result dictionary, or the exception it raised. */
  function EndOf(outcome: RunOutcome): TaskEnd {
    match outcome
    case Completed(count, files) => Finished(DownloadResult(count, Some(files)))
    case Failed(message) => Crashed(message)
  }

  /**
   * A download that reaches discovery streams one progress frame per
   * provider report, then a `done` frame whose count is the number of saved
   * files, with the matching message.
   */
  lemma CompletedDownloadStream(kind: Kind, entries: set<(string, string)>, page: Page, orders: seq<Order>, env: RunEnv,
                                c: Criteria, maxInvoices: int, force: bool, twoFactor: bool)
    ensures var s := AfterDiscovery(kind, entries, page, orders, env, c, maxInvoices, force);
            var files := s.outcome.files;
            Frames(ReportItems(s.events) + [TerminalItem(EndOf(s.outcome))], twoFactor)
            == ReportFrames(s.events) + [DoneFrame(true, IntToString(|files|) + " facture(s) téléchargée(s)", |files|, files)]
  {
    var s := AfterDiscovery(kind, entries, page, orders, env, c, maxInvoices, force);
    RunCompletedBounds(kind, entries, page, orders, env, c, maxInvoices, force);
    StreamOfRun(s.events, EndOf(s.outcome), [], twoFactor);
    assert ReportItems(s.events) + [TerminalItem(EndOf(s.outcome))] + [] == ReportItems(s.events) + [TerminalItem(EndOf(s.outcome))];
  }

  /** A failed run streams its error message alone: it reported no progress. */
  lemma FailedDownloadStream(kind: Kind, driverOpen: bool, page: Page, entries: set<(string, string)>, env: RunEnv,
                             c: Criteria, maxInvoices: int, force: bool, twoFactor: bool)
    ensures var s := RunSpec(kind, driverOpen, page, entries, env, c, maxInvoices, force);
            s.outcome.Failed? ==>
              Frames(ReportItems(s.events) + [TerminalItem(EndOf(s.outcome))], twoFactor)
              == [ErrorFrame(s.outcome.message, Contains(s.outcome.message, "Code 2FA requis") || twoFactor)]
  {
    var s := RunSpec(kind, driverOpen, page, entries, env, c, maxInvoices, force);
    RunFailures(kind, driverOpen, page, entries, env, c, maxInvoices, force);
    if s.outcome.Failed? {
      var m := s.outcome.message;
      assert m != [];
      assert s.events == [];
      ErrorStream(m, twoFactor);
    }
  }

  lemma ErrorStream(m: string, twoFactor: bool)
    requires m != []
    ensures Frames(ReportItems([]) + [TerminalItem(Crashed(m))], twoFactor)
            == [ErrorFrame(m, Contains(m, "Code 2FA requis") || twoFactor)]
  {
    assert ReportItems([]) + [TerminalItem(Crashed(m))] == [ErrorItem(m)];
  }
}
