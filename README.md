# Get-Invoices: the Free Mobile and Freebox invoice downloaders

Get-Invoices is a small web service that logs into customer portals with a
scripted browser and downloads invoice PDFs. This project is a Dafny model
of two of its providers and of the HTTP layer that drives them:

- `backend/providers/free_mobile.py` and `backend/providers/freebox.py`. These are
  the two portal scrapers. Each one logs in, finds the invoice links on the portal
  pages, reads an invoice date from each link's title or URL, filters by the
  requested dates, and downloads every PDF whose order id is not yet in the
  provider's registry.
- `backend/main.py`. This is the HTTP layer. It validates the settings and
  registers providers at start-up. It lists providers, dispatches a download
  request to a provider or refuses it, and turns the run's progress queue into
  server-sent event frames.

Both scrapers are one `Provider` class in the model. It is parameterised by
`Orders.Kind` (`FreeMobile` or `Freebox`), and it branches on the kind wherever
the two files differ. Its fields are the state the Python objects mutate: the
browser's liveness and current page, the progress callbacks emitted so far,
and the registry of downloaded ids.

Whatever the browser shows is a value. A `Discovery.Page` holds the URL, the
page source, whether a password field is visible, the links each CSS selector
finds, and the anchors and `data-*` elements the fallbacks scan. The network,
`urljoin`, `hash` and `strptime` are parameters of the operations.

Every method is proved against a specification function, for example
`Run.RunSpec` for a whole `download_invoices` run or `Discovery.ListedOrders`
for `list_orders_or_invoices`. The properties the sources promise are lemmas
about those functions.

Module layout:

| file | modules | models |
|---|---|---|
| `wrappers.dfy` | `Wrappers` | `Option` |
| `text.dfy` | `Text` | `lower`, `strip`, `in`, `str(n)`, `re.sub` of a character class |
| `orders.dfy` | `Orders` | provider kinds, dates, `OrderInfo` |
| `invoice_date.dfy` | `InvoiceDate` | the title and URL date parsers |
| `date_filter.dfy` | `DateFilter` | `_filter_orders_by_date` |
| `discovery.dfy` | `Discovery`, `DiscoveryProperties` | `list_orders_or_invoices`, `list_orders_or_invoices_from_all_lines` |
| `download.dfy` | `Download`, `DownloadProperties` | `_download_pdf` and `download_invoice`'s decision |
| `session.dfy` | `Session`, `SessionProperties` | `_is_logged_in`, `login`, Freebox `navigate_to_invoices` |
| `run.dfy` | `Run`, `RunProperties` | `download_invoices` as a function |
| `provider.dfy` | `Providers` | the provider objects and the registry, as classes |
| `api.dfy` | `Api`, `ApiProperties` | `validate_settings`, start-up, `list_providers`, the download endpoint and its event stream |

Behaviour of the code that the model keeps as written:

- Free Mobile is implemented and labelled, but start-up never registers it.
  A download request for `free_mobile` therefore always gets status 503
  (`ApiProperties.FreeMobileNeverServed`).
- A provider id made only of whitespace normalises to `""`. That id is then
  looked up as `"amazon"` (`ApiProperties.BlankIdNormalizesToEmpty`).
- The Free Mobile fallbacks apply different exclusions from its selector
  strategy. The anchor-text fallback does not test for `deconnexion`, but it
  drops every href starting with `#`, where the selectors drop only `#`
  itself. The `data-*` fallback excludes only empty hrefs and hrefs containing
  `logout`.
- `re.search` reports only the leftmost match of each pattern. When that match
  is out of range, the parsers do not look for a later match. For example, a
  title `"99/2024 ... 03/2024"` yields no date.
- When `max_invoices` is negative, `total` is negative and nothing is
  downloaded.
- An undated file name is `free_mobile_<id>.pdf` or `freebox_<id>.pdf`, cut to
  80 characters. A long order id therefore loses the `.pdf` extension
  (`DownloadProperties.UndatedNameMayLoseExtension`).

## Model

| member | source | states |
|---|---|---|
| Text.LowerChar | backend/providers/free_mobile.py:136 | folding keeps digits and whitespace, maps exactly the ASCII letters to lower-case ASCII letters, and never yields an upper-case ASCII letter |
| Text.Lower | backend/providers/free_mobile.py:136 | `lower()` keeps the length, leaves no upper-case ASCII letter, gives a string that folding leaves alone, and leaves a string with nothing to fold unchanged |
| Text.Strip | backend/providers/free_mobile.py:563 | the stripped string is a slice of the input with only whitespace cut off on either side, and it neither starts nor ends with whitespace |
| Text.TrimStartCuts | backend/providers/free_mobile.py:563 | `lstrip()` keeps a suffix and cuts off only whitespace |
| Text.TrimEndCuts | backend/providers/free_mobile.py:563 | `rstrip()` keeps a prefix and cuts off only whitespace |
| Text.SanitizeSafe | backend/providers/free_mobile.py:660 | the result keeps the length, holds only characters of the kept class, replaces each character by itself or `_`, keeps every character of the class, and leaves an already safe string unchanged |
| Text.Take | backend/providers/free_mobile.py:664 | `s[:n]` is a prefix of `s`: `s` itself when it has at most `n` elements, and exactly `n` elements otherwise |
| Text.NatToString | backend/providers/free_mobile.py:467 | the decimal rendering is a non-empty string of digits that reads back as the number, with no leading zero |
| Text.ZeroPad | backend/providers/free_mobile.py:661 | the padded rendering is all digits, reads back as the number, is at least as wide as asked, and is the plain rendering when that is already wider |
| Text.ZeroPadLength | backend/providers/free_mobile.py:661 | a number below `10^width` is padded to exactly `width` digits |
| InvoiceDate.SearchIsLeftmost | backend/providers/free_mobile.py:485 | `re.search` finds the leftmost matching position and finds none exactly when no position matches |
| InvoiceDate.AcceptNumeric | backend/providers/free_mobile.py:493-509 | a numeric match becomes the first of its month only when the year is in 2000..2100 and the month in 1..12 |
| InvoiceDate.ParseTitle | backend/providers/free_mobile.py:480-510 | an empty title gives no date, and every date found is the first of a month in range |
| InvoiceDate.TitleDateWitnessed | backend/providers/free_mobile.py:480-510 | a title date comes from a French month name followed by a year, or from a `YYYY-MM` match, or, for Free Mobile only, from an `MM/YYYY` match |
| InvoiceDate.MonthNameFormNone | backend/providers/free_mobile.py:484-492 | the month-name loop finds nothing exactly when no entry's leftmost match gives an in-range year |
| InvoiceDate.MonthNameFormFinds | backend/providers/free_mobile.py:484-492 | the month-name loop returns the date of the first table entry that gives one |
| InvoiceDate.TitleMonthNameFound | backend/providers/free_mobile.py:484-492 | a month name with an in-range year at its leftmost occurrence, after no earlier table entry gave a date, is the title's date for both providers |
| InvoiceDate.TitleYearMonthFound | backend/providers/free_mobile.py:493-500 | when no month name gives a date, the leftmost in-range `YYYY-M` or `YYYY/M` is the title's date for both providers |
| InvoiceDate.TitleMonthYearFound | backend/providers/free_mobile.py:501-509 | when neither earlier form gives a date, the leftmost in-range `M/YYYY` is Free Mobile's date, and Freebox finds none |
| InvoiceDate.FreeboxTitleFormsAreFewer | backend/providers/freebox.py:308-332 | Freebox reads the same forms as Free Mobile except `MM/YYYY`, which Free Mobile tries last |
| InvoiceDate.ParseUrl | backend/providers/free_mobile.py:512-535 | an empty URL gives no date, and every date found is the first of a month in range |
| InvoiceDate.UrlDateWitnessed | backend/providers/free_mobile.py:512-535 | a URL date comes from a separated `YYYY/MM` segment, or from a `year=` query with a `month=` query or January |
| InvoiceDate.UrlSegmentFound | backend/providers/free_mobile.py:516-524 | the leftmost separated `YYYY/MM` segment, when in range, is the URL's date |
| InvoiceDate.UrlQueryFound | backend/providers/free_mobile.py:525-534 | without a segment date, the leftmost in-range `year=` with the leftmost `month=` in 1..12 gives that month of that year |
| InvoiceDate.UrlExamples | backend/providers/free_mobile.py:513 | `.../2026/02/` and `?year=2026&month=2` both give February 2026 |
| InvoiceDate.UrlSegmentNeedsSeparators | backend/providers/free_mobile.py:517 | a URL segment match has a separator before and after the year and ends after one or two month digits |
| InvoiceDate.UrlMonthDefaultsToJanuary | backend/providers/free_mobile.py:525-534 | a `year=` query with no usable `month=` query gives January of that year |
| InvoiceDate.DateFromTitleAndUrl | backend/providers/free_mobile.py:537-539 | the combined date is always the first of a month in range |
| InvoiceDate.UrlConsultedOnlyWithoutTitleDate | backend/providers/free_mobile.py:537-539 | the URL is ignored when the title has a date, and decides alone when it has none |
| DateFilter.Keep | backend/providers/free_mobile.py:628-630 | a list comprehension never lengthens the list |
| DateFilter.FilterOrdersByDate | backend/providers/free_mobile.py:610-640 | the loop computes the filter function `Filtered` for every criteria branch |
| DateFilter.SelectByFields | backend/providers/free_mobile.py:631-640 | the loop keeps exactly the orders whose year and month equal the given ones |
| DateFilter.KeepAppend | backend/providers/free_mobile.py:628-630 | filtering distributes over concatenation |
| DateFilter.KeepIsSubsequence | backend/providers/free_mobile.py:628-630 | a comprehension keeps a subsequence of its input, in order |
| DateFilter.KeepMembers | backend/providers/free_mobile.py:628-630 | an order is kept exactly when it is in the input and passes the test |
| DateFilter.FilterIsSubsequence | backend/providers/freebox.py:372-403 | the date filter returns a subsequence of the orders |
| DateFilter.FilterMembers | backend/providers/freebox.py:372-403 | an order survives exactly when it is listed and either no constraint applies or it passes the selected branch |
| DateFilter.FilterDropsDateless | backend/providers/free_mobile.py:622-640 | once any constraint applies, every surviving order has a date |
| DateFilter.MonthSetExample | backend/providers/free_mobile.py:629-630 | a year with months [11, 12] keeps November and December of that year and drops January of the next |
| Discovery.SelectorCandidates | backend/providers/free_mobile.py:561-571 | one candidate per link found, keyed by the link's stripped href; an accepted one is not empty and does not mention `logout`, and for Free Mobile is not `#` and does not mention `deconnexion` |
| Discovery.TextCandidates | backend/providers/free_mobile.py:581-586 | one candidate per anchor, keyed by its stripped href; an accepted one is not empty, does not start with `#`, does not mention `logout`, and the anchor's text names a download, a PDF or an invoice |
| Discovery.DataCandidates | backend/providers/free_mobile.py:596-598 | one candidate per element, keyed by its first non-empty `data-href`, `data-url` or `data-pdf-url`, stripped; an accepted one is not empty and does not mention `logout` |
| Discovery.Bucket | backend/providers/free_mobile.py:575 | `hash(href) % 100000` lies in 0..99999 |
| Discovery.Scan | backend/providers/free_mobile.py:559-572 | the kept positions are increasing, accepted, and have hrefs not seen before |
| Discovery.ScanDistinct | backend/providers/free_mobile.py:566-572 | no two kept candidates share an href |
| Discovery.ScanComplete | backend/providers/free_mobile.py:566-572 | every accepted href not seen before is kept |
| Discovery.Collect | backend/providers/free_mobile.py:560-576 | the loop over one strategy's elements returns exactly the orders `Kept` describes |
| Discovery.TrySelectors | backend/providers/freebox.py:351-369 | the loop over selectors returns the orders of the first selector that yields any |
| Discovery.Discover | backend/providers/free_mobile.py:541-608 | `list_orders_or_invoices` tries the selectors, then the Free Mobile fallbacks in order, and returns `ListedOrders` |
| Discovery.CollectOne | backend/providers/free_mobile.py:458-468 | one listed order becomes an order of the union when its absolute URL is new, and the URL is then marked seen |
| Discovery.CollectLine | backend/providers/free_mobile.py:450-472 | one line's orders are merged into the union as `LineUnion` describes |
| Discovery.CollectAllLines | backend/providers/free_mobile.py:431-478 | the loop over lines returns `UnionFrom` over every line, skipping lines that could not be opened |
| DiscoveryProperties.SelectorPhaseFirstWins | backend/providers/free_mobile.py:560-578 | every selector before the first productive one yields nothing, and the phase returns that selector's orders, or nothing when none is productive |
| DiscoveryProperties.ScannedOrdersClean | backend/providers/free_mobile.py:559-578 | every discovered order comes from an accepted element, and no two come from the same href |
| DiscoveryProperties.SelectorOrdersAccepted | backend/providers/freebox.py:351-369 | a selector's orders come from accepted, pairwise distinct links, each with the id of its position |
| DiscoveryProperties.FreeMobileSkipsLogoutLinks | backend/providers/free_mobile.py:563-564 | no Free Mobile selector keeps a link whose href mentions `deconnexion` or `logout` (the anchor-text fallback may keep a `deconnexion` link) |
| DiscoveryProperties.LogoutLinksNeverKept | backend/providers/free_mobile.py:563-598 | no strategy of either provider keeps an element whose href mentions `logout`; the anchor-text fallback also keeps no href starting with `#` |
| DiscoveryProperties.NumberedIdDeterminesNumber | backend/providers/free_mobile.py:575 | an id `<prefix><n>_<rest>` determines its number `n` |
| DiscoveryProperties.KeptIdsDistinct | backend/providers/free_mobile.py:575-603 | the orders one strategy lists have pairwise different ids, since their numbers differ |
| DiscoveryProperties.LaterSelectorsIgnored | backend/providers/freebox.py:351-369 | once a selector yields orders, what later selectors or fallbacks would find does not matter |
| DiscoveryProperties.PrefixDecides | backend/providers/freebox.py:351-369 | two pages that agree on the selectors up to a productive one give the same non-empty result |
| DiscoveryProperties.LineUnionFresh | backend/providers/free_mobile.py:458-468 | the orders a line adds have distinct URLs not seen before, and the seen set grows by exactly that line's URLs |
| DiscoveryProperties.UnionFromFresh | backend/providers/free_mobile.py:448-472 | the union of the remaining lines has distinct, unseen URLs covering exactly those lines' URLs |
| DiscoveryProperties.AllLinesUnion | backend/providers/free_mobile.py:431-478 | the orders of all lines have pairwise distinct URLs, and their URL set is the union of every line's URLs |
| DiscoveryProperties.LineUnionFirst | backend/providers/free_mobile.py:458-468 | every order a line adds has an unseen URL and comes from the first entry of that line with that URL, whose date it carries |
| DiscoveryProperties.FirstOccurrenceKept | backend/providers/free_mobile.py:448-478 | every order of the union comes from the first line listing its URL and that line's first entry with it, and carries that line's index and that entry's date |
| Download.DownloadOutcome | backend/providers/free_mobile.py:671-692 | `download_invoice`: skipped when registered and not forced, nothing without a URL, otherwise the saved name when the response is a PDF |
| DownloadProperties.MagicChecksAgree | backend/providers/freebox.py:420 | the two providers' `%PDF` signature tests accept the same bodies |
| DownloadProperties.PdfResponseCases | backend/providers/free_mobile.py:650-669 | a non-200 response is rejected, a body starting with `%PDF` that is written is accepted, a failed write loses even a PDF, and a response with no `pdf` content type and no signature is rejected |
| DownloadProperties.FileNameSafe | backend/providers/free_mobile.py:658-664 | every file name has at most 80 characters, all of them word characters, `-` or `.` |
| DownloadProperties.IsoDateShape | backend/providers/free_mobile.py:661 | `isoformat()` of a valid date is ten digits and dashes |
| DownloadProperties.DatedFileName | backend/providers/free_mobile.py:659-661 | a dated name is `<provider>_<iso date>_<short id>.pdf` with a short id of at most 30 characters, at most 57 characters in all, and ends in `.pdf` |
| DownloadProperties.UndatedNameMayLoseExtension | backend/providers/free_mobile.py:662-664 | some order id makes the undated name lose its `.pdf` extension |
| DownloadProperties.RegisteredIsSkipped | backend/providers/free_mobile.py:680-681 | a registered id is not downloaded again unless forced |
| DownloadProperties.DownloadNeedsPdf | backend/providers/freebox.py:435-456 | a file is saved exactly when it is forced or unregistered, has a URL and gets a PDF response that is written; a target that is neither an order nor a string is never downloaded; the name is the provider's file name |
| Session.LoginFailure | backend/providers/free_mobile.py:250-262 | a failed login raises only for Free Mobile and only on a network error, with the fixed network message, and otherwise returns `False` |
| SessionProperties.FreeMobileNeedsPortalUrl | backend/providers/free_mobile.py:129-143 | Free Mobile is logged in only with a live driver on a `mobile.free.fr` page, and always is there when no password field is visible |
| SessionProperties.FreeboxLoggedInCases | backend/providers/freebox.py:132-150 | Freebox is logged in exactly on a portal URL whose body does not say `session invalide` and does not show a visible password field together with `se connecter` |
| SessionProperties.BlankPageNotLoggedIn | backend/providers/free_mobile.py:129-134 | a freshly started browser is never logged in |
| SessionProperties.LoginOutcomes | backend/providers/free_mobile.py:145-151 | an already logged-in session returns `True` without navigating, and a `True` result always leaves a logged-in page |
| SessionProperties.LoginRaisesOnlyOnNetworkErrors | backend/providers/freebox.py:273-275 | only Free Mobile raises, only with the network message and only when starting the driver or the form threw a network error; Freebox always returns |
| SessionProperties.FailedLoginKeepsReachedPage | backend/providers/free_mobile.py:153-262 | a login that threw or found no form keeps the driver open on the page it reached, returns `False` unless it raises, and a later login succeeds at once when that page is logged in |
| SessionProperties.DnsFailureIsNetworkError | backend/providers/free_mobile.py:251-260 | a DNS failure during the Free Mobile login raises the network message |
| SessionProperties.FirstLoggedIn | backend/providers/freebox.py:287-305 | the index found is the first billing path whose page is logged in |
| SessionProperties.NavigatePathsFirstLoggedIn | backend/providers/freebox.py:287-306 | the walk stops at the first logged-in billing path, stays there when it lists invoices and otherwise follows the invoice link, and fails on the last path when no path is logged in |
| SessionProperties.NavigateShortcuts | backend/providers/freebox.py:277-286 | with no driver navigation fails at once, and a logged-in `free.fr` page that already lists invoices is kept |
| Run.LoopSkip | backend/providers/free_mobile.py:752-768 | a turn that saves nothing reports one attempt and leaves count and registry alone |
| Run.LoopSaved | backend/providers/free_mobile.py:762-778 | a turn that saves a file appends it, reports the attempt and the success, and registers the id |
| Run.LoopDone | backend/providers/free_mobile.py:752-754 | the loop ends when the orders run out or the count reaches `max_invoices` |
| RunProperties.LoopCap | backend/providers/free_mobile.py:749-781 | the loop saves at most one file per order, never lets the count pass `max_invoices`, and does nothing once it is reached |
| RunProperties.LoopProgress | backend/providers/free_mobile.py:755-778 | the progress calls are an attempt per turn at the current count, each save followed by a success at the new count, all with the same total |
| RunProperties.SkipDoesNotConsumeCap | backend/providers/free_mobile.py:680-681 | a registered order costs one attempt report and no slot of the cap |
| RunProperties.AtMostOncePerId | backend/providers/free_mobile.py:680-691 | without forcing, every saved file adds a new registry key, so no id is downloaded twice |
| RunProperties.RerunDownloadsNothing | backend/providers/free_mobile.py:680-681 | a rerun over already-registered orders saves nothing and leaves the registry unchanged |
| RunProperties.RegistryKeysFromOrders | backend/providers/free_mobile.py:691 | every new registry key is the key of one of the orders |
| RunProperties.ToDownloadCases | backend/providers/free_mobile.py:738-747 | Free Mobile downloads all orders when the filter leaves nothing and none has a date; otherwise both providers download the filtered orders |
| RunProperties.FallbackOnlyWithoutDates | backend/providers/free_mobile.py:739-747 | the unfiltered fallback happens only when orders exist, none is dated and the filter left nothing |
| RunProperties.RunCompletedBounds | backend/providers/free_mobile.py:718-781 | a run that discovers orders completes with a count equal to the number of files, at most `max_invoices` and at most the number of orders to download, every progress call carries the total `min(len(to_download), max_invoices)`, and no orders means `{count: 0, files: []}` with no progress |
| RunProperties.RunCompletedTotals | backend/providers/free_mobile.py:694-781 | a whole completed run's count is at most the number of orders to download and at most a non-negative cap, and every progress call carries `min(len(to_download), max_invoices)` |
| RunProperties.RunFailures | backend/providers/freebox.py:458-475 | a failed run reports no progress, changes no registry entry and fails with the login, navigation or network message |
| RunProperties.FindFailure | backend/providers/free_mobile.py:709-717 | discovery fails only with the provider's navigation message and then yields no orders |
| RunProperties.FailedLoginStopsRun | backend/providers/free_mobile.py:706-708 | a login returning `False` makes the run fail with the provider's login message |
| Providers.Registry.IsDownloaded | backend/providers/free_mobile.py:680 | the registry answers whether the provider and id pair is recorded |
| Providers.Registry.Add | backend/providers/free_mobile.py:691 | recording adds the pair and keeps every other entry |
| Providers.Provider.constructor | backend/providers/free_mobile.py:63-87 | a new provider has no driver, a blank page and no progress |
| Providers.Provider.Login | backend/providers/free_mobile.py:145-262 | the result, driver and page after `login` are those `LoginSpec` gives (a form that threw or was not found leaves the page the browser reached), and a `True` result leaves the provider logged in |
| Providers.Provider.Close | backend/providers/freebox.py:535-538 | the driver stays open only when it was open and the browser is to be kept open |
| Providers.Provider.ListOrders | backend/providers/freebox.py:334-370 | listing gives `ListedOrders` of the current page, or nothing without a driver |
| Providers.Provider.ListOrdersFromAllLines | backend/providers/free_mobile.py:431-478 | collecting across lines gives the union over every line when logged in, and nothing otherwise |
| Providers.Provider.NavigateToInvoices | backend/providers/freebox.py:277-306 | Freebox navigation ends on the page and with the result `NavigateSpec` gives |
| Providers.Provider.VisitBillingPaths | backend/providers/freebox.py:287-306 | the loop over billing paths ends as `NavigatePaths` describes |
| Providers.Provider.DownloadInvoice | backend/providers/free_mobile.py:671-692 | the saved name is `DownloadOutcome`, and the id is registered exactly when a file is saved |
| Providers.Provider.DownloadStep | backend/providers/free_mobile.py:753-779 | one turn of the loop: the download's outcome, the registry update and the one or two progress calls |
| Providers.Provider.DownloadAll | backend/providers/free_mobile.py:749-781 | the loop's files, progress calls and registry are those of `RunLoop` |
| Providers.Provider.FindOrders | backend/providers/free_mobile.py:709-723 | discovery after login yields the failure, orders and page of `FindSpec` |
| Providers.Provider.DownloadFound | backend/providers/free_mobile.py:718-781 | filtering and downloading the found orders give the outcome, progress and registry of `AfterDiscovery` |
| Providers.Provider.DownloadInvoices | backend/providers/free_mobile.py:694-781 | a whole run's outcome, progress, registry, driver and page are those of `RunSpec` |
| Providers.CountDated | backend/providers/free_mobile.py:738 | the number of dated orders is at most the number of orders, and is zero exactly when none is dated |
| Api.ValidateSettings | backend/main.py:63-100 | validation raises exactly when some rule is broken, with a message listing every broken rule in order |
| Api.CheckRule | backend/main.py:67-96 | each check appends its message exactly when its rule is broken |
| Api.ReportedEmpty | backend/main.py:98-100 | nothing is reported exactly when no rule is broken |
| ApiProperties.ViolationsExact | backend/main.py:63-96 | a rule's message is reported exactly when that rule is broken |
| ApiProperties.ReportInjective | backend/main.py:67-96 | distinct rules never report the same violation |
| ApiProperties.ValidSettingsListAmazon | backend/main.py:255-261 | valid settings make Amazon listed as configured |
| Api.StartupDownloaders | backend/main.py:152-202 | start-up registers only Amazon and Freebox, and Freebox exactly when both its credentials are set and it starts |
| ApiProperties.FreeMobileNeverServed | backend/main.py:152-202 | a download request for `free_mobile` always gets status 503 |
| Api.ListProviders | backend/main.py:248-269 | one entry per label, in label order, implemented exactly for ids in `PROVIDERS`, configured as the credentials or a running downloader say |
| Api.NormalizeId | backend/main.py:300 | the normalised id has no upper-case ASCII letter and no edge whitespace |
| ApiProperties.NormalizeTwice | backend/main.py:235 | normalising a non-empty id again changes nothing |
| ApiProperties.BlankIdNormalizesToEmpty | backend/main.py:300-301 | a blank provider id normalises to `""`, which the downloader lookup then turns into `"amazon"` |
| ApiProperties.DispatchCases | backend/main.py:300-311 | a request starts exactly when its id is registered; otherwise it is refused with 501 exactly for labelled ids that are not implemented, and with 503 for the rest |
| ApiProperties.NotImplementedOnlyForLabelled | backend/main.py:303-307 | status 501 only happens for a labelled id that is not implemented |
| ApiProperties.RequestedMaxPositive | backend/main.py:322 | with valid settings and a non-negative request, the cap passed to the provider is positive |
| Api.Queue.Put | backend/main.py:315-316 | a put appends the item at the back of the queue |
| Api.Queue.Get | backend/main.py:351 | a get removes and returns the front item |
| Api.RunDownload | backend/main.py:318-341 | the task queues one progress item per callback, then exactly one terminal item |
| Api.NextFrame | backend/main.py:350-372 | one step of the stream turns the front item into its frame and says whether it was terminal |
| Api.EventStream | backend/main.py:349-373 | the stream emits `Frames` of the queue, up to and including the first terminal item, and leaves the rest unread |
| Api.TerminalInTail | backend/main.py:350-372 | a queue holding a terminal item still holds one after a progress item is read |
| ApiProperties.StreamShape | backend/main.py:349-373 | the stream is progress frames followed by exactly one final done or error frame |
| ApiProperties.StreamOfRun | backend/main.py:318-373 | a run's queue streams one progress frame per callback and then its terminal frame, and nothing queued later is read |
| ApiProperties.CompletedDownloadStream | backend/main.py:357-366 | a completed run ends its stream with `success`, the message `<count> facture(s) téléchargée(s)`, the count and the files |
| ApiProperties.FailedDownloadStream | backend/main.py:367-372 | a failed run streams exactly one error frame with its message, asking for a code when it mentions `Code 2FA requis` or the provider needs one |
| ApiProperties.ErrorStream | backend/main.py:337-341 | an exception's message becomes the stream's only frame |
| ApiProperties.TimeoutFrame | backend/main.py:335-336 | a timeout ends the stream with the error `timeout` |
| ApiProperties.TwoFactorMessageAsksForCode | backend/main.py:369 | an error mentioning `Code 2FA requis` always asks for a code |

## Left out

- Browser automation is not modelled: Selenium and driver set-up, finding and filling the login form, clicks, waits and `time.sleep`. A login attempt is an input (`Session.LoginFlow`) that says whether the form threw, was not found, or was submitted onto a given page.
- Free Mobile's navigation is an input. This covers `navigate_to_invoices`, `_click_conso_et_factures_if_present`, `_click_mes_factures_tab`, `_expand_mes_lignes_if_needed` and `_get_line_entries`. The model receives the invoice page of each line, or none when opening it raised, and the page `navigate_to_invoices` reaches.
- The debug, status and one-time-password endpoints are not modelled, and neither are `submit_otp` or `_save_debug_page`. `is_2fa_required` is an input of the event stream.
- Logging is not modelled.
- `urllib.parse.urljoin` is the `join` parameter of `Discovery.Resolver`.
- Python's `hash` is salted per process, so it is the `hash` parameter of `Discovery.Resolver`. Its `% 100000` is modelled.
- `datetime.strptime` is a parameter of the date filter.
- The HTTP session and its `GET` are the `fetch` parameter. Whether writing the body succeeds is part of what `fetch` gives (`Download.Fetch`); the file itself is not modelled.
- Discovery.ListedOrders: an exception raised by the browser in the middle of `list_orders_or_invoices` makes the Python code return the orders collected so far; the model has no such mid-loop failure, since the page is a value.
- `backend/services/invoice_registry.py` is not part of this model. The registry is the set of recorded provider and id pairs; its file persistence and the stored file name and date are left out.
- Text.Lower: `str.lower` is modelled for ASCII and Latin-1 capitals only. `\d` and `\w` are ASCII classes. `\s`, `str.isspace` and `str.strip()` use Python's full whitespace set (`Text.IsSpace`).
- Orders.ValidDate does not refine the day bound per month. Invoice dates always fall on day 1.
- asyncio, the task and the download timeout are not modelled. A timeout is one of the ways a task ends (`Api.TaskEnd`).
- Api.Queue.Get requires a non-empty queue instead of blocking.
- JSON encoding, the SSE byte format and FastAPI's response objects are not modelled. Frames are values.
- The Amazon provider is not modelled. Its start-up success is an input of `Api.StartupDownloaders`.
- The shutdown loop that closes every provider is not modelled.
- Settings fields that are only passed through to the providers are not modelled (paths, headless mode, browser profiles). They are kept only where validation or listing reads them.
