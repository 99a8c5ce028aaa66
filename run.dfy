/**
 * The download loop and the whole `download_invoices` run of a provider, as
 * functions of the provider's state and of everything the browser and the
 * network answer.
 */
module Run {
  import opened Wrappers
  import opened Text
  import opened Orders
  import opened DateFilter
  import opened Discovery
  import opened Download
  import opened Session

  /**
   * One `on_progress(done, total, message)` call: before trying the next
   * invoice, or after a successful download with the new count.
   */
  datatype Progress = Attempt(done: nat, total: int) | Success(done: nat, total: int)

  /** The message passed with each report. */
  function Message(p: Progress): string {
    match p
    case Attempt(done, total) => "Téléchargement facture " + NatToString(done + 1) + "/" + IntToString(total) + "…"
    case Success(done, total) => NatToString(done) + "/" + IntToString(total) + " facture(s) téléchargée(s)"
  }

  /** The registry key of an order id. */
  function Key(kind: Kind, id: string): (string, string) {
    (ProviderId(kind), id)
  }

  /** What the download loop produces: the saved names, the progress reports and the registry afterwards. */
  datatype LoopResult = LoopResult(files: seq<string>, events: seq<Progress>, entries: set<(string, string)>)

  /**
   * The `for` loop of `download_invoices` over `orders`, with `count`
   * downloads done so far and `entries` in the registry: it stops once
   * `count` reaches `maxInvoices`, reports an attempt before each download
   * and a success after each one that returns a name.
   */
  function RunLoop(kind: Kind, entries: set<(string, string)>, orders: seq<Order>, maxInvoices: int, total: int,
                   force: bool, fetch: string -> Fetch, count: nat): LoopResult
    decreases |orders|
  {
    if orders == [] || count >= maxInvoices then LoopResult([], [], entries)
    else
      var o := orders[0];
      var fn := DownloadOutcome(kind, Key(kind, o.id) in entries, ByOrder(o), o.id, o.date, force, fetch);
      if fn.None? then
        var rest := RunLoop(kind, entries, orders[1..], maxInvoices, total, force, fetch, count);
        LoopResult(rest.files, [Attempt(count, total)] + rest.events, rest.entries)
      else
        var rest := RunLoop(kind, entries + {Key(kind, o.id)}, orders[1..], maxInvoices, total, force, fetch, count + 1);
        LoopResult([fn.value] + rest.files, [Attempt(count, total), Success(count + 1, total)] + rest.events, rest.entries)
  }

  /** `prefix` of the loop's output is done and `RunLoop(.., xs, .., count)` is what remains to produce `full`. */
  ghost predicate LoopSplit(full: LoopResult, files: seq<string>, events: seq<Progress>, kind: Kind, entries: set<(string, string)>,
                            xs: seq<Order>, maxInvoices: int, total: int, force: bool, fetch: string -> Fetch, count: nat) {
    var rest := RunLoop(kind, entries, xs, maxInvoices, total, force, fetch, count);
    full.files == files + rest.files && full.events == events + rest.events && full.entries == rest.entries
  }

  /** Before the first turn nothing is done and the whole loop remains. */
  lemma LoopStart(kind: Kind, entries: set<(string, string)>, xs: seq<Order>, maxInvoices: int, total: int,
                  force: bool, fetch: string -> Fetch)
    ensures LoopSplit(RunLoop(kind, entries, xs, maxInvoices, total, force, fetch, 0), [], [], kind, entries, xs, maxInvoices, total, force, fetch, 0)
  {
    var full := RunLoop(kind, entries, xs, maxInvoices, total, force, fetch, 0);
    assert [] + full.files == full.files && [] + full.events == full.events;
  }

  /** A turn whose download yields nothing: one attempt reported, nothing else done. */
  lemma LoopSkip(full: LoopResult, files: seq<string>, events: seq<Progress>, kind: Kind, entries: set<(string, string)>,
                 xs: seq<Order>, maxInvoices: int, total: int, force: bool, fetch: string -> Fetch, count: nat)
    requires LoopSplit(full, files, events, kind, entries, xs, maxInvoices, total, force, fetch, count)
    requires xs != [] && count < maxInvoices
    requires DownloadOutcome(kind, Key(kind, xs[0].id) in entries, ByOrder(xs[0]), xs[0].id, xs[0].date, force, fetch).None?
    ensures LoopSplit(full, files, events + [Attempt(count, total)], kind, entries, xs[1..], maxInvoices, total, force, fetch, count)
  {
    var rest := RunLoop(kind, entries, xs[1..], maxInvoices, total, force, fetch, count);
    RunLoopSkips(kind, entries, xs, maxInvoices, total, force, fetch, count);
    AppendAssoc(events, [Attempt(count, total)], rest.events);
  }

  lemma RunLoopSkips(kind: Kind, entries: set<(string, string)>, xs: seq<Order>, maxInvoices: int, total: int,
                     force: bool, fetch: string -> Fetch, count: nat)
    requires xs != [] && count < maxInvoices
    requires DownloadOutcome(kind, Key(kind, xs[0].id) in entries, ByOrder(xs[0]), xs[0].id, xs[0].date, force, fetch).None?
    ensures var rest := RunLoop(kind, entries, xs[1..], maxInvoices, total, force, fetch, count);
            RunLoop(kind, entries, xs, maxInvoices, total, force, fetch, count) == LoopResult(rest.files, [Attempt(count, total)] + rest.events, rest.entries)
  {
  }

  lemma RunLoopSaves(kind: Kind, entries: set<(string, string)>, xs: seq<Order>, maxInvoices: int, total: int,
                     force: bool, fetch: string -> Fetch, count: nat, name: string)
    requires xs != [] && count < maxInvoices
    requires DownloadOutcome(kind, Key(kind, xs[0].id) in entries, ByOrder(xs[0]), xs[0].id, xs[0].date, force, fetch) == Some(name)
    ensures var rest := RunLoop(kind, entries + {Key(kind, xs[0].id)}, xs[1..], maxInvoices, total, force, fetch, count + 1);
            RunLoop(kind, entries, xs, maxInvoices, total, force, fetch, count) ==
            LoopResult([name] + rest.files, [Attempt(count, total), Success(count + 1, total)] + rest.events, rest.entries)
  {
  }

  /** A turn whose download saves `name`: the name, an attempt and a success reported, the id registered. */
  lemma LoopSaved(full: LoopResult, files: seq<string>, events: seq<Progress>, kind: Kind, entries: set<(string, string)>,
                  xs: seq<Order>, maxInvoices: int, total: int, force: bool, fetch: string -> Fetch, count: nat, name: string)
    requires LoopSplit(full, files, events, kind, entries, xs, maxInvoices, total, force, fetch, count)
    requires xs != [] && count < maxInvoices
    requires DownloadOutcome(kind, Key(kind, xs[0].id) in entries, ByOrder(xs[0]), xs[0].id, xs[0].date, force, fetch) == Some(name)
    ensures LoopSplit(full, files + [name], events + [Attempt(count, total), Success(count + 1, total)],
                      kind, entries + {Key(kind, xs[0].id)}, xs[1..], maxInvoices, total, force, fetch, count + 1)
  {
    var rest := RunLoop(kind, entries + {Key(kind, xs[0].id)}, xs[1..], maxInvoices, total, force, fetch, count + 1);
    RunLoopSaves(kind, entries, xs, maxInvoices, total, force, fetch, count, name);
    AppendAssoc(files, [name], rest.files);
    AppendAssoc(events, [Attempt(count, total), Success(count + 1, total)], rest.events);
  }

  /** Once the orders run out or the cap is reached, what is done is the whole loop. */
  lemma LoopDone(full: LoopResult, files: seq<string>, events: seq<Progress>, kind: Kind, entries: set<(string, string)>,
                 xs: seq<Order>, maxInvoices: int, total: int, force: bool, fetch: string -> Fetch, count: nat)
    requires LoopSplit(full, files, events, kind, entries, xs, maxInvoices, total, force, fetch, count)
    requires xs == [] || count >= maxInvoices
    ensures full == LoopResult(files, events, entries)
  {
    assert files + [] == files && events + [] == events;
  }

  /** Everything a run consults besides the provider's own state. */
  datatype RunEnv = RunEnv(
    setupError: Option<string>,   // the browser failed to start, with this message
    flow: LoginFlow,              // how the login form goes
    lines: seq<Option<Page>>,     // Free Mobile: the invoice tab of each line, None when opening it raised
    mobileNav: Option<Page>,      // Free Mobile `navigate_to_invoices`: the page reached, None when it returns False
    browser: Browser,             // Freebox navigation
    res: Resolver,
    fetch: string -> Fetch,
    strptime: string -> Option<Date>)

  /** What `download_invoices` does for its caller: raise with a message, or return `{"count", "files"}`. */
  datatype RunOutcome = Failed(message: string) | Completed(count: int, files: seq<string>)

  function LoginFailedMessage(kind: Kind): string {
    match kind
    case FreeMobile => "Échec de la connexion à l'espace Free Mobile"
    case Freebox => "Échec de la connexion à l'espace Freebox"
  }

  function NavigationFailedMessage(kind: Kind): string {
    match kind
    case FreeMobile => "Impossible d'accéder à la page des factures Free Mobile"
    case Freebox => "Impossible d'accéder à la page des factures Freebox"
  }

  /** The provider's state a run reads and leaves, besides the registry. */
  datatype RunState = RunState(outcome: RunOutcome, events: seq<Progress>, entries: set<(string, string)>, driverOpen: bool, page: Page)

  /** No order carries a recognised date. */
  predicate NoneDated(orders: seq<Order>) {
    forall i :: 0 <= i < |orders| ==> orders[i].date.None?
  }

  /**
   * The orders to download: the filter's result, except that Free Mobile
   * falls back to every discovered order when the filter leaves nothing and
   * no order has a date.
   */
  function ToDownload(kind: Kind, orders: seq<Order>, c: Criteria, strptime: string -> Option<Date>): seq<Order> {
    var filtered := Filtered(orders, c, strptime);
    if kind == FreeMobile && filtered == [] && orders != [] && NoneDated(orders) then orders else filtered
  }

  /** The run once discovery produced `orders` on page `page`. */
  function AfterDiscovery(kind: Kind, entries: set<(string, string)>, page: Page, orders: seq<Order>, env: RunEnv,
                          c: Criteria, maxInvoices: int, force: bool): RunState {
    if orders == [] then RunState(Completed(0, []), [], entries, true, page)
    else
      var todo := ToDownload(kind, orders, c, env.strptime);
      var total := if |todo| <= maxInvoices then |todo| else maxInvoices;
      var loop := RunLoop(kind, entries, todo, maxInvoices, total, force, env.fetch, 0);
      RunState(Completed(|loop.files|, loop.files), loop.events, loop.entries, true, page)
  }

  /** What discovery leaves: a failure message or the discovered orders, and the page the browser shows. */
  datatype Found = Found(failure: Option<string>, orders: seq<Order>, page: Page)

  /**
   * Discovery once logged in on `page`: Free Mobile gathers the orders of
   * all its lines and, when that finds nothing, lists its invoices page
   * (failing when that page cannot be reached); Freebox navigates to its
   * invoices page (failing when it cannot) and lists it.
   */
  function FindSpec(kind: Kind, page: Page, env: RunEnv): Found {
    match kind
    case FreeMobile =>
      var all := UnionFrom(env.res, env.lines, 0, {});
      if all != [] then Found(None, all, page)
      else if env.mobileNav.None? then Found(Some(NavigationFailedMessage(kind)), [], page)
      else Found(None, ListedOrders(kind, env.res, env.mobileNav.value), env.mobileNav.value)
    case Freebox =>
      var nav := NavigateSpec(env.res, env.browser, true, page);
      if !nav.0 then Found(Some(NavigationFailedMessage(kind)), [], nav.1)
      else Found(None, ListedOrders(kind, env.res, nav.1), nav.1)
  }

  /**
   * `download_invoices`: log in (failing with the provider's message, or the
   * network error), discover the orders, filter them and run the download
   * loop with `total = min(len(filtered), max_invoices)`.
   */
  function RunSpec(kind: Kind, driverOpen: bool, page: Page, entries: set<(string, string)>, env: RunEnv,
                   c: Criteria, maxInvoices: int, force: bool): RunState {
    var ls := LoginSpec(kind, driverOpen, page, env.setupError, env.flow);
    if ls.result.Raised? then RunState(Failed(ls.result.message), [], entries, ls.driverOpen, ls.page)
    else if !ls.result.ok then RunState(Failed(LoginFailedMessage(kind)), [], entries, ls.driverOpen, ls.page)
    else
      var f := FindSpec(kind, ls.page, env);
      if f.failure.Some? then RunState(Failed(f.failure.value), [], entries, true, f.page)
      else AfterDiscovery(kind, entries, f.page, f.orders, env, c, maxInvoices, force)
  }
}

module RunProperties {
  import opened Wrappers
  import opened Text
  import opened Orders
  import opened DateFilter
  import opened Discovery
  import opened Download
  import opened Session
  import opened SessionProperties
  import opened Run

  /**
   * The loop never downloads more than there are orders, never lets the
   * count pass the cap, and does nothing once the cap is reached.
   */
  lemma {:induction false} LoopCap(kind: Kind, entries: set<(string, string)>, orders: seq<Order>, maxInvoices: int, total: int,
                                   force: bool, fetch: string -> Fetch, count: nat)
    ensures var r := RunLoop(kind, entries, orders, maxInvoices, total, force, fetch, count);
            |r.files| <= |orders| && (count <= maxInvoices ==> count + |r.files| <= maxInvoices) &&
            (count >= maxInvoices ==> r.files == [] && r.events == [] && r.entries == entries)
    decreases |orders|
  {
    if orders != [] && count < maxInvoices {
      var o := orders[0];
      var fn := DownloadOutcome(kind, Key(kind, o.id) in entries, ByOrder(o), o.id, o.date, force, fetch);
      if fn.None? {
        LoopCap(kind, entries, orders[1..], maxInvoices, total, force, fetch, count);
      } else {
        LoopCap(kind, entries + {Key(kind, o.id)}, orders[1..], maxInvoices, total, force, fetch, count + 1);
      }
    }
  }

  /**
   * The shape of the progress reports, starting at `count` and ending at
   * `final`: each report is an attempt at the current count, and a success
   * report right after an attempt carries the count plus one.
   */
  predicate ProgressTrace(ev: seq<Progress>, count: nat, final: nat, total: int)
    decreases |ev|
  {
    if ev == [] then final == count
    else if |ev| >= 2 && ev[1].Success? then
      ev[0] == Attempt(count, total) && ev[1] == Success(count + 1, total) && ProgressTrace(ev[2..], count + 1, final, total)
    else
      ev[0] == Attempt(count, total) && ProgressTrace(ev[1..], count, final, total)
  }

  lemma TraceAttempt(rest: seq<Progress>, count: nat, final: nat, total: int)
    requires ProgressTrace(rest, count, final, total)
    ensures ProgressTrace([Attempt(count, total)] + rest, count, final, total)
  {
    var ev := [Attempt(count, total)] + rest;
    assert ev[1..] == rest;
  }

  lemma TraceSuccess(rest: seq<Progress>, count: nat, final: nat, total: int)
    requires ProgressTrace(rest, count + 1, final, total)
    ensures ProgressTrace([Attempt(count, total), Success(count + 1, total)] + rest, count, final, total)
  {
    var ev := [Attempt(count, total), Success(count + 1, total)] + rest;
    assert ev[2..] == rest;
  }

  /** The reports of a loop started at `count` follow that shape and end at `count` plus the number of saved files. */
  predicate TraceOf(r: LoopResult, count: nat, total: int) {
    ProgressTrace(r.events, count, count + |r.files|, total)
  }

  lemma TraceSaved(rest: LoopResult, name: string, count: nat, total: int)
    requires TraceOf(rest, count + 1, total)
    ensures TraceOf(LoopResult([name] + rest.files, [Attempt(count, total), Success(count + 1, total)] + rest.events, rest.entries), count, total)
  {
    TraceSuccess(rest.events, count, count + 1 + |rest.files|, total);
  }

  /** The loop's reports follow that shape, and the number of success reports is the number of saved files. */
  lemma {:induction false} LoopProgress(kind: Kind, entries: set<(string, string)>, orders: seq<Order>, maxInvoices: int, total: int,
                                        force: bool, fetch: string -> Fetch, count: nat)
    ensures TraceOf(RunLoop(kind, entries, orders, maxInvoices, total, force, fetch, count), count, total)
    decreases |orders|, 1
  {
    if orders != [] && count < maxInvoices {
      var o := orders[0];
      if DownloadOutcome(kind, Key(kind, o.id) in entries, ByOrder(o), o.id, o.date, force, fetch).None? {
        LoopProgressSkip(kind, entries, orders, maxInvoices, total, force, fetch, count);
      } else {
        LoopProgressSaved(kind, entries, orders, maxInvoices, total, force, fetch, count);
      }
    }
  }

  lemma {:induction false} LoopProgressSkip(kind: Kind, entries: set<(string, string)>, orders: seq<Order>, maxInvoices: int, total: int,
                                            force: bool, fetch: string -> Fetch, count: nat)
    requires orders != [] && count < maxInvoices
    requires DownloadOutcome(kind, Key(kind, orders[0].id) in entries, ByOrder(orders[0]), orders[0].id, orders[0].date, force, fetch).None?
    ensures TraceOf(RunLoop(kind, entries, orders, maxInvoices, total, force, fetch, count), count, total)
    decreases |orders|, 0
  {
    var rest := RunLoop(kind, entries, orders[1..], maxInvoices, total, force, fetch, count);
    LoopProgress(kind, entries, orders[1..], maxInvoices, total, force, fetch, count);
    TraceAttempt(rest.events, count, count + |rest.files|, total);
  }

  lemma {:induction false} LoopProgressSaved(kind: Kind, entries: set<(string, string)>, orders: seq<Order>, maxInvoices: int, total: int,
                                             force: bool, fetch: string -> Fetch, count: nat)
    requires orders != [] && count < maxInvoices
    requires DownloadOutcome(kind, Key(kind, orders[0].id) in entries, ByOrder(orders[0]), orders[0].id, orders[0].date, force, fetch).Some?
    ensures TraceOf(RunLoop(kind, entries, orders, maxInvoices, total, force, fetch, count), count, total)
    decreases |orders|, 0
  {
    var e1 := entries + {Key(kind, orders[0].id)};
    var rest := RunLoop(kind, e1, orders[1..], maxInvoices, total, force, fetch, count + 1);
    var name := DownloadOutcome(kind, Key(kind, orders[0].id) in entries, ByOrder(orders[0]), orders[0].id, orders[0].date, force, fetch).value;
    var r := RunLoop(kind, entries, orders, maxInvoices, total, force, fetch, count);
    assert r == LoopResult([name] + rest.files, [Attempt(count, total), Success(count + 1, total)] + rest.events, rest.entries);
    LoopProgress(kind, e1, orders[1..], maxInvoices, total, force, fetch, count + 1);
    TraceSaved(rest, name, count, total);
  }

  /** An order already in the registry (without `force`) costs an attempt report but neither a download nor a place under the cap. */
  lemma SkipDoesNotConsumeCap(kind: Kind, entries: set<(string, string)>, orders: seq<Order>, maxInvoices: int, total: int,
                              fetch: string -> Fetch, count: nat)
    requires orders != [] && count < maxInvoices && Key(kind, orders[0].id) in entries
    ensures var r := RunLoop(kind, entries, orders, maxInvoices, total, false, fetch, count);
            var rest := RunLoop(kind, entries, orders[1..], maxInvoices, total, false, fetch, count);
            r.files == rest.files && r.entries == rest.entries && r.events == [Attempt(count, total)] + rest.events
  {
  }

  /**
   * Without `force`, every saved file adds a new key to the registry: the
   * registry only grows, and by exactly as many keys as files were saved.
   */
  lemma {:induction false} AtMostOncePerId(kind: Kind, entries: set<(string, string)>, orders: seq<Order>, maxInvoices: int, total: int,
                                           fetch: string -> Fetch, count: nat)
    ensures var r := RunLoop(kind, entries, orders, maxInvoices, total, false, fetch, count);
            entries <= r.entries && |r.files| == |r.entries - entries|
    decreases |orders|
  {
    if orders != [] && count < maxInvoices {
      var o := orders[0];
      var k := Key(kind, o.id);
      var fn := DownloadOutcome(kind, k in entries, ByOrder(o), o.id, o.date, false, fetch);
      if fn.None? {
        AtMostOncePerId(kind, entries, orders[1..], maxInvoices, total, fetch, count);
      } else {
        assert k !in entries;
        var e1 := entries + {k};
        var rest := RunLoop(kind, e1, orders[1..], maxInvoices, total, false, fetch, count + 1);
        AtMostOncePerId(kind, e1, orders[1..], maxInvoices, total, fetch, count + 1);
        assert rest.entries - entries == (rest.entries - e1) + {k};
        assert k !in rest.entries - e1;
      }
    }
  }

  /** Running again over orders that are all registered downloads nothing and leaves the registry as it is. */
  lemma RerunDownloadsNothing(kind: Kind, entries: set<(string, string)>, orders: seq<Order>, maxInvoices: int, total: int,
                              fetch: string -> Fetch, count: nat)
    requires forall i :: 0 <= i < |orders| ==> Key(kind, orders[i].id) in entries
    ensures RunLoop(kind, entries, orders, maxInvoices, total, false, fetch, count).files == []
    ensures RunLoop(kind, entries, orders, maxInvoices, total, false, fetch, count).entries == entries
  {
    var r := RunLoop(kind, entries, orders, maxInvoices, total, false, fetch, count);
    AtMostOncePerId(kind, entries, orders, maxInvoices, total, fetch, count);
    RegistryKeysFromOrders(kind, entries, orders, maxInvoices, total, false, fetch, count);
    assert r.entries - entries == {};
    assert r.entries == entries;
  }

  ghost predicate KeyOfSome(kind: Kind, e: (string, string), orders: seq<Order>) {
    exists i :: 0 <= i < |orders| && e == Key(kind, orders[i].id)
  }

  /** Every key the loop adds to the registry is the key of one of its orders. */
  lemma {:induction false} RegistryKeysFromOrders(kind: Kind, entries: set<(string, string)>, orders: seq<Order>, maxInvoices: int, total: int,
                                                  force: bool, fetch: string -> Fetch, count: nat)
    ensures var r := RunLoop(kind, entries, orders, maxInvoices, total, force, fetch, count);
            forall e :: e in r.entries - entries ==> KeyOfSome(kind, e, orders)
    decreases |orders|
  {
    if orders != [] && count < maxInvoices {
      var o := orders[0];
      var fn := DownloadOutcome(kind, Key(kind, o.id) in entries, ByOrder(o), o.id, o.date, force, fetch);
      var e1 := if fn.None? then entries else entries + {Key(kind, o.id)};
      var c1 := if fn.None? then count else count + 1;
      RegistryKeysFromOrders(kind, e1, orders[1..], maxInvoices, total, force, fetch, c1);
      var r := RunLoop(kind, entries, orders, maxInvoices, total, force, fetch, count);
      assert r.entries == RunLoop(kind, e1, orders[1..], maxInvoices, total, force, fetch, c1).entries;
      forall e | e in r.entries - entries ensures KeyOfSome(kind, e, orders) {
        if e in e1 {
          assert e == Key(kind, orders[0].id);
        } else {
          assert e in RunLoop(kind, e1, orders[1..], maxInvoices, total, force, fetch, c1).entries - e1;
          assert KeyOfSome(kind, e, orders[1..]);
          var i :| 0 <= i < |orders[1..]| && e == Key(kind, orders[1..][i].id);
          assert orders[1..][i] == orders[i + 1];
        }
      }
    }
  }

  /**
   * Free Mobile downloads every discovered order when the filter leaves
   * nothing and no order has a date; Freebox always downloads the filter's
   * result, even an empty one.
   */
  lemma ToDownloadCases(orders: seq<Order>, c: Criteria, strptime: string -> Option<Date>)
    ensures Filtered(orders, c, strptime) == [] && NoneDated(orders) ==> ToDownload(FreeMobile, orders, c, strptime) == orders
    ensures (exists i :: 0 <= i < |orders| && orders[i].date.Some?) ==>
              ToDownload(FreeMobile, orders, c, strptime) == Filtered(orders, c, strptime)
    ensures ToDownload(Freebox, orders, c, strptime) == Filtered(orders, c, strptime)
  {
  }

  /** A dated order never survives the Free Mobile fallback unless the filter selected it: the fallback only applies when no order has a date. */
  lemma FallbackOnlyWithoutDates(orders: seq<Order>, c: Criteria, strptime: string -> Option<Date>)
    requires ToDownload(FreeMobile, orders, c, strptime) != Filtered(orders, c, strptime)
    ensures NoneDated(orders) && Filtered(orders, c, strptime) == [] && orders != []
  {
  }

  /** Every report of a trace carries the same `total`. */
  lemma {:induction false} TraceTotals(ev: seq<Progress>, count: nat, final: nat, total: int)
    requires ProgressTrace(ev, count, final, total)
    ensures forall i :: 0 <= i < |ev| ==> ev[i].total == total
    decreases |ev|
  {
    if ev != [] {
      if |ev| >= 2 && ev[1].Success? {
        TraceTotals(ev[2..], count + 1, final, total);
        assert forall i :: 2 <= i < |ev| ==> ev[i] == ev[2..][i - 2];
      } else {
        TraceTotals(ev[1..], count, final, total);
        assert forall i :: 1 <= i < |ev| ==> ev[i] == ev[1..][i - 1];
      }
    }
  }

  /**
   * A run that completes reports `count == len(files)`, with `count` at most
   * the number of orders to download and at most the cap; every progress
   * report carries `total = min(len(to_download), max_invoices)`; and nothing
   * at all is done when discovery found no order.
   */
  lemma RunCompletedBounds(kind: Kind, entries: set<(string, string)>, page: Page, orders: seq<Order>, env: RunEnv,
                           c: Criteria, maxInvoices: int, force: bool)
    ensures var s := AfterDiscovery(kind, entries, page, orders, env, c, maxInvoices, force);
            s.outcome.Completed? && s.outcome.count == |s.outcome.files| &&
            (maxInvoices >= 0 ==> s.outcome.count <= maxInvoices) &&
            (orders == [] ==> s.outcome == Completed(0, []) && s.events == [] && s.entries == entries)
    ensures var s := AfterDiscovery(kind, entries, page, orders, env, c, maxInvoices, force);
            var todo := ToDownload(kind, orders, c, env.strptime);
            var total := if |todo| <= maxInvoices then |todo| else maxInvoices;
            s.outcome.count <= |todo| && (maxInvoices >= 0 ==> s.outcome.count <= total) &&
            forall i :: 0 <= i < |s.events| ==> s.events[i].total == total
  {
    if orders != [] {
      var todo := ToDownload(kind, orders, c, env.strptime);
      var total := if |todo| <= maxInvoices then |todo| else maxInvoices;
      var loop := RunLoop(kind, entries, todo, maxInvoices, total, force, env.fetch, 0);
      LoopCap(kind, entries, todo, maxInvoices, total, force, env.fetch, 0);
      LoopProgress(kind, entries, todo, maxInvoices, total, force, env.fetch, 0);
      TraceTotals(loop.events, 0, |loop.files|, total);
    }
  }

  /**
   * At the level of a whole run: a completed run's count is at most the
   * number of orders left to download after discovery and filtering, and
   * every progress report carries `total = min(len(to_download),
   * max_invoices)`.
   */
  lemma RunCompletedTotals(kind: Kind, driverOpen: bool, page: Page, entries: set<(string, string)>, env: RunEnv,
                           c: Criteria, maxInvoices: int, force: bool)
    ensures var s := RunSpec(kind, driverOpen, page, entries, env, c, maxInvoices, force);
            var f := FindSpec(kind, LoginSpec(kind, driverOpen, page, env.setupError, env.flow).page, env);
            var todo := ToDownload(kind, f.orders, c, env.strptime);
            var total := if |todo| <= maxInvoices then |todo| else maxInvoices;
            s.outcome.Completed? ==>
              s.outcome.count == |s.outcome.files| && s.outcome.count <= |todo| &&
              (maxInvoices >= 0 ==> s.outcome.count <= total) &&
              forall i :: 0 <= i < |s.events| ==> s.events[i].total == total
  {
    var ls := LoginSpec(kind, driverOpen, page, env.setupError, env.flow);
    var f := FindSpec(kind, ls.page, env);
    if ls.result == Returned(true) && f.failure.None? {
      RunCompletedBounds(kind, entries, f.page, f.orders, env, c, maxInvoices, force);
    }
  }

  /**
   * A run fails only with the provider's login message, its navigation
   * message, or (Free Mobile) the network message, and a failed run reports
   * no progress and leaves the registry unchanged.
   */
  lemma RunFailures(kind: Kind, driverOpen: bool, page: Page, entries: set<(string, string)>, env: RunEnv,
                    c: Criteria, maxInvoices: int, force: bool)
    ensures var s := RunSpec(kind, driverOpen, page, entries, env, c, maxInvoices, force);
            s.outcome.Failed? ==>
              s.events == [] && s.entries == entries &&
              (s.outcome.message == LoginFailedMessage(kind) || s.outcome.message == NavigationFailedMessage(kind) ||
               (kind == FreeMobile && s.outcome.message == NetworkErrorMessage))
  {
    var ls := LoginSpec(kind, driverOpen, page, env.setupError, env.flow);
    var s := RunSpec(kind, driverOpen, page, entries, env, c, maxInvoices, force);
    LoginRaisesOnlyOnNetworkErrors(kind, driverOpen, page, env.setupError, env.flow);
    if ls.result.Raised? {
      assert s == RunState(Failed(ls.result.message), [], entries, ls.driverOpen, ls.page);
    } else if !ls.result.ok {
      assert s == RunState(Failed(LoginFailedMessage(kind)), [], entries, ls.driverOpen, ls.page);
    } else {
      var f := FindSpec(kind, ls.page, env);
      FindFailure(kind, ls.page, env);
      if f.failure.None? {
        assert s == AfterDiscovery(kind, entries, f.page, f.orders, env, c, maxInvoices, force);
        RunCompletedBounds(kind, entries, f.page, f.orders, env, c, maxInvoices, force);
      } else {
        assert s == RunState(Failed(f.failure.value), [], entries, true, f.page);
      }
    }
  }

  /** Discovery fails only with the provider's navigation message. */
  lemma FindFailure(kind: Kind, page: Page, env: RunEnv)
    ensures var f := FindSpec(kind, page, env);
            f.failure.Some? ==> f.failure.value == NavigationFailedMessage(kind) && f.orders == []
  {
  }

  /** A login that does not succeed ends the run before any discovery or download. */
  lemma FailedLoginStopsRun(kind: Kind, driverOpen: bool, page: Page, entries: set<(string, string)>, env: RunEnv,
                            c: Criteria, maxInvoices: int, force: bool)
    requires LoginSpec(kind, driverOpen, page, env.setupError, env.flow).result == Returned(false)
    ensures RunSpec(kind, driverOpen, page, entries, env, c, maxInvoices, force).outcome == Failed(LoginFailedMessage(kind))
  {
  }
}
