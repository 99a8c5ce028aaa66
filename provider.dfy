/**
 * The provider objects: the registry of downloaded invoices and a provider
 * holding its browser session, with the operations that change them.
 */
module Providers {
  import opened Wrappers
  import opened Text
  import opened Orders
  import opened DateFilter
  import opened Discovery
  import opened Download
  import opened Session
  import opened SessionProperties
  import opened Run

  /** The already-downloaded store, reduced to its `(provider, id)` keys. */
  class Registry {
    var entries: set<(string, string)>

    constructor (initial: set<(string, string)>)
      ensures entries == initial
    {
      entries := initial;
    }

    /** `is_downloaded` */
    method IsDownloaded(provider: string, id: string) returns (b: bool)
      ensures b <==> (provider, id) in entries
    {
      b := (provider, id) in entries;
    }

    /** `add` (the file name and the date it also records are not modelled) */
    method Add(provider: string, id: string)
      modifies this
      ensures entries == old(entries) + {(provider, id)}
    {
      entries := entries + {(provider, id)};
    }
  }

  /**
   * A Free Mobile or Freebox provider: whether its browser is open
   * (`self.driver`), the page the browser shows, its registry, and the
   * progress reports it has made.
   */
  class Provider {
    const kind: Kind
    const keepBrowserOpen: bool
    const registry: Registry
    var driverOpen: bool
    var page: Page
    ghost var progress: seq<Progress>

    constructor (kind: Kind, keepBrowserOpen: bool, registry: Registry)
      ensures this.kind == kind && this.keepBrowserOpen == keepBrowserOpen && this.registry == registry
      ensures !driverOpen && page == BlankPage && progress == []
    {
      this.kind := kind;
      this.keepBrowserOpen := keepBrowserOpen;
      this.registry := registry;
      driverOpen := false;
      page := BlankPage;
      progress := [];
    }

    /** `_is_logged_in` */
    predicate LoggedIn()
      reads this
    {
      IsLoggedIn(kind, driverOpen, page)
    }

    /** `login`: the browser is started if needed, and the result and page follow `LoginSpec`. */
    method Login(setupError: Option<string>, flow: LoginFlow) returns (r: LoginResult)
      modifies this
      ensures LoginState(r, driverOpen, page) == LoginSpec(kind, old(driverOpen), old(page), setupError, flow)
      ensures progress == old(progress)
      ensures r == Returned(true) ==> LoggedIn()
    {
      if !driverOpen {
        if setupError.Some? {
          r := LoginFailure(kind, setupError.value);
          return;
        }
        driverOpen := true;
        page := BlankPage;
      }
      if LoggedIn() {
        r := Returned(true);
        return;
      }
      match flow {
        case Threw(m, shown) =>
          page := shown;
          r := LoginFailure(kind, m);
        case NoForm(shown) =>
          page := shown;
          r := Returned(false);
        case Submitted(after) =>
          page := after;
          r := Returned(LoggedIn());
      }
    }

    /** `close`: the browser is shut (and forgotten) unless it is to be kept open. */
    method Close()
      modifies this
      ensures driverOpen == (old(driverOpen) && keepBrowserOpen)
      ensures page == old(page) && progress == old(progress)
    {
      if driverOpen && !keepBrowserOpen {
        driverOpen := false;
      }
    }

    /** `list_orders_or_invoices` on the page shown; nothing without a browser. */
    method ListOrders(res: Resolver) returns (out: seq<Order>)
      ensures out == if driverOpen then ListedOrders(kind, res, page) else []
    {
      if !driverOpen {
        return [];
      }
      out := Discover(kind, res, page);
    }

    /** Free Mobile `list_orders_or_invoices_from_all_lines`: nothing unless logged in. */
    method ListOrdersFromAllLines(res: Resolver, lines: seq<Option<Page>>) returns (out: seq<Order>)
      requires kind == FreeMobile
      ensures out == if LoggedIn() then UnionFrom(res, lines, 0, {}) else []
    {
      if !LoggedIn() {
        return [];
      }
      out := CollectAllLines(res, lines);
    }

    /** Freebox `navigate_to_invoices`: the shortcut on the current page, then the billing paths in order. */
    method NavigateToInvoices(res: Resolver, b: Browser) returns (ok: bool)
      requires kind == Freebox
      modifies this
      ensures (ok, page) == NavigateSpec(res, b, old(driverOpen), old(page))
      ensures driverOpen == old(driverOpen) && progress == old(progress)
    {
      if !driverOpen {
        return false;
      }
      if LoggedIn() && Contains(page.url, "free.fr") {
        var already := ListOrders(res);
        if already != [] {
          return true;
        }
      }
      ok := VisitBillingPaths(res, b);
    }

    /** The path loop of `navigate_to_invoices`: stop at the first billing page where the session is logged in. */
    method VisitBillingPaths(res: Resolver, b: Browser) returns (ok: bool)
      requires kind == Freebox && driverOpen
      modifies this
      ensures (ok, page) == NavigatePaths(res, b, 0, old(page))
      ensures driverOpen == old(driverOpen) && progress == old(progress)
    {
      var k := 0;
      while k < |FreeboxBillingPaths|
        invariant 0 <= k <= |FreeboxBillingPaths|
        invariant driverOpen && progress == old(progress)
        invariant NavigatePaths(res, b, 0, old(page)) == NavigatePaths(res, b, k, page)
      {
        ghost var rest := NavigatePaths(res, b, k, page);
        var p := b.load(FreeboxBaseUrl + FreeboxBillingPaths[k]);
        assert p == PathPage(b, k);
        page := p;
        if LoggedIn() {
          var already := ListOrders(res);
          assert rest == if already != [] then (true, p) else (true, b.follow(p));
          if already == [] {
            page := b.follow(page);
          }
          return true;
        }
        assert rest == NavigatePaths(res, b, k + 1, p);
        k := k + 1;
      }
      ok := LoggedIn();
    }

    /**
     * `download_invoice`: skip a registered id unless forced, find the URL,
     * fetch it, and record the id in the registry exactly when a file name
     * comes back.
     */
    method DownloadInvoice(target: Target, orderId: string, date: Option<Date>, force: bool, fetch: string -> Fetch)
      returns (r: Option<string>)
      modifies registry
      ensures r == DownloadOutcome(kind, Key(kind, EffectiveId(target, orderId)) in old(registry.entries), target, orderId, date, force, fetch)
      ensures registry.entries == if r.Some? then old(registry.entries) + {Key(kind, EffectiveId(target, orderId))} else old(registry.entries)
    {
      var oid := if orderId != "" then orderId else match target case ByOrder(o) => o.id case ByRef(s) => s case ByOther(t) => t;
      if !force {
        var seen := registry.IsDownloaded(ProviderId(kind), oid);
        if seen {
          return None;
        }
      }
      var url: Option<string> := None;
      if target.ByOrder? && target.order.url != "" {
        url := Some(target.order.url);
      }
      if url.None? && target.ByRef? && StartsWith(target.ref, "http") {
        url := Some(target.ref);
      }
      if url.None? {
        return None;
      }
      r := SavedName(kind, fetch(url.value), oid, date);
      if r.Some? {
        registry.Add(ProviderId(kind), oid);
      }
    }

    /**
     * The download loop of `download_invoices`: stops once `count` reaches
     * the cap, reports before each attempt and after each success.
     */
    method DownloadAll(todo: seq<Order>, maxInvoices: int, total: int, force: bool, fetch: string -> Fetch)
      returns (files: seq<string>)
      modifies this, registry
      ensures var loop := RunLoop(kind, old(registry.entries), todo, maxInvoices, total, force, fetch, 0);
              files == loop.files && progress == old(progress) + loop.events && registry.entries == loop.entries
      ensures driverOpen == old(driverOpen) && page == old(page)
    {
      ghost var full := RunLoop(kind, registry.entries, todo, maxInvoices, total, force, fetch, 0);
      ghost var p0 := progress;
      ghost var ev: seq<Progress> := [];
      LoopStart(kind, registry.entries, todo, maxInvoices, total, force, fetch);
      files := [];
      var count: nat := 0;
      var rest := todo;
      while rest != []
        invariant driverOpen == old(driverOpen) && page == old(page)
        invariant Midway(full, p0, files, ev, rest, maxInvoices, total, force, fetch, count)
      {
        if count >= maxInvoices {
          break;
        }
        files, ev, count := DownloadTurn(full, p0, files, ev, rest, maxInvoices, total, force, fetch, count);
        rest := rest[1..];
      }
      LoopDone(full, files, ev, kind, registry.entries, rest, maxInvoices, total, force, fetch, count);
    }

    /**
     * The download loop is under way: `files` and the reports `ev` (made
     * since `p0`) are what it has produced, and running it on `xs` from
     * `count` produces the rest of `full`.
     */
    ghost predicate Midway(full: LoopResult, p0: seq<Progress>, files: seq<string>, ev: seq<Progress>, xs: seq<Order>,
                           maxInvoices: int, total: int, force: bool, fetch: string -> Fetch, count: nat)
      reads this, registry
    {
      count == |files| && progress == p0 + ev &&
      LoopSplit(full, files, ev, kind, registry.entries, xs, maxInvoices, total, force, fetch, count)
    }

    /** One turn of the download loop, with what remains of the loop's output moving from `xs` to `xs[1..]`. */
    method DownloadTurn(ghost full: LoopResult, ghost p0: seq<Progress>, files: seq<string>, ghost ev: seq<Progress>, xs: seq<Order>,
                        maxInvoices: int, total: int, force: bool, fetch: string -> Fetch, count: nat)
      returns (files': seq<string>, ghost ev': seq<Progress>, count': nat)
      requires xs != [] && count < maxInvoices
      requires Midway(full, p0, files, ev, xs, maxInvoices, total, force, fetch, count)
      modifies this, registry
      ensures Midway(full, p0, files', ev', xs[1..], maxInvoices, total, force, fetch, count')
      ensures driverOpen == old(driverOpen) && page == old(page)
    {
      var o := xs[0];
      ghost var before := registry.entries;
      var fn := DownloadStep(o, count, total, force, fetch);
      if fn.Some? {
        LoopSaved(full, files, ev, kind, before, xs, maxInvoices, total, force, fetch, count, fn.value);
        ev' := ev + [Attempt(count, total), Success(count + 1, total)];
        files' := files + [fn.value];
        count' := count + 1;
      } else {
        LoopSkip(full, files, ev, kind, before, xs, maxInvoices, total, force, fetch, count);
        ev' := ev + [Attempt(count, total)];
        files' := files;
        count' := count;
      }
    }

    /** One turn of the download loop: report the attempt, download, and on success report the new count. */
    method DownloadStep(o: Order, count: nat, total: int, force: bool, fetch: string -> Fetch) returns (fn: Option<string>)
      modifies this, registry
      ensures fn == DownloadOutcome(kind, Key(kind, o.id) in old(registry.entries), ByOrder(o), o.id, o.date, force, fetch)
      ensures registry.entries == if fn.Some? then old(registry.entries) + {Key(kind, o.id)} else old(registry.entries)
      ensures progress == old(progress) + if fn.Some? then [Attempt(count, total), Success(count + 1, total)] else [Attempt(count, total)]
      ensures driverOpen == old(driverOpen) && page == old(page)
    {
      progress := progress + [Attempt(count, total)];
      fn := DownloadInvoice(ByOrder(o), o.id, o.date, force, fetch);
      if fn.Some? {
        progress := progress + [Success(count + 1, total)];
      }
    }

    /**
     * `download_invoices`: log in, discover the orders, filter them (with
     * Free Mobile's fallback to every order when none has a date), and run
     * the download loop.
     */
    method DownloadInvoices(env: RunEnv, c: Criteria, maxInvoices: int, force: bool) returns (r: RunOutcome)
      modifies this, registry
      ensures var s := RunSpec(kind, old(driverOpen), old(page), old(registry.entries), env, c, maxInvoices, force);
              r == s.outcome && progress == old(progress) + s.events && registry.entries == s.entries &&
              driverOpen == s.driverOpen && page == s.page
    {
      var lr := Login(env.setupError, env.flow);
      if lr.Raised? {
        return Failed(lr.message);
      }
      if !lr.ok {
        return Failed(LoginFailedMessage(kind));
      }
      var failure, orders := FindOrders(env);
      if failure.Some? {
        return Failed(failure.value);
      }
      r := DownloadFound(orders, env, c, maxInvoices, force);
    }

    /** The discovery part of `download_invoices`, once logged in. */
    method FindOrders(env: RunEnv) returns (failure: Option<string>, orders: seq<Order>)
      requires LoggedIn()
      modifies this
      ensures var f := FindSpec(kind, old(page), env);
              failure == f.failure && orders == f.orders && page == f.page
      ensures driverOpen == old(driverOpen) && progress == old(progress)
    {
      failure := None;
      if kind == FreeMobile {
        orders := ListOrdersFromAllLines(env.res, env.lines);
        if orders == [] {
          if env.mobileNav.None? {
            return Some(NavigationFailedMessage(kind)), [];
          }
          page := env.mobileNav.value;
          orders := ListOrders(env.res);
        }
      } else {
        var ok := NavigateToInvoices(env.res, env.browser);
        if !ok {
          return Some(NavigationFailedMessage(kind)), [];
        }
        orders := ListOrders(env.res);
      }
    }

    /** The part of `download_invoices` after discovery: filter, fall back, download. */
    method DownloadFound(orders: seq<Order>, env: RunEnv, c: Criteria, maxInvoices: int, force: bool) returns (r: RunOutcome)
      modifies this, registry
      ensures var s := AfterDiscovery(kind, old(registry.entries), old(page), orders, env, c, maxInvoices, force);
              r == s.outcome && progress == old(progress) + s.events && registry.entries == s.entries &&
              page == s.page && driverOpen == old(driverOpen)
    {
      if orders == [] {
        return Completed(0, []);
      }
      var todo := FilterOrdersByDate(orders, c, env.strptime);
      if kind == FreeMobile && todo == [] {
        var withDate := CountDated(orders);
        if withDate == 0 {
          todo := orders;
        }
      }
      assert todo == ToDownload(kind, orders, c, env.strptime);
      var total := if |todo| <= maxInvoices then |todo| else maxInvoices;
      var files := DownloadAll(todo, maxInvoices, total, force, env.fetch);
      r := Completed(|files|, files);
    }
  }

  /** `sum(1 for o in orders if o.invoice_date)`: the number of orders with a date. */
  method CountDated(orders: seq<Order>) returns (n: nat)
    ensures n <= |orders|
    ensures n == 0 <==> NoneDated(orders)
  {
    n := 0;
    var i := 0;
    while i < |orders|
      invariant 0 <= i <= |orders| && n <= i
      invariant n == 0 <==> NoneDated(orders[..i])
    {
      if orders[i].date.Some? {
        n := n + 1;
      }
      assert orders[..i + 1] == orders[..i] + [orders[i]];
      i := i + 1;
    }
    assert orders[..i] == orders;
  }
}
