/**
 * Invoice-link discovery (`list_orders_or_invoices` of both providers and
 * Free Mobile's `list_orders_or_invoices_from_all_lines`).
 *
 * A page is a snapshot: for each CSS selector the links it finds, plus all
 * anchors and all elements carrying a `data-href` / `data-url` /
 * `data-pdf-url` attribute (the two Free Mobile fallbacks). Every discovery
 * strategy turns each element into a `Candidate`: its stripped href (the
 * de-duplication key), its title, and whether the strategy's exclusion rules
 * accept it. `Scan` then keeps accepted candidates whose href was not seen
 * before, and the first strategy that keeps anything wins.
 */
module Discovery {
  import opened Wrappers
  import opened Text
  import opened Orders
  import opened InvoiceDate

  /** An `<a>` element: its `href` and `title` attributes (`""` when absent) and its text. */
  datatype Link = Link(href: string, title: string, text: string)

  /** An element with `data-href`, `data-url` or `data-pdf-url` (each `""` when absent). */
  datatype DataElement = DataElement(dataHref: string, dataUrl: string, dataPdfUrl: string, title: string, text: string)

  /**
   * What the browser shows: the current URL, the page source, whether a
   * password field is displayed, the links each CSS selector finds (a
   * selector that is not a key finds nothing), every anchor, and every
   * element with a data-URL attribute.
   */
  datatype Page = Page(
    url: string,
    body: string,
    passwordVisible: bool,
    found: map<string, seq<Link>>,
    anchors: seq<Link>,
    dataElements: seq<DataElement>)

  /**
   * The two library functions the ids and URLs depend on: `urljoin(base, href)`
   * and Python's `hash` of a string (randomised per process, so ids are only
   * stable within one run).
   */
  datatype Resolver = Resolver(join: (string, string) -> string, hash: string -> int)

  /** One element as a discovery strategy sees it. */
  datatype Candidate = Candidate(href: string, title: string, accepted: bool)

  const FreeMobileSelectors: seq<string> := [
    "a[href*='facture']", "a[href*='.pdf']", "a[href*='download']", "a[href*='invoice']", "a[href*='bill']",
    "a[data-testid*='facture']", "[role='link'][href*='pdf']", "a[href*='document']", "a[href*='pdf']"
  ]

  const FreeboxSelectors: seq<string> := [
    "a.btn.download[href*='facture']", "a[href*='facture.pdf.pl']", "a[href*='.pdf']",
    "a[href*='facture']", "a[href*='download']", "a[href*='telecharger']"
  ]

  function Selectors(kind: Kind): seq<string> {
    match kind
    case FreeMobile => FreeMobileSelectors
    case Freebox => FreeboxSelectors
  }

  function LinksFor(page: Page, selector: string): seq<Link> {
    if selector in page.found then page.found[selector] else []
  }

  /** `(a.get_attribute("href") or "").strip()` */
  function RawHref(l: Link): string { Strip(l.href) }

  /** `(a.get_attribute("title") or a.text or "").strip()` */
  function LinkTitle(l: Link): string { Strip(if l.title != "" then l.title else l.text) }

  predicate IsRecap(s: string) { Contains(s, "récapitulatif") || Contains(s, "recapitulatif") }

  /**
   * The selector strategy's exclusions: an empty href or one mentioning
   * `logout` always; for Free Mobile also `#`, `deconnexion`, and a
   * "récapitulatif" in the title or href.
   */
  predicate SelectorAccepts(kind: Kind, l: Link) {
    var h := RawHref(l);
    h != "" && !Contains(Lower(h), "logout") &&
    (kind == FreeMobile ==>
       h != "#" && !Contains(Lower(h), "deconnexion") && !IsRecap(Lower(LinkTitle(l) + " " + h)))
  }

  /** Free Mobile's first fallback: any anchor whose text speaks of a download, a PDF or an invoice, and not of a summary. */
  predicate TextFallbackAccepts(l: Link) {
    var h := RawHref(l);
    var text := Lower(Strip(l.text));
    h != "" && !StartsWith(h, "#") && !Contains(Lower(h), "logout") &&
    (Contains(text, "télécharger") || Contains(text, "telecharger") || Contains(text, "pdf") || Contains(text, "facture")) &&
    !IsRecap(text)
  }

  /** `(el.get_attribute("data-href") or el.get_attribute("data-url") or el.get_attribute("data-pdf-url") or "").strip()` */
  function DataHref(e: DataElement): string {
    Strip(if e.dataHref != "" then e.dataHref else if e.dataUrl != "" then e.dataUrl else e.dataPdfUrl)
  }

  function SelectorCandidate(kind: Kind, l: Link): Candidate {
    Candidate(RawHref(l), LinkTitle(l), SelectorAccepts(kind, l))
  }

  function TextCandidate(l: Link): Candidate {
    Candidate(RawHref(l), LinkTitle(l), TextFallbackAccepts(l))
  }

  function DataCandidate(e: DataElement): Candidate {
    var h := DataHref(e);
    Candidate(h, Strip(if e.title != "" then e.title else e.text), h != "" && !Contains(Lower(h), "logout"))
  }

  /**
   * The selector strategy's view of its links: each candidate's href is the
   * link's stripped href, and an accepted one is not empty, does not mention
   * `logout` and, for Free Mobile, is not `#` and does not mention
   * `deconnexion`.
   */
  function SelectorCandidates(kind: Kind, links: seq<Link>): (r: seq<Candidate>)
    ensures |r| == |links|
    ensures forall i :: 0 <= i < |links| ==> r[i].href == Strip(links[i].href)
    ensures forall i :: 0 <= i < |links| && r[i].accepted ==>
              r[i].href != "" && !Contains(Lower(r[i].href), "logout") &&
              (kind == FreeMobile ==> r[i].href != "#" && !Contains(Lower(r[i].href), "deconnexion"))
  {
    seq(|links|, i requires 0 <= i < |links| => SelectorCandidate(kind, links[i]))
  }

  /**
   * The anchor-text fallback's view: each candidate's href is the anchor's
   * stripped href, and an accepted one is not empty, does not start with `#`,
   * does not mention `logout`, and the anchor's text names a download, a PDF
   * or an invoice.
   */
  function TextCandidates(links: seq<Link>): (r: seq<Candidate>)
    ensures |r| == |links|
    ensures forall i :: 0 <= i < |links| ==> r[i].href == Strip(links[i].href)
    ensures forall i :: 0 <= i < |links| && r[i].accepted ==>
              var text := Lower(Strip(links[i].text));
              r[i].href != "" && !StartsWith(r[i].href, "#") && !Contains(Lower(r[i].href), "logout") &&
              (Contains(text, "télécharger") || Contains(text, "telecharger") || Contains(text, "pdf") || Contains(text, "facture"))
  {
    seq(|links|, i requires 0 <= i < |links| => TextCandidate(links[i]))
  }

  /**
   * The `data-*` fallback's view: each candidate's href is the first
   * non-empty of `data-href`, `data-url` and `data-pdf-url`, stripped, and an
   * accepted one is not empty and does not mention `logout`.
   */
  function DataCandidates(es: seq<DataElement>): (r: seq<Candidate>)
    ensures |r| == |es|
    ensures forall i :: 0 <= i < |es| ==>
              r[i].href == Strip(if es[i].dataHref != "" then es[i].dataHref
                                 else if es[i].dataUrl != "" then es[i].dataUrl else es[i].dataPdfUrl)
    ensures forall i :: 0 <= i < |es| && r[i].accepted ==> r[i].href != "" && !Contains(Lower(r[i].href), "logout")
  {
    seq(|es|, i requires 0 <= i < |es| => DataCandidate(es[i]))
  }

  /** `href if href.startswith("http") else urljoin(base_url, href)` */
  function Absolute(res: Resolver, base: string, href: string): string {
    if StartsWith(href, "http") then href else res.join(base, href)
  }

  /** `hash(s) % 100000` (Python's `%` by a positive modulus is never negative). */
  function Bucket(res: Resolver, s: string): (r: nat)
    ensures r < 100000
  {
    (res.hash(s) % 100000) as nat
  }

  /**
   * The order built for candidate `c` numbered `n`. Free Mobile hashes the
   * raw href and dates from the title, then the URL; Freebox hashes the
   * absolute href and dates from the title only.
   */
  function MakeOrder(kind: Kind, res: Resolver, base: string, n: nat, c: Candidate): Order {
    var full := Absolute(res, base, c.href);
    match kind
    case FreeMobile =>
      Order("free_mobile_inv_" + NatToString(n) + "_" + NatToString(Bucket(res, c.href)), full, DateFromTitleAndUrl(c.title, full))
    case Freebox =>
      Order("freebox_inv_" + NatToString(n) + "_" + NatToString(Bucket(res, full)), full, ParseTitle(Freebox, c.title))
  }

  /** The hrefs of the candidates at `idxs` are pairwise different. */
  predicate DistinctHrefs(cs: seq<Candidate>, idxs: seq<nat>)
    requires forall j :: 0 <= j < |idxs| ==> idxs[j] < |cs|
  {
    forall a, b :: 0 <= a < b < |idxs| ==> cs[idxs[a]].href != cs[idxs[b]].href
  }

  /**
   * The candidates one strategy keeps, scanning from position `k` with the
   * hrefs in `seen` already taken: the positions, in increasing order, of the
   * accepted candidates whose href is new.
   */
  function Scan(cs: seq<Candidate>, k: nat, seen: set<string>): (r: seq<nat>)
    ensures forall j :: 0 <= j < |r| ==> k <= r[j] < |cs| && cs[r[j]].accepted && cs[r[j]].href !in seen
    ensures forall a, b :: 0 <= a < b < |r| ==> r[a] < r[b]
    decreases |cs| - k
  {
    if k >= |cs| then []
    else if cs[k].accepted && cs[k].href !in seen then [k] + Scan(cs, k + 1, seen + {cs[k].href})
    else Scan(cs, k + 1, seen)
  }

  /** No two kept candidates share an href. */
  lemma {:induction false} ScanDistinct(cs: seq<Candidate>, k: nat, seen: set<string>)
    ensures DistinctHrefs(cs, Scan(cs, k, seen))
    decreases |cs| - k
  {
    if k < |cs| {
      if cs[k].accepted && cs[k].href !in seen {
        var rest := Scan(cs, k + 1, seen + {cs[k].href});
        ScanDistinct(cs, k + 1, seen + {cs[k].href});
        var r := [k] + rest;
        assert Scan(cs, k, seen) == r;
        forall a, b | 0 <= a < b < |r|
          ensures cs[r[a]].href != cs[r[b]].href
        {
          assert r[b] == rest[b - 1];
          if a > 0 {
            assert r[a] == rest[a - 1];
          } else {
            assert cs[rest[b - 1]].href !in seen + {cs[k].href};
          }
        }
      } else {
        ScanDistinct(cs, k + 1, seen);
      }
    }
  }

  /** Every accepted candidate whose href was not seen has its href kept (by itself or an earlier duplicate). */
  lemma {:induction false} ScanComplete(cs: seq<Candidate>, k: nat, seen: set<string>, i: nat)
    requires k <= i < |cs| && cs[i].accepted && cs[i].href !in seen
    ensures exists j :: 0 <= j < |Scan(cs, k, seen)| && cs[Scan(cs, k, seen)[j]].href == cs[i].href
    decreases |cs| - k
  {
    var r := Scan(cs, k, seen);
    if cs[k].accepted && cs[k].href !in seen {
      assert r == [k] + Scan(cs, k + 1, seen + {cs[k].href});
      if cs[k].href == cs[i].href {
        assert cs[r[0]].href == cs[i].href;
      } else {
        ScanComplete(cs, k + 1, seen + {cs[k].href}, i);
        var j :| 0 <= j < |Scan(cs, k + 1, seen + {cs[k].href})| && cs[Scan(cs, k + 1, seen + {cs[k].href})[j]].href == cs[i].href;
        assert r[j + 1] == Scan(cs, k + 1, seen + {cs[k].href})[j];
      }
    } else {
      assert k != i;
      ScanComplete(cs, k + 1, seen, i);
    }
  }

  /** The orders for the kept positions, numbered by position in `cs` or, when `byPosition`, by position in the output. */
  function Build(kind: Kind, res: Resolver, base: string, cs: seq<Candidate>, idxs: seq<nat>, byPosition: bool): seq<Order>
    requires forall j :: 0 <= j < |idxs| ==> idxs[j] < |cs|
  {
    seq(|idxs|, j requires 0 <= j < |idxs| => MakeOrder(kind, res, base, if byPosition then j else idxs[j], cs[idxs[j]]))
  }

  /** The orders kept from the candidates `cs`: one per accepted candidate with an href not seen before. */
  function Kept(kind: Kind, res: Resolver, base: string, cs: seq<Candidate>, byPosition: bool): seq<Order> {
    Build(kind, res, base, cs, Scan(cs, 0, {}), byPosition)
  }

  /** The orders the selector `selector` yields on `page`. */
  function SelectorOrders(kind: Kind, res: Resolver, page: Page, selector: string): seq<Order> {
    Kept(kind, res, page.url, SelectorCandidates(kind, LinksFor(page, selector)), false)
  }

  /** The positions, in the selector's result, of the links the selector loop keeps. */
  function SelectorKept(kind: Kind, page: Page, selector: string): seq<nat> {
    Scan(SelectorCandidates(kind, LinksFor(page, selector)), 0, {})
  }

  /** The selector loop: the first selector (in order) that yields an order decides the result. */
  function SelectorPhase(kind: Kind, res: Resolver, page: Page, selectors: seq<string>): seq<Order>
    decreases |selectors|
  {
    if selectors == [] then []
    else
      var r := SelectorOrders(kind, res, page, selectors[0]);
      if r != [] then r else SelectorPhase(kind, res, page, selectors[1..])
  }

  /** `list_orders_or_invoices` on a page, once the browser is open. */
  function ListedOrders(kind: Kind, res: Resolver, page: Page): seq<Order> {
    var first := SelectorPhase(kind, res, page, Selectors(kind));
    if first != [] || kind == Freebox then first
    else if TextOrders(res, page) != [] then TextOrders(res, page)
    else DataOrders(res, page)
  }

  /** Free Mobile's first fallback: the anchors whose text speaks of an invoice, numbered by output position. */
  function TextOrders(res: Resolver, page: Page): seq<Order> {
    Kept(FreeMobile, res, page.url, TextCandidates(page.anchors), true)
  }

  /** Free Mobile's second fallback: the elements carrying a `data-url` or `data-href`, numbered by output position. */
  function DataOrders(res: Resolver, page: Page): seq<Order> {
    Kept(FreeMobile, res, page.url, DataCandidates(page.dataElements), true)
  }

  // ------------------------------------------------------------ across lines

  /** The href a listed order contributes in the across-lines loop: stripped, absolutised against the line's URL. */
  function LineUrl(res: Resolver, base: string, o: Order): string {
    var h := Strip(o.url);
    if !StartsWith(h, "http") && base != "" then res.join(base, h) else h
  }

  /** The URLs of `orders[k..]` the across-lines loop takes into account (those whose stripped URL is not empty). */
  ghost function LineUrls(res: Resolver, base: string, orders: seq<Order>, k: nat): set<string> {
    set j | k <= j < |orders| && Strip(orders[j].url) != "" :: LineUrl(res, base, orders[j])
  }

  ghost function UrlsOf(os: seq<Order>): set<string> {
    set o | o in os :: o.url
  }

  /** No URL occurs twice. */
  ghost predicate DistinctUrls(os: seq<Order>) {
    forall a, b :: 0 <= a < b < |os| ==> os[a].url != os[b].url
  }

  /**
   * The inner loop of `list_orders_or_invoices_from_all_lines` for line
   * `line` from listed order `k` on: its new orders and the updated set of
   * seen hrefs.
   */
  function LineUnion(res: Resolver, line: nat, base: string, orders: seq<Order>, k: nat, seen: set<string>): (r: (seq<Order>, set<string>))
    decreases |orders| - k
  {
    if k >= |orders| then ([], seen)
    else
      var step := LineStep(res, line, base, orders[k], seen);
      var rest := LineUnion(res, line, base, orders, k + 1, step.1);
      (step.0 + rest.0, rest.1)
  }

  /** One listed order: skipped when its URL is blank or already seen, otherwise recorded with its URL. */
  function LineStep(res: Resolver, line: nat, base: string, o: Order, seen: set<string>): (seq<Order>, set<string>) {
    var h := LineUrl(res, base, o);
    if Strip(o.url) == "" || h in seen then ([], seen)
    else ([LineOrder(res, line, h, o.date)], seen + {h})
  }


  /** The order the all-lines loop records for the new URL `h` found on line `line`. */
  function LineOrder(res: Resolver, line: nat, h: string, date: Option<Date>): Order {
    Order("free_mobile_inv_" + NatToString(line) + "_" + NatToString(Bucket(res, h)), h, date)
  }

  /**
   * The outer loop over the lines, from line `line` on. Each line is the
   * page its "Mes factures" tab shows, or `None` when opening it raised (that
   * line is then skipped).
   */
  function UnionFrom(res: Resolver, lines: seq<Option<Page>>, line: nat, seen: set<string>): seq<Order>
    decreases |lines| - line
  {
    if line >= |lines| then []
    else if lines[line].None? then UnionFrom(res, lines, line + 1, seen)
    else
      var p := lines[line].value;
      var part := LineUnion(res, line, p.url, ListedOrders(FreeMobile, res, p), 0, seen);
      part.0 + UnionFrom(res, lines, line + 1, part.1)
  }

  // ------------------------------------------------------------ the loops

  lemma BuildSnoc(kind: Kind, res: Resolver, base: string, cs: seq<Candidate>, idxs: seq<nat>, i: nat, byPosition: bool, b: seq<Order>)
    requires forall j :: 0 <= j < |idxs| ==> idxs[j] < |cs|
    requires i < |cs|
    requires b == Build(kind, res, base, cs, idxs, byPosition)
    ensures |b| == |idxs|
    ensures Build(kind, res, base, cs, idxs + [i], byPosition) ==
            b + [MakeOrder(kind, res, base, if byPosition then |b| else i, cs[i])]
  {
    var ks := idxs + [i];
    var a := Build(kind, res, base, cs, ks, byPosition);
    forall j | 0 <= j < |b| ensures a[j] == b[j] {
      assert ks[j] == idxs[j];
    }
    assert ks[|idxs|] == i;
    SnocPointwise(a, b, MakeOrder(kind, res, base, if byPosition then |idxs| else i, cs[i]));
  }

  /**
   * The loop over one list of elements: keeps each accepted candidate whose
   * href is not yet in `seen_hrefs`, adds the href, and appends its order.
   */
  method Collect(kind: Kind, res: Resolver, base: string, cs: seq<Candidate>, byPosition: bool) returns (out: seq<Order>)
    ensures out == Kept(kind, res, base, cs, byPosition)
  {
    out := [];
    var seen: set<string> := {};
    ghost var kept: seq<nat> := [];
    var i := 0;
    while i < |cs|
      invariant 0 <= i <= |cs|
      invariant forall j :: 0 <= j < |kept| ==> kept[j] < i
      invariant Scan(cs, 0, {}) == kept + Scan(cs, i, seen)
      invariant out == Build(kind, res, base, cs, kept, byPosition)
    {
      var c := cs[i];
      if c.accepted && c.href !in seen {
        KeepStep(cs, kept, i, seen);
        BuildSnoc(kind, res, base, cs, kept, i, byPosition, out);
        out := out + [MakeOrder(kind, res, base, if byPosition then |out| else i, c)];
        kept := kept + [i];
        seen := seen + {c.href};
      } else {
        SkipStep(cs, kept, i, seen);
      }
      i := i + 1;
    }
  }

  /** The loop step of `Collect` that keeps candidate `i`. */
  lemma KeepStep(cs: seq<Candidate>, kept: seq<nat>, i: nat, seen: set<string>)
    requires i < |cs| && cs[i].accepted && cs[i].href !in seen
    requires Scan(cs, 0, {}) == kept + Scan(cs, i, seen)
    ensures Scan(cs, 0, {}) == (kept + [i]) + Scan(cs, i + 1, seen + {cs[i].href})
  {
    var rest := Scan(cs, i + 1, seen + {cs[i].href});
    assert Scan(cs, i, seen) == [i] + rest;
    assert kept + ([i] + rest) == (kept + [i]) + rest;
  }

  /** The loop step of `Collect` that passes over candidate `i`. */
  lemma SkipStep(cs: seq<Candidate>, kept: seq<nat>, i: nat, seen: set<string>)
    requires i < |cs| && !(cs[i].accepted && cs[i].href !in seen)
    requires Scan(cs, 0, {}) == kept + Scan(cs, i, seen)
    ensures Scan(cs, 0, {}) == kept + Scan(cs, i + 1, seen)
  {
  }

  /** The inner loop of `list_orders_or_invoices_from_all_lines`: one line's listed orders against the hrefs seen so far. */
  method CollectLine(res: Resolver, line: nat, base: string, listed: seq<Order>, seen0: set<string>) returns (part: seq<Order>, seen: set<string>)
    ensures part == LineUnion(res, line, base, listed, 0, seen0).0 && seen == LineUnion(res, line, base, listed, 0, seen0).1
  {
    ghost var total := LineUnion(res, line, base, listed, 0, seen0);
    part := [];
    seen := seen0;
    var k := 0;
    while k < |listed|
      invariant 0 <= k <= |listed|
      invariant total.0 == part + LineUnion(res, line, base, listed, k, seen).0
      invariant total.1 == LineUnion(res, line, base, listed, k, seen).1
    {
      var added, seen' := CollectOne(res, line, base, listed[k], seen);
      LineUnionStep(res, line, base, listed, k, seen, part, added, seen');
      part, seen := part + added, seen';
      k := k + 1;
    }
    assert part + [] == part;
  }

  /** One step of the inner loop leaves the whole line's result unchanged once `added` is appended. */
  lemma LineUnionStep(res: Resolver, line: nat, base: string, listed: seq<Order>, k: nat, seen: set<string>,
                      part: seq<Order>, added: seq<Order>, seen': set<string>)
    requires k < |listed| && (added, seen') == LineStep(res, line, base, listed[k], seen)
    ensures part + LineUnion(res, line, base, listed, k, seen).0 == (part + added) + LineUnion(res, line, base, listed, k + 1, seen').0
    ensures LineUnion(res, line, base, listed, k, seen).1 == LineUnion(res, line, base, listed, k + 1, seen').1
  {
    LineUnionUnfold(res, line, base, listed, k, seen, added, seen');
    AppendAssoc(part, added, LineUnion(res, line, base, listed, k + 1, seen').0);
  }

  lemma LineUnionUnfold(res: Resolver, line: nat, base: string, listed: seq<Order>, k: nat, seen: set<string>,
                        added: seq<Order>, seen': set<string>)
    requires k < |listed| && (added, seen') == LineStep(res, line, base, listed[k], seen)
    ensures LineUnion(res, line, base, listed, k, seen) ==
            (added + LineUnion(res, line, base, listed, k + 1, seen').0, LineUnion(res, line, base, listed, k + 1, seen').1)
  {
  }

  /** The body of the inner loop for one listed order. */
  method CollectOne(res: Resolver, line: nat, base: string, o: Order, seen: set<string>) returns (added: seq<Order>, seen': set<string>)
    ensures (added, seen') == LineStep(res, line, base, o, seen)
  {
    var h := Strip(o.url);
    if h == "" {
      return [], seen;
    }
    if !StartsWith(h, "http") && base != "" {
      h := res.join(base, h);
    }
    if h in seen {
      return [], seen;
    }
    return [LineOrder(res, line, h, o.date)], seen + {h};
  }




  /** The outer loop of `list_orders_or_invoices_from_all_lines`, growing `all_orders` and `seen_hrefs` line by line. */
  method CollectAllLines(res: Resolver, lines: seq<Option<Page>>) returns (out: seq<Order>)
    ensures out == UnionFrom(res, lines, 0, {})
  {
    ghost var total := UnionFrom(res, lines, 0, {});
    out := [];
    var seen: set<string> := {};
    var line := 0;
    while line < |lines|
      invariant 0 <= line <= |lines|
      invariant total == out + UnionFrom(res, lines, line, seen)
    {
      if lines[line].Some? {
        var p := lines[line].value;
        var listed := Discover(FreeMobile, res, p);
        var part, seen' := CollectLine(res, line, p.url, listed, seen);
        UnionFromStep(res, lines, line, seen, out, part, seen');
        out, seen := out + part, seen';
      } else {
        UnionFromSkip(res, lines, line, seen);
      }
      line := line + 1;
    }
  }

  /** A line that could be opened contributes its part, and the rest starts from the updated seen set. */
  lemma UnionFromStep(res: Resolver, lines: seq<Option<Page>>, line: nat, seen: set<string>,
                      out: seq<Order>, part: seq<Order>, seen': set<string>)
    requires line < |lines| && lines[line].Some?
    requires (part, seen') == LineUnion(res, line, lines[line].value.url, ListedOrders(FreeMobile, res, lines[line].value), 0, seen)
    ensures out + UnionFrom(res, lines, line, seen) == (out + part) + UnionFrom(res, lines, line + 1, seen')
  {
    UnionFromUnfold(res, lines, line, seen, part, seen');
    AppendAssoc(out, part, UnionFrom(res, lines, line + 1, seen'));
  }

  lemma UnionFromUnfold(res: Resolver, lines: seq<Option<Page>>, line: nat, seen: set<string>, part: seq<Order>, seen': set<string>)
    requires line < |lines| && lines[line].Some?
    requires (part, seen') == LineUnion(res, line, lines[line].value.url, ListedOrders(FreeMobile, res, lines[line].value), 0, seen)
    ensures UnionFrom(res, lines, line, seen) == part + UnionFrom(res, lines, line + 1, seen')
  {
  }


  /** A line that could not be opened contributes nothing. */
  lemma UnionFromSkip(res: Resolver, lines: seq<Option<Page>>, line: nat, seen: set<string>)
    requires line < |lines| && lines[line].None?
    ensures UnionFrom(res, lines, line, seen) == UnionFrom(res, lines, line + 1, seen)
  {
  }

  /** The selector loop of `list_orders_or_invoices`: try each selector in order until one yields orders. */
  method TrySelectors(kind: Kind, res: Resolver, p: Page, sels: seq<string>) returns (out: seq<Order>)
    ensures out == SelectorPhase(kind, res, p, sels)
  {
    out := [];
    var s := 0;
    while s < |sels|
      invariant 0 <= s <= |sels|
      invariant SelectorPhase(kind, res, p, sels) == SelectorPhase(kind, res, p, sels[s..])
      invariant out == []
    {
      out := Collect(kind, res, p.url, SelectorCandidates(kind, LinksFor(p, sels[s])), false);
      assert out == SelectorOrders(kind, res, p, sels[s]);
      if out != [] {
        return;
      }
      assert sels[s..][1..] == sels[s + 1..];
      s := s + 1;
    }
  }

  /** `list_orders_or_invoices` on page `p` with the browser open: selectors in order, then Free Mobile's two fallbacks. */
  method Discover(kind: Kind, res: Resolver, p: Page) returns (out: seq<Order>)
    ensures out == ListedOrders(kind, res, p)
  {
    out := TrySelectors(kind, res, p, Selectors(kind));
    if out != [] || kind == Freebox {
      return;
    }
    out := Collect(FreeMobile, res, p.url, TextCandidates(p.anchors), true);
    if out != [] {
      return;
    }
    out := Collect(FreeMobile, res, p.url, DataCandidates(p.dataElements), true);
  }

}

module DiscoveryProperties {
  import opened Wrappers
  import opened Text
  import opened Orders
  import opened InvoiceDate
  import opened Discovery

  /** The position of the first selector of `sels` that yields an order, or `|sels|` when none does. */
  function FirstHit(kind: Kind, res: Resolver, page: Page, sels: seq<string>): (n: nat)
    ensures n <= |sels|
    decreases |sels|
  {
    if sels == [] || SelectorOrders(kind, res, page, sels[0]) != [] then 0
    else 1 + FirstHit(kind, res, page, sels[1..])
  }

  /**
   * The selector phase returns the orders of the first selector that yields
   * any; every earlier selector yields none, and the phase is empty exactly
   * when no selector yields an order.
   */
  lemma {:induction false} SelectorPhaseFirstWins(kind: Kind, res: Resolver, page: Page, sels: seq<string>)
    ensures var n := FirstHit(kind, res, page, sels);
            var r := SelectorPhase(kind, res, page, sels);
            (forall i :: 0 <= i < n ==> SelectorOrders(kind, res, page, sels[i]) == []) &&
            (n < |sels| ==> r == SelectorOrders(kind, res, page, sels[n]) && r != []) &&
            (n == |sels| ==> r == [])
    decreases |sels|
  {
    if sels != [] && SelectorOrders(kind, res, page, sels[0]) == [] {
      SelectorPhaseFirstWins(kind, res, page, sels[1..]);
      FirstHitSkips(kind, res, page, sels);
      PhaseSkipsEmpty(kind, res, page, sels);
      var n := FirstHit(kind, res, page, sels);
      forall i | 0 <= i < n ensures SelectorOrders(kind, res, page, sels[i]) == [] {
        if i > 0 {
          assert sels[i] == sels[1..][i - 1];
        }
      }
      if n < |sels| {
        assert sels[n] == sels[1..][n - 1];
      }
    } else if sels != [] {
      PhaseTakesFirst(kind, res, page, sels);
    }
  }

  lemma FirstHitSkips(kind: Kind, res: Resolver, page: Page, sels: seq<string>)
    requires sels != [] && SelectorOrders(kind, res, page, sels[0]) == []
    ensures FirstHit(kind, res, page, sels) == 1 + FirstHit(kind, res, page, sels[1..])
  {
  }

  /** The orders kept from one list of candidates come from accepted candidates with pairwise different hrefs. */
  lemma ScannedOrdersClean(kind: Kind, res: Resolver, base: string, cs: seq<Candidate>, byPosition: bool)
    ensures var r := Kept(kind, res, base, cs, byPosition);
            exists idxs: seq<nat> ::
              |idxs| == |r| &&
              (forall j :: 0 <= j < |idxs| ==>
                 (idxs[j] < |cs| && cs[idxs[j]].accepted &&
                  r[j] == MakeOrder(kind, res, base, if byPosition then j else idxs[j], cs[idxs[j]]))) &&
              forall a, b :: 0 <= a < b < |idxs| ==> cs[idxs[a]].href != cs[idxs[b]].href
  {
    var idxs := Scan(cs, 0, {});
    ScanDistinct(cs, 0, {});
    assert DistinctHrefs(cs, idxs);
  }

  /**
   * Selector results only ever contain links the provider's exclusion rules
   * accept, never the same stripped href twice, and each order is numbered by
   * the position of its link in the selector's result.
   */
  lemma SelectorOrdersAccepted(kind: Kind, res: Resolver, page: Page, selector: string)
    ensures var links := LinksFor(page, selector);
            var idxs := SelectorKept(kind, page, selector);
            var r := SelectorOrders(kind, res, page, selector);
            |idxs| == |r| &&
            (forall j :: 0 <= j < |idxs| ==>
               (idxs[j] < |links| && SelectorAccepts(kind, links[idxs[j]]) &&
                r[j] == MakeOrder(kind, res, page.url, idxs[j], SelectorCandidate(kind, links[idxs[j]])))) &&
            forall a, b :: 0 <= a < b < |idxs| ==> RawHref(links[idxs[a]]) != RawHref(links[idxs[b]])
  {
    var links := LinksFor(page, selector);
    var cs := SelectorCandidates(kind, links);
    var idxs := SelectorKept(kind, page, selector);
    var r := SelectorOrders(kind, res, page, selector);
    assert r == Build(kind, res, page.url, cs, idxs, false);
    ScanDistinct(cs, 0, {});
    forall j | 0 <= j < |idxs|
      ensures idxs[j] < |links| && SelectorAccepts(kind, links[idxs[j]])
      ensures r[j] == MakeOrder(kind, res, page.url, idxs[j], SelectorCandidate(kind, links[idxs[j]]))
    {
      assert cs[idxs[j]] == SelectorCandidate(kind, links[idxs[j]]);
    }
    forall a, b | 0 <= a < b < |idxs| ensures RawHref(links[idxs[a]]) != RawHref(links[idxs[b]]) {
      assert cs[idxs[a]].href != cs[idxs[b]].href;
    }
  }

  /** A Free Mobile link whose href mentions `deconnexion` or `logout` (in any case) is never kept by a selector. */
  lemma FreeMobileSkipsLogoutLinks(page: Page, selector: string, l: Link)
    requires Contains(Lower(RawHref(l)), "deconnexion") || Contains(Lower(RawHref(l)), "logout")
    ensures forall j :: 0 <= j < |SelectorKept(FreeMobile, page, selector)| ==>
              LinksFor(page, selector)[SelectorKept(FreeMobile, page, selector)[j]] != l
  {
    var links := LinksFor(page, selector);
    var cs := SelectorCandidates(FreeMobile, links);
    var idxs := SelectorKept(FreeMobile, page, selector);
    assert !SelectorAccepts(FreeMobile, l);
    forall j | 0 <= j < |idxs| ensures links[idxs[j]] != l {
      assert cs[idxs[j]].accepted;
    }
  }

  /**
   * No strategy keeps an element whose stripped href mentions `logout`: not a
   * selector of either provider, not Free Mobile's anchor-text fallback (which
   * also drops every href starting with `#`), and not its `data-*` fallback.
   */
  lemma LogoutLinksNeverKept(kind: Kind, page: Page, selector: string)
    ensures var links := LinksFor(page, selector);
            var idxs := SelectorKept(kind, page, selector);
            forall j :: 0 <= j < |idxs| ==> idxs[j] < |links| && !Contains(Lower(RawHref(links[idxs[j]])), "logout")
    ensures var idxs := Scan(TextCandidates(page.anchors), 0, {});
            forall j :: 0 <= j < |idxs| ==>
              idxs[j] < |page.anchors| && !Contains(Lower(RawHref(page.anchors[idxs[j]])), "logout") &&
              !StartsWith(RawHref(page.anchors[idxs[j]]), "#")
    ensures var idxs := Scan(DataCandidates(page.dataElements), 0, {});
            forall j :: 0 <= j < |idxs| ==>
              idxs[j] < |page.dataElements| && !Contains(Lower(DataHref(page.dataElements[idxs[j]])), "logout")
  {
  }

  /** A run of digits followed by `_` is determined by the string it starts. */
  lemma DigitRunsAgree(a: string, b: string, x: string, y: string)
    requires forall i :: 0 <= i < |a| ==> IsDigit(a[i])
    requires forall i :: 0 <= i < |b| ==> IsDigit(b[i])
    requires a + ("_" + x) == b + ("_" + y)
    ensures a == b
  {
    var u := a + ("_" + x);
    assert forall i :: 0 <= i < |a| ==> u[i] == a[i];
    assert forall i :: 0 <= i < |b| ==> u[i] == b[i];
    assert u[|a|] == '_' && u[|b|] == '_';
    if |a| != |b| {
      assert false;
    }
    assert a == u[..|a|] == b;
  }

  /** `prefix + str(n) + "_" + rest` determines `n`. */
  lemma NumberedIdDeterminesNumber(prefix: string, n: nat, m: nat, x: string, y: string)
    requires prefix + NatToString(n) + "_" + x == prefix + NatToString(m) + "_" + y
    ensures n == m
  {
    var a, b := NatToString(n), NatToString(m);
    AppendAssoc(prefix + a, "_", x);
    AppendAssoc(prefix, a, "_" + x);
    AppendAssoc(prefix + b, "_", y);
    AppendAssoc(prefix, b, "_" + y);
    assert a + ("_" + x) == (prefix + (a + ("_" + x)))[|prefix|..];
    assert b + ("_" + y) == (prefix + (b + ("_" + y)))[|prefix|..];
    DigitRunsAgree(a, b, x, y);
  }

  /**
   * The orders one strategy lists carry pairwise different ids: each id
   * starts with the provider's prefix and the order's number, and the numbers
   * (positions in the element list, or in the output) are all different.
   */
  lemma KeptIdsDistinct(kind: Kind, res: Resolver, base: string, cs: seq<Candidate>, byPosition: bool)
    ensures forall a, b :: 0 <= a < b < |Kept(kind, res, base, cs, byPosition)| ==>
              Kept(kind, res, base, cs, byPosition)[a].id != Kept(kind, res, base, cs, byPosition)[b].id
  {
    var idxs := Scan(cs, 0, {});
    var r := Kept(kind, res, base, cs, byPosition);
    forall a, b | 0 <= a < b < |r| ensures r[a].id != r[b].id {
      var na: nat := if byPosition then a else idxs[a];
      var nb: nat := if byPosition then b else idxs[b];
      assert na != nb;
      assert r[a] == MakeOrder(kind, res, base, na, cs[idxs[a]]);
      assert r[b] == MakeOrder(kind, res, base, nb, cs[idxs[b]]);
      if r[a].id == r[b].id {
        match kind
        case FreeMobile =>
          NumberedIdDeterminesNumber("free_mobile_inv_", na, nb, NatToString(Bucket(res, cs[idxs[a]].href)), NatToString(Bucket(res, cs[idxs[b]].href)));
        case Freebox =>
          var fa := Absolute(res, base, cs[idxs[a]].href);
          var fb := Absolute(res, base, cs[idxs[b]].href);
          NumberedIdDeterminesNumber("freebox_inv_", na, nb, NatToString(Bucket(res, fa)), NatToString(Bucket(res, fb)));
      }
    }
  }

  /**
   * Once selector `j` yields an order, the links of later selectors and the
   * fallback elements no longer matter: two pages that agree on their URL
   * and on the links of selectors `0..j` list the same orders.
   */
  lemma LaterSelectorsIgnored(kind: Kind, res: Resolver, p1: Page, p2: Page, j: nat)
    requires j < |Selectors(kind)|
    requires p1.url == p2.url
    requires forall i :: 0 <= i <= j ==> LinksFor(p1, Selectors(kind)[i]) == LinksFor(p2, Selectors(kind)[i])
    requires SelectorOrders(kind, res, p1, Selectors(kind)[j]) != []
    ensures ListedOrders(kind, res, p1) == ListedOrders(kind, res, p2)
    ensures ListedOrders(kind, res, p1) != []
  {
    PrefixDecides(kind, res, p1, p2, Selectors(kind), j);
  }

  lemma {:induction false} PrefixDecides(kind: Kind, res: Resolver, p1: Page, p2: Page, sels: seq<string>, j: nat)
    requires j < |sels|
    requires p1.url == p2.url
    requires forall i :: 0 <= i <= j ==> LinksFor(p1, sels[i]) == LinksFor(p2, sels[i])
    requires SelectorOrders(kind, res, p1, sels[j]) != []
    ensures SelectorPhase(kind, res, p1, sels) == SelectorPhase(kind, res, p2, sels) != []
    decreases |sels|
  {
    SameLinksSameOrders(kind, res, p1, p2, sels[0]);
    if SelectorOrders(kind, res, p1, sels[0]) == [] {
      PrefixShift(p1, p2, sels, j);
      PrefixDecides(kind, res, p1, p2, sels[1..], j - 1);
      PhaseSkipsEmpty(kind, res, p1, sels);
      PhaseSkipsEmpty(kind, res, p2, sels);
    } else {
      PhaseTakesFirst(kind, res, p1, sels);
      PhaseTakesFirst(kind, res, p2, sels);
    }
  }

  /** A selector's orders depend only on the page URL and the selector's links. */
  lemma SameLinksSameOrders(kind: Kind, res: Resolver, p1: Page, p2: Page, s: string)
    requires p1.url == p2.url && LinksFor(p1, s) == LinksFor(p2, s)
    ensures SelectorOrders(kind, res, p1, s) == SelectorOrders(kind, res, p2, s)
  {
  }

  lemma PhaseSkipsEmpty(kind: Kind, res: Resolver, p: Page, sels: seq<string>)
    requires sels != [] && SelectorOrders(kind, res, p, sels[0]) == []
    ensures SelectorPhase(kind, res, p, sels) == SelectorPhase(kind, res, p, sels[1..])
  {
  }

  lemma PhaseTakesFirst(kind: Kind, res: Resolver, p: Page, sels: seq<string>)
    requires sels != [] && SelectorOrders(kind, res, p, sels[0]) != []
    ensures SelectorPhase(kind, res, p, sels) == SelectorOrders(kind, res, p, sels[0])
  {
  }

  lemma PrefixShift(p1: Page, p2: Page, sels: seq<string>, j: nat)
    requires 0 < j < |sels|
    requires forall i :: 0 <= i <= j ==> LinksFor(p1, sels[i]) == LinksFor(p2, sels[i])
    ensures forall i :: 0 <= i <= j - 1 ==> LinksFor(p1, sels[1..][i]) == LinksFor(p2, sels[1..][i])
  {
    forall i | 0 <= i <= j - 1 ensures LinksFor(p1, sels[1..][i]) == LinksFor(p2, sels[1..][i]) {
      assert sels[1..][i] == sels[i + 1];
    }
  }

  // ------------------------------------------------------------ across lines

  /** All URLs the across-lines loop takes into account, from line `line` on. */
  ghost function AllLineUrls(res: Resolver, lines: seq<Option<Page>>, line: nat): set<string>
    decreases |lines| - line
  {
    if line >= |lines| then {}
    else if lines[line].None? then AllLineUrls(res, lines, line + 1)
    else
      var p := lines[line].value;
      LineUrls(res, p.url, ListedOrders(FreeMobile, res, p), 0) + AllLineUrls(res, lines, line + 1)
  }

  lemma UrlsOfAppend(xs: seq<Order>, ys: seq<Order>)
    ensures UrlsOf(xs + ys) == UrlsOf(xs) + UrlsOf(ys)
  {
    forall u | u in UrlsOf(xs + ys) ensures u in UrlsOf(xs) + UrlsOf(ys) {
      var x :| x in xs + ys && x.url == u;
      if x !in xs { assert x in ys; }
    }
  }

  lemma UrlsOfSingleton(o: Order)
    ensures UrlsOf([o]) == {o.url}
  {
    assert o in [o];
  }

  lemma DistinctAppend(xs: seq<Order>, ys: seq<Order>)
    requires DistinctUrls(xs) && DistinctUrls(ys) && UrlsOf(xs) !! UrlsOf(ys)
    ensures DistinctUrls(xs + ys)
  {
    var r := xs + ys;
    forall a, b | 0 <= a < b < |r| ensures r[a].url != r[b].url {
      if b >= |xs| {
        assert r[b] == ys[b - |xs|] && ys[b - |xs|] in ys;
        if a >= |xs| {
          assert r[a] == ys[a - |xs|];
        } else {
          assert r[a] == xs[a] && xs[a] in xs;
          assert xs[a].url in UrlsOf(xs) && ys[b - |xs|].url in UrlsOf(ys);
        }
      } else {
        assert r[a] == xs[a] && r[b] == xs[b];
      }
    }
  }

  lemma LineUrlsStep(res: Resolver, base: string, orders: seq<Order>, k: nat)
    requires k < |orders|
    ensures LineUrls(res, base, orders, k) ==
            (if Strip(orders[k].url) != "" then {LineUrl(res, base, orders[k])} else {}) + LineUrls(res, base, orders, k + 1)
  {
  }

  /**
   * One line's pass adds new, pairwise different URLs, none of them seen
   * before, and afterwards the seen set is the old one plus every URL of the
   * line.
   */
  lemma {:induction false} LineUnionFresh(res: Resolver, line: nat, base: string, orders: seq<Order>, k: nat, seen: set<string>)
    ensures var r := LineUnion(res, line, base, orders, k, seen);
            r.1 == seen + UrlsOf(r.0) && UrlsOf(r.0) !! seen && DistinctUrls(r.0) &&
            r.1 == seen + LineUrls(res, base, orders, k)
    decreases |orders| - k
  {
    if k < |orders| {
      LineUrlsStep(res, base, orders, k);
      var h := LineUrl(res, base, orders[k]);
      if Strip(orders[k].url) == "" || h in seen {
        LineUnionFresh(res, line, base, orders, k + 1, seen);
        var rest := LineUnion(res, line, base, orders, k + 1, seen);
        assert [] + rest.0 == rest.0;
      } else {
        var rest := LineUnion(res, line, base, orders, k + 1, seen + {h});
        LineUnionFresh(res, line, base, orders, k + 1, seen + {h});
        var o := LineOrder(res, line, h, orders[k].date);
        var out := [o] + rest.0;
        assert LineUnion(res, line, base, orders, k, seen) == (out, rest.1);
        UrlsOfAppend([o], rest.0);
        UrlsOfSingleton(o);
        DistinctAppend([o], rest.0);
      }
    }
  }

  /** Two fresh, duplicate-free runs of orders, the second fresh for the URLs the first added, concatenate to a fresh, duplicate-free run. */
  lemma FreshConcat(seen: set<string>, xs: seq<Order>, mid: set<string>, ys: seq<Order>, xu: set<string>, yu: set<string>)
    requires mid == seen + UrlsOf(xs) && UrlsOf(xs) !! seen && DistinctUrls(xs) && mid == seen + xu
    requires DistinctUrls(ys) && UrlsOf(ys) !! mid && mid + UrlsOf(ys) == mid + yu
    ensures DistinctUrls(xs + ys) && UrlsOf(xs + ys) !! seen && seen + UrlsOf(xs + ys) == seen + (xu + yu)
  {
    UrlsOfAppend(xs, ys);
    DistinctAppend(xs, ys);
  }

  /**
   * Listing all lines never returns the same URL twice, and returns exactly
   * the URLs (stripped and absolutised) of the orders each line lists.
   */
  lemma {:induction false} UnionFromFresh(res: Resolver, lines: seq<Option<Page>>, line: nat, seen: set<string>)
    ensures var r := UnionFrom(res, lines, line, seen);
            DistinctUrls(r) && UrlsOf(r) !! seen && seen + UrlsOf(r) == seen + AllLineUrls(res, lines, line)
    decreases |lines| - line
  {
    if line < |lines| && lines[line].None? {
      UnionFromFresh(res, lines, line + 1, seen);
    } else if line < |lines| {
      var p := lines[line].value;
      var listed := ListedOrders(FreeMobile, res, p);
      var part := LineUnion(res, line, p.url, listed, 0, seen);
      LineUnionFresh(res, line, p.url, listed, 0, seen);
      UnionFromFresh(res, lines, line + 1, part.1);
      var rest := UnionFrom(res, lines, line + 1, part.1);
      UnionFromUnfold(res, lines, line, seen, part.0, part.1);
      assert AllLineUrls(res, lines, line) == LineUrls(res, p.url, listed, 0) + AllLineUrls(res, lines, line + 1);
      FreshConcat(seen, part.0, part.1, rest, LineUrls(res, p.url, listed, 0), AllLineUrls(res, lines, line + 1));
    }
  }

  /** The result of listing all lines has no duplicate URL and misses none of the lines' invoice URLs. */
  lemma AllLinesUnion(res: Resolver, lines: seq<Option<Page>>)
    ensures DistinctUrls(UnionFrom(res, lines, 0, {}))
    ensures UrlsOf(UnionFrom(res, lines, 0, {})) == AllLineUrls(res, lines, 0)
  {
    UnionFromFresh(res, lines, 0, {});
  }

  /**
   * `o` is what the inner loop records for the first listed order, from `k`
   * on, that contributes the URL `o.url`: entry `j` contributes it, no entry
   * between `k` and `j` does, and the order carries the line index and entry
   * `j`'s date.
   */
  ghost predicate FirstInLine(res: Resolver, line: nat, base: string, orders: seq<Order>, k: nat, j: nat, o: Order) {
    k <= j < |orders| && Strip(orders[j].url) != "" && LineUrl(res, base, orders[j]) == o.url &&
    o == LineOrder(res, line, o.url, orders[j].date) &&
    forall i :: k <= i < j ==> Strip(orders[i].url) == "" || LineUrl(res, base, orders[i]) != o.url
  }

  /** Every order one line's pass records comes from the first entry with its URL, and that URL was not seen before. */
  lemma {:induction false} LineUnionFirst(res: Resolver, line: nat, base: string, orders: seq<Order>, k: nat, seen: set<string>)
    ensures forall o :: o in LineUnion(res, line, base, orders, k, seen).0 ==>
              o.url !in seen && exists j :: FirstInLine(res, line, base, orders, k, j, o)
    decreases |orders| - k
  {
    if k < |orders| {
      var h := LineUrl(res, base, orders[k]);
      if Strip(orders[k].url) == "" || h in seen {
        LineUnionFirst(res, line, base, orders, k + 1, seen);
        var rest := LineUnion(res, line, base, orders, k + 1, seen);
        assert LineUnion(res, line, base, orders, k, seen).0 == [] + rest.0 == rest.0;
        forall o | o in rest.0 ensures exists j :: FirstInLine(res, line, base, orders, k, j, o) {
          var j :| FirstInLine(res, line, base, orders, k + 1, j, o);
          assert FirstInLine(res, line, base, orders, k, j, o);
        }
      } else {
        LineUnionFirst(res, line, base, orders, k + 1, seen + {h});
        var rest := LineUnion(res, line, base, orders, k + 1, seen + {h});
        var first := LineOrder(res, line, h, orders[k].date);
        assert LineUnion(res, line, base, orders, k, seen).0 == [first] + rest.0;
        assert FirstInLine(res, line, base, orders, k, k, first);
        forall o | o in rest.0 ensures exists j :: FirstInLine(res, line, base, orders, k, j, o) {
          var j :| FirstInLine(res, line, base, orders, k + 1, j, o);
          assert FirstInLine(res, line, base, orders, k, j, o);
        }
      }
    }
  }

  /** The orders line `l` lists, when its page could be opened. */
  function LineListed(res: Resolver, lines: seq<Option<Page>>, l: nat): seq<Order>
    requires l < |lines| && lines[l].Some?
  {
    ListedOrders(FreeMobile, res, lines[l].value)
  }

  /**
   * `o` is what the outer loop records for the first line, from `line` on,
   * that lists the URL `o.url`: it is the first entry `j` of line `l` with
   * that URL, and no line between `line` and `l` lists it.
   */
  ghost predicate FirstInLines(res: Resolver, lines: seq<Option<Page>>, line: nat, l: nat, j: nat, o: Order) {
    line <= l < |lines| && lines[l].Some? &&
    FirstInLine(res, l, lines[l].value.url, LineListed(res, lines, l), 0, j, o) &&
    forall i :: line <= i < l && lines[i].Some? ==> o.url !in LineUrls(res, lines[i].value.url, LineListed(res, lines, i), 0)
  }

  lemma {:induction false} UnionFromFirst(res: Resolver, lines: seq<Option<Page>>, line: nat, seen: set<string>)
    ensures forall o :: o in UnionFrom(res, lines, line, seen) ==>
              o.url !in seen && exists l, j :: FirstInLines(res, lines, line, l, j, o)
    decreases |lines| - line
  {
    if line < |lines| && lines[line].None? {
      UnionFromFirst(res, lines, line + 1, seen);
      UnionFromSkip(res, lines, line, seen);
      forall o | o in UnionFrom(res, lines, line, seen) ensures exists l, j :: FirstInLines(res, lines, line, l, j, o) {
        var l, j :| FirstInLines(res, lines, line + 1, l, j, o);
        assert FirstInLines(res, lines, line, l, j, o);
      }
    } else if line < |lines| {
      var p := lines[line].value;
      var listed := LineListed(res, lines, line);
      var part := LineUnion(res, line, p.url, listed, 0, seen);
      LineUnionFirst(res, line, p.url, listed, 0, seen);
      LineUnionFresh(res, line, p.url, listed, 0, seen);
      UnionFromFirst(res, lines, line + 1, part.1);
      var rest := UnionFrom(res, lines, line + 1, part.1);
      UnionFromUnfold(res, lines, line, seen, part.0, part.1);
      forall o | o in part.0 ensures exists l, j :: FirstInLines(res, lines, line, l, j, o) {
        var j :| FirstInLine(res, line, p.url, listed, 0, j, o);
        assert FirstInLines(res, lines, line, line, j, o);
      }
      forall o | o in rest ensures o.url !in seen && exists l, j :: FirstInLines(res, lines, line, l, j, o) {
        var l, j :| FirstInLines(res, lines, line + 1, l, j, o);
        assert o.url !in LineUrls(res, p.url, listed, 0);
        assert FirstInLines(res, lines, line, l, j, o);
      }
    }
  }

  /**
   * Each URL is kept at its first occurrence: every order listing all lines
   * returns was recorded from the first line listing its URL, from the first
   * entry of that line with that URL, and carries that line's index and that
   * entry's date.
   */
  lemma FirstOccurrenceKept(res: Resolver, lines: seq<Option<Page>>)
    ensures forall o :: o in UnionFrom(res, lines, 0, {}) ==> exists l, j :: FirstInLines(res, lines, 0, l, j, o)
  {
    UnionFromFirst(res, lines, 0, {});
  }
}
