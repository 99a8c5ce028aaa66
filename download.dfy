/**
 * One invoice download (`_download_pdf` and the decision part of
 * `download_invoice`): which URL is fetched, when a response counts as a
 * PDF, and the name the file is saved under.
 */
module Download {
  import opened Wrappers
  import opened Text
  import opened Orders

  newtype byte = x: int | 0 <= x < 256

  /** The four bytes of `%PDF`, the signature every PDF file starts with. */
  const PdfMagic: seq<byte> := [0x25, 0x50, 0x44, 0x46]

  /**
   * What `session.get(url)` gives: no response at all (it raised), or the
   * status, the `content-type` header (`""` when absent) and the body, with
   * whether writing that body to the download folder would succeed
   * (`written`; `write_bytes` raising is caught like any other failure).
   */
  datatype Fetch = Unreachable | Response(status: int, contentType: string, body: seq<byte>, written: bool)

  /** The signature test: Free Mobile checks the length first, Freebox compares the 4-byte prefix slice. */
  predicate HasPdfMagic(kind: Kind, body: seq<byte>) {
    match kind
    case FreeMobile => |body| >= 4 && body[..4] == PdfMagic
    case Freebox => Take(body, 4) == PdfMagic
  }

  /** A response is kept when its status is 200 and either its content type mentions `pdf` or its body has the PDF signature. */
  predicate IsPdfResponse(kind: Kind, r: Fetch) {
    r.Response? && r.status == 200 && (Contains(Lower(r.contentType), "pdf") || HasPdfMagic(kind, r.body))
  }

  /** `date.isoformat()`: `YYYY-MM-DD`. */
  function IsoDate(d: Date): string {
    ZeroPad(d.year, 4) + "-" + ZeroPad(d.month, 2) + "-" + ZeroPad(d.day, 2)
  }

  /** The order id as it appears in a dated file name: unsafe characters replaced, cut to 30. */
  function ShortId(oid: string): string {
    Take(Sanitize(oid, false), 30)
  }

  /** The file name before the final sanitising and the cut to 80 characters. */
  function RawFileName(kind: Kind, oid: string, date: Option<Date>): string {
    if date.Some? then ProviderId(kind) + "_" + IsoDate(date.value) + "_" + ShortId(oid) + ".pdf"
    else ProviderId(kind) + "_" + oid + ".pdf"
  }

  /** The name the invoice is saved under. */
  function FileName(kind: Kind, oid: string, date: Option<Date>): string {
    Take(Sanitize(RawFileName(kind, oid, date), true), 80)
  }

  /** The response is a PDF and its body is written to the download folder. */
  predicate Saves(kind: Kind, r: Fetch) {
    IsPdfResponse(kind, r) && r.written
  }

  /**
   * `_download_pdf` once the response is known: the file name when the
   * response is a PDF and writing it succeeds, otherwise nothing.
   */
  function SavedName(kind: Kind, r: Fetch, oid: string, date: Option<Date>): Option<string> {
    if Saves(kind, r) then Some(FileName(kind, oid, date)) else None
  }

  /**
   * The first argument of `download_invoice`: an `OrderInfo`, a string, or
   * any other value (`text` being its `str()`).
   */
  datatype Target = ByOrder(order: Order) | ByRef(ref: string) | ByOther(text: string)

  /** `order_id or order_or_id.order_id` (or `str(order_or_id)`). */
  function EffectiveId(target: Target, orderId: string): string {
    if orderId != "" then orderId
    else match target
      case ByOrder(o) => o.id
      case ByRef(s) => s
      case ByOther(t) => t
  }

  /** The URL to fetch: the order's URL when it has one, or the argument itself when it is a string starting with `http`. */
  function TargetUrl(target: Target): Option<string> {
    match target
    case ByOrder(o) => if o.url != "" then Some(o.url) else None
    case ByRef(s) => if StartsWith(s, "http") then Some(s) else None
    case ByOther(_) => None
  }

  /**
   * `download_invoice` given whether the id is already in the registry and
   * what fetching each URL gives: skipped when registered and not forced,
   * nothing without a URL, otherwise the saved name if the response is a PDF.
   */
  function DownloadOutcome(kind: Kind, registered: bool, target: Target, orderId: string, date: Option<Date>,
                           force: bool, fetch: string -> Fetch): Option<string> {
    if !force && registered then None
    else match TargetUrl(target)
      case None => None
      case Some(url) => SavedName(kind, fetch(url), EffectiveId(target, orderId), date)
  }
}

module DownloadProperties {
  import opened Wrappers
  import opened Text
  import opened Orders
  import opened Download

  /** The two providers' signature tests accept exactly the same bodies. */
  lemma MagicChecksAgree(body: seq<byte>)
    ensures HasPdfMagic(FreeMobile, body) <==> HasPdfMagic(Freebox, body)
  {
    if Take(body, 4) == PdfMagic {
      assert |body| >= 4;
    }
  }

  /**
   * A response is never kept unless its status is 200, and a 200 response is
   * kept when its body has the PDF signature and writing it succeeds; a
   * failed write loses even a PDF.
   */
  lemma PdfResponseCases(kind: Kind, r: Fetch, oid: string, date: Option<Date>)
    ensures r.Response? && r.status != 200 ==> SavedName(kind, r, oid, date) == None
    ensures r.Response? && r.status == 200 && |r.body| >= 4 && r.body[..4] == PdfMagic && r.written ==>
              SavedName(kind, r, oid, date).Some?
    ensures r.Response? && !r.written ==> SavedName(kind, r, oid, date) == None
    ensures r.Response? && r.status == 200 && !Contains(Lower(r.contentType), "pdf") && (|r.body| < 4 || r.body[..4] != PdfMagic) ==>
              SavedName(kind, r, oid, date) == None
  {
    if r.Response? {
      MagicChecksAgree(r.body);
    }
  }

  /** Every saved name uses only word characters, `-` and `.`, and has at most 80 characters. */
  lemma FileNameSafe(kind: Kind, oid: string, date: Option<Date>)
    ensures var r := FileName(kind, oid, date);
            |r| <= 80 && forall i :: 0 <= i < |r| ==> SafeChar(r[i], true)
  {
    var s := Sanitize(RawFileName(kind, oid, date), true);
    var r := Take(s, 80);
    forall i | 0 <= i < |r| ensures SafeChar(r[i], true) {
      assert r[i] == s[i];
    }
  }

  lemma IsoDateShape(d: Date)
    requires ValidDate(d)
    ensures |IsoDate(d)| == 10
    ensures forall i :: 0 <= i < 10 ==> IsDigit(IsoDate(d)[i]) || IsoDate(d)[i] == '-'
  {
    assert Pow10(4) == 10000 && Pow10(2) == 100;
    ZeroPadLength(d.year, 4);
    ZeroPadLength(d.month, 2);
    ZeroPadLength(d.day, 2);
  }

  /**
   * With a valid date the name is `<provider>_<YYYY-MM-DD>_<short id>.pdf`
   * unchanged by sanitising and cutting: the short id has at most 30
   * characters, the whole name at most 57, and it ends in `.pdf`.
   */
  lemma DatedFileName(kind: Kind, oid: string, d: Date)
    requires ValidDate(d)
    ensures FileName(kind, oid, Some(d)) == ProviderId(kind) + "_" + IsoDate(d) + "_" + ShortId(oid) + ".pdf"
    ensures |ShortId(oid)| <= 30
    ensures |FileName(kind, oid, Some(d))| <= 57
    ensures EndsWith(FileName(kind, oid, Some(d)), ".pdf")
  {
    IsoDateShape(d);
    var name := RawFileName(kind, oid, Some(d));
    var iso := IsoDate(d);
    var short := ShortId(oid);
    var p := ProviderId(kind);
    assert name == p + "_" + iso + "_" + short + ".pdf";
    forall i | 0 <= i < |short| ensures SafeChar(short[i], true) {
      assert short[i] == Sanitize(oid, false)[i];
    }
    forall i | 0 <= i < |name| ensures SafeChar(name[i], true) {
      if i < |p| {
        assert name[i] == p[i];
      } else if i == |p| {
        assert name[i] == '_';
      } else if i < |p| + 1 + 10 {
        assert name[i] == iso[i - |p| - 1];
      } else if i == |p| + 11 {
        assert name[i] == '_';
      } else if i < |p| + 12 + |short| {
        assert name[i] == short[i - |p| - 12];
      } else {
        assert name[i] == ".pdf"[i - |p| - 12 - |short|];
      }
    }
    assert |name| <= 57;
    assert name[|name| - 4..] == ".pdf";
  }

  /** Without a date the extension is not protected: a long enough order id pushes `.pdf` past the cut at 80 characters. */
  lemma UndatedNameMayLoseExtension(kind: Kind)
    ensures exists oid :: !EndsWith(FileName(kind, oid, None), ".pdf")
  {
    var oid := seq(80, _ => 'a');
    var p := ProviderId(kind);
    var name := RawFileName(kind, oid, None);
    assert name == p + "_" + oid + ".pdf";
    forall i | 0 <= i < |name| ensures SafeChar(name[i], true) {
      if i < |p| {
        assert name[i] == p[i];
      } else if i == |p| {
        assert name[i] == '_';
      } else if i < |p| + 81 {
        assert name[i] == oid[i - |p| - 1];
      } else {
        assert name[i] == ".pdf"[i - |p| - 81];
      }
    }
    var r := FileName(kind, oid, None);
    assert r == name[..80];
    assert r[79] == oid[79 - |p| - 1] == 'a';
    assert r[|r| - 4..][3] == r[79];
  }

  /** An id already in the registry is skipped, whatever fetching would give, unless forced. */
  lemma RegisteredIsSkipped(kind: Kind, target: Target, orderId: string, date: Option<Date>, fetch: string -> Fetch)
    ensures DownloadOutcome(kind, true, target, orderId, date, false, fetch) == None
  {
  }

  /**
   * A file name comes back exactly for a target with a URL whose response is
   * a PDF that is written, and it is the name built from the effective id
   * and the date. Only an order with a URL or a string starting with `http`
   * has a URL; any other value is never downloaded.
   */
  lemma DownloadNeedsPdf(kind: Kind, registered: bool, target: Target, orderId: string, date: Option<Date>,
                         force: bool, fetch: string -> Fetch)
    ensures var r := DownloadOutcome(kind, registered, target, orderId, date, force, fetch);
            r.Some? <==> (force || !registered) && TargetUrl(target).Some? && Saves(kind, fetch(TargetUrl(target).value))
    ensures target.ByOther? ==> DownloadOutcome(kind, registered, target, orderId, date, force, fetch) == None
    ensures var r := DownloadOutcome(kind, registered, target, orderId, date, force, fetch);
            r.Some? ==> r.value == FileName(kind, EffectiveId(target, orderId), date)
  {
  }
}
