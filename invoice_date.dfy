/**
 * Invoice-date extraction from a link title or URL
 * (`_parse_invoice_date_from_title`, `_parse_invoice_date_from_url`,
 * `_invoice_date_from_title_and_url`).
 *
 * Each regular expression is modelled by a function `...At(s, i)` that says
 * whether the pattern matches starting at position `i` (and what the groups
 * are), and `Search` takes the leftmost such position, as `re.search` does.
 * Only the leftmost match of each pattern is range-checked: a match that is out
 * of range is not followed by a search for a later one.
 */
module InvoiceDate {
  import opened Wrappers
  import opened Text
  import opened Orders

  /** `_MOIS_FR` in its insertion (iteration) order. */
  const MonthNames: seq<(string, nat)> := [
    ("janvier", 1), ("février", 2), ("fevrier", 2), ("mars", 3), ("avril", 4), ("mai", 5),
    ("juin", 6), ("juillet", 7), ("août", 8), ("aout", 8), ("septembre", 9),
    ("octobre", 10), ("novembre", 11), ("décembre", 12), ("decembre", 12)
  ]

  /** The year and month bounds every form checks before building a date. */
  predicate InRange(y: nat, m: nat) { 2000 <= y <= 2100 && 1 <= m <= 12 }

  /** What every recognised invoice date looks like: in range, first of the month. */
  predicate InvoiceMonth(d: Date) { InRange(d.year, d.month) && d.day == 1 }

  /** The leftmost position in `[i, n)` where `at` matches, with its groups. */
  function Search<T>(n: nat, i: nat, at: nat -> Option<T>): Option<T>
    decreases n - i
  {
    if i >= n then None else if at(i).Some? then at(i) else Search(n, i + 1, at)
  }

  lemma {:induction false} SearchIsLeftmost<T>(n: nat, i: nat, at: nat -> Option<T>)
    ensures Search(n, i, at).Some? ==>
              exists j :: i <= j < n && at(j) == Search(n, i, at) && forall k :: i <= k < j ==> at(k).None?
    ensures Search(n, i, at).None? <==> forall j :: i <= j < n ==> at(j).None?
    decreases n - i
  {
    if i < n && at(i).None? {
      SearchIsLeftmost(n, i + 1, at);
    }
  }

  /** `\d{4}` at `i`. */
  function Digits4(s: string, i: nat): (r: Option<nat>)
    ensures r.Some? ==> r.value < 10000
  {
    if i + 4 <= |s| && IsDigit(s[i]) && IsDigit(s[i + 1]) && IsDigit(s[i + 2]) && IsDigit(s[i + 3]) then
      var t := s[i..i + 4];
      DigitsValueBound(t);
      assert Pow10(4) == 10000;
      Some(DigitsValue(t))
    else None
  }

  /** `\d{1,2}` at `i`, greedy: two digits when the second one is there. */
  function Digits12(s: string, i: nat): Option<nat>
  {
    if i < |s| && IsDigit(s[i]) then
      if i + 1 < |s| && IsDigit(s[i + 1]) then Some(10 * DigitValue(s[i]) + DigitValue(s[i + 1]))
      else Some(DigitValue(s[i]))
    else None
  }

  /** First index at or after `k` that is not whitespace (the end of a greedy `\s*`). */
  function SkipSpaces(s: string, k: nat): (e: nat)
    ensures k <= e
    ensures e <= |s| || e == k
    decreases |s| - k
  {
    if k < |s| && IsSpace(s[k]) then SkipSpaces(s, k + 1) else k
  }

  /** `<name>\s+(\d{4})` at `i`; `\s+` is maximal since a digit is never whitespace. */
  function MonthNameAt(s: string, i: nat, name: string): Option<nat>
  {
    var k := i + |name|;
    if k < |s| && s[i..k] == name && IsSpace(s[k]) then Digits4(s, SkipSpaces(s, k)) else None
  }

  /** `(\d{4})[-/](\d{1,2})` at `i`: (year, month). */
  function YearMonthAt(s: string, i: nat): Option<(nat, nat)>
  {
    if i + 5 < |s| && Digits4(s, i).Some? && (s[i + 4] == '-' || s[i + 4] == '/') && IsDigit(s[i + 5]) then
      Some((Digits4(s, i).value, Digits12(s, i + 5).value))
    else None
  }

  /**
   * `(\d{1,2})/(\d{4})` at `i`: (year, month). With two digits in front of
   * the slash, backtracking to one digit cannot help (the next character is a
   * digit, not `/`).
   */
  function MonthYearAt(s: string, i: nat): Option<(nat, nat)>
  {
    if i + 1 < |s| && IsDigit(s[i]) && IsDigit(s[i + 1]) then
      if i + 2 < |s| && s[i + 2] == '/' && Digits4(s, i + 3).Some? then
        Some((Digits4(s, i + 3).value, 10 * DigitValue(s[i]) + DigitValue(s[i + 1])))
      else None
    else if i + 1 < |s| && IsDigit(s[i]) && s[i + 1] == '/' && Digits4(s, i + 2).Some? then
      Some((Digits4(s, i + 2).value, DigitValue(s[i])))
    else None
  }

  predicate IsSep(c: char) { c == '/' || c == '_' || c == '-' }

  predicate IsSegmentEnd(c: char) { IsSep(c) || c == '.' }

  /**
   * `[/_\-](\d{4})[/_\-](\d{1,2})(?:[/_\-]|\.)` at `i`: (year, month). When the
   * month has two digits but no terminator follows, backtracking to one digit
   * fails too (the terminator would have to be that second digit).
   */
  function UrlSegmentAt(s: string, i: nat): Option<(nat, nat)>
  {
    if i + 7 < |s| && IsSep(s[i]) && Digits4(s, i + 1).Some? && IsSep(s[i + 5]) && IsDigit(s[i + 6]) then
      if IsDigit(s[i + 7]) then
        if i + 8 < |s| && IsSegmentEnd(s[i + 8]) then Some((Digits4(s, i + 1).value, Digits12(s, i + 6).value)) else None
      else if IsSegmentEnd(s[i + 7]) then Some((Digits4(s, i + 1).value, DigitValue(s[i + 6])))
      else None
    else None
  }

  /** `[?&]<key>` at `i`, with `key` matched case-insensitively (`re.I`). */
  predicate QueryKeyAt(s: string, i: nat, key: string) {
    i + 1 + |key| <= |s| && (s[i] == '?' || s[i] == '&') && Lower(s[i + 1..i + 1 + |key|]) == key
  }

  /** `[?&]year=(\d{4})` at `i`. */
  function YearQueryAt(s: string, i: nat): Option<nat> {
    if QueryKeyAt(s, i, "year=") then Digits4(s, i + 6) else None
  }

  /** `[?&]month=(\d{1,2})` at `i`. */
  function MonthQueryAt(s: string, i: nat): Option<nat> {
    if QueryKeyAt(s, i, "month=") then Digits12(s, i + 7) else None
  }

  /** A numeric (year, month) match becomes a date only when both are in range. */
  function AcceptNumeric(m: Option<(nat, nat)>): (r: Option<Date>)
    ensures r.Some? ==> InvoiceMonth(r.value) && m == Some((r.value.year, r.value.month))
  {
    match m
    case Some((y, mo)) => if InRange(y, mo) then Some(Date(y, mo, 1)) else None
    case None => None
  }

  /** The month-name loop over `_MOIS_FR`, from table entry `k` on. */
  function MonthNameForm(low: string, k: nat): (r: Option<Date>)
    ensures r.Some? ==> InvoiceMonth(r.value)
    decreases |MonthNames| - k
  {
    if k >= |MonthNames| then None
    else
      match Search(|low|, 0, i => MonthNameAt(low, i, MonthNames[k].0))
      case Some(y) => if InRange(y, MonthNames[k].1) then Some(Date(y, MonthNames[k].1, 1)) else MonthNameForm(low, k + 1)
      case None => MonthNameForm(low, k + 1)
  }

  /**
   * `_parse_invoice_date_from_title`: month name and year, then `YYYY-M`,
   * then (Free Mobile only) `M/YYYY`.
   */
  function ParseTitle(kind: Kind, title: string): (r: Option<Date>)
    ensures title == "" ==> r.None?
    ensures r.Some? ==> InvoiceMonth(r.value)
  {
    if title == "" then None
    else
      var named := MonthNameForm(Lower(title), 0);
      if named.Some? then named
      else
        var ym := AcceptNumeric(Search(|title|, 0, i => YearMonthAt(title, i)));
        if ym.Some? then ym
        else if kind == FreeMobile then AcceptNumeric(Search(|title|, 0, i => MonthYearAt(title, i)))
        else None
  }

  /** `_parse_invoice_date_from_url` (Free Mobile): a `/YYYY/MM/` segment, then `?year=&month=`. */
  function ParseUrl(href: string): (r: Option<Date>)
    ensures href == "" ==> r.None?
    ensures r.Some? ==> InvoiceMonth(r.value)
  {
    if href == "" then None
    else
      var seg := AcceptNumeric(Search(|href|, 0, i => UrlSegmentAt(href, i)));
      if seg.Some? then seg
      else
        match Search(|href|, 0, i => YearQueryAt(href, i))
        case Some(y) =>
          if 2000 <= y <= 2100 then
            var mq := Search(|href|, 0, i => MonthQueryAt(href, i));
            Some(Date(y, if mq.Some? && 1 <= mq.value <= 12 then mq.value else 1, 1))
          else None
        case None => None
  }

  /** `_invoice_date_from_title_and_url`: the title first, the URL only when the title gives nothing. */
  function DateFromTitleAndUrl(title: string, href: string): (r: Option<Date>)
    ensures r.Some? ==> InvoiceMonth(r.value)
  {
    var t := ParseTitle(FreeMobile, title);
    if t.Some? then t else ParseUrl(href)
  }

  // ---------------------------------------------------------------- properties

  /** The month-name form only reports a (name, year) pair that literally occurs in the lowered title. */
  lemma {:induction false} MonthNameFormWitnessed(low: string, k: nat)
    requires MonthNameForm(low, k).Some?
    ensures var d := MonthNameForm(low, k).value;
            exists n: nat, j: nat :: k <= n < |MonthNames| && j < |low| && MonthNames[n].1 == d.month &&
                           MonthNameAt(low, j, MonthNames[n].0) == Some(d.year)
    decreases |MonthNames| - k
  {
    var d := MonthNameForm(low, k).value;
    var entry := MonthNames[k];
    var at := i => MonthNameAt(low, i, entry.0);
    var found := Search(|low|, 0, at);
    if found.Some? && InRange(found.value, entry.1) {
      SearchIsLeftmost(|low|, 0, at);
      var j: nat :| j < |low| && at(j) == found;
    } else {
      MonthNameFormWitnessed(low, k + 1);
    }
  }

  /**
   * A date parsed from a title is really written in it: as a month name and a
   * year, as `YYYY-M` / `YYYY/M`, or, for Free Mobile only, as `M/YYYY`.
   */
  lemma TitleDateWitnessed(kind: Kind, title: string)
    requires ParseTitle(kind, title).Some?
    ensures var d := ParseTitle(kind, title).value;
            (exists n: nat, j: nat :: 0 <= n < |MonthNames| && j < |title| && MonthNames[n].1 == d.month &&
                            MonthNameAt(Lower(title), j, MonthNames[n].0) == Some(d.year)) ||
            (exists j: nat :: j < |title| && YearMonthAt(title, j) == Some((d.year, d.month))) ||
            (kind == FreeMobile && exists j: nat :: j < |title| && MonthYearAt(title, j) == Some((d.year, d.month)))
  {
    var low := Lower(title);
    if MonthNameForm(low, 0).Some? {
      MonthNameFormWitnessed(low, 0);
    } else {
      var ym := i => YearMonthAt(title, i);
      var my := i => MonthYearAt(title, i);
      SearchIsLeftmost(|title|, 0, ym);
      SearchIsLeftmost(|title|, 0, my);
    }
  }

  /**
   * Freebox recognises a subset of what Free Mobile recognises: where Freebox
   * finds a date, Free Mobile finds the same one; where only Free Mobile does,
   * the date came from the `M/YYYY` form Freebox lacks.
   */
  lemma FreeboxTitleFormsAreFewer(title: string)
    ensures ParseTitle(Freebox, title).Some? ==> ParseTitle(FreeMobile, title) == ParseTitle(Freebox, title)
    ensures ParseTitle(Freebox, title).None? ==>
              ParseTitle(FreeMobile, title) == (if title == "" then None else AcceptNumeric(Search(|title|, 0, i => MonthYearAt(title, i))))
  {
  }

  /** The URL only matters when the title gives no date. */
  lemma UrlConsultedOnlyWithoutTitleDate(title: string, href1: string, href2: string)
    ensures ParseTitle(FreeMobile, title).Some? ==> DateFromTitleAndUrl(title, href1) == DateFromTitleAndUrl(title, href2)
    ensures ParseTitle(FreeMobile, title).None? ==> DateFromTitleAndUrl(title, href1) == ParseUrl(href1)
  {
  }

  /** A `/YYYY/MM/`-style match has a separator before the year, between year and month, and after the month. */
  lemma {:induction false} UrlSegmentNeedsSeparators(s: string, i: nat)
    requires UrlSegmentAt(s, i).Some?
    ensures IsSep(s[i]) && IsSep(s[i + 5])
    ensures exists e :: i + 7 <= e <= i + 8 && e < |s| && IsSegmentEnd(s[e]) && forall k :: i + 6 <= k < e ==> IsDigit(s[k])
  {
    if IsDigit(s[i + 7]) {
      assert i + 8 < |s| && IsSegmentEnd(s[i + 8]);
    } else {
      assert IsSegmentEnd(s[i + 7]);
    }
  }

  /**
   * A date parsed from a URL is really written in it: as a `/YYYY/MM/`-style
   * segment, or as a `year=` query parameter whose month is either 1 or
   * written in a `month=` parameter.
   */
  lemma UrlDateWitnessed(href: string)
    requires ParseUrl(href).Some?
    ensures var d := ParseUrl(href).value;
            (exists j: nat :: j < |href| && UrlSegmentAt(href, j) == Some((d.year, d.month))) ||
            ((exists j: nat :: j < |href| && YearQueryAt(href, j) == Some(d.year)) &&
             (d.month == 1 || exists j: nat :: j < |href| && MonthQueryAt(href, j) == Some(d.month)))
  {
    SearchIsLeftmost(|href|, 0, i => UrlSegmentAt(href, i));
    SearchIsLeftmost(|href|, 0, i => YearQueryAt(href, i));
    SearchIsLeftmost(|href|, 0, i => MonthQueryAt(href, i));
  }

  /** An in-range `year=` with no usable `month=` (missing or outside 1..12) gives January, when no segment date precedes it. */
  lemma UrlMonthDefaultsToJanuary(href: string, y: nat)
    requires href != ""
    requires AcceptNumeric(Search(|href|, 0, i => UrlSegmentAt(href, i))).None?
    requires Search(|href|, 0, i => YearQueryAt(href, i)) == Some(y) && 2000 <= y <= 2100
    requires forall j :: 0 <= j < |href| ==> MonthQueryAt(href, j).None? || MonthQueryAt(href, j).value !in {1, 2, 3, 4, 5, 6, 7, 8, 9, 10, 11, 12}
    ensures ParseUrl(href) == Some(Date(y, 1, 1))
  {
    var mq := i => MonthQueryAt(href, i);
    SearchIsLeftmost(|href|, 0, mq);
  }

  // ------------------------------------------------------- completeness

  /** `at` first matches at `j`, and `Search` from any earlier start reports that match. */
  lemma {:induction false} SearchFindsLeftmost<T>(n: nat, i: nat, at: nat -> Option<T>, j: nat)
    requires i <= j < n && at(j).Some?
    requires forall k :: i <= k < j ==> at(k).None?
    ensures Search(n, i, at) == at(j)
    decreases j - i
  {
    if i < j {
      SearchFindsLeftmost(n, i + 1, at, j);
    }
  }

  /** Entry `m` of `_MOIS_FR` yields no date: its leftmost match is missing or out of range. */
  predicate NameGivesNoDate(low: string, m: nat)
    requires m < |MonthNames|
  {
    var f := Search(|low|, 0, i => MonthNameAt(low, i, MonthNames[m].0));
    f.None? || !InRange(f.value, MonthNames[m].1)
  }

  /** The month-name loop finds nothing exactly when no remaining entry yields a date. */
  lemma {:induction false} MonthNameFormNone(low: string, k: nat)
    ensures MonthNameForm(low, k).None? <==> forall m :: k <= m < |MonthNames| ==> NameGivesNoDate(low, m)
    decreases |MonthNames| - k
  {
    if k < |MonthNames| {
      MonthNameFormNone(low, k + 1);
      assert MonthNameForm(low, k).None? <==> NameGivesNoDate(low, k) && MonthNameForm(low, k + 1).None?;
      assert (forall m :: k <= m < |MonthNames| ==> NameGivesNoDate(low, m)) <==>
             NameGivesNoDate(low, k) && forall m :: k + 1 <= m < |MonthNames| ==> NameGivesNoDate(low, m);
    }
  }

  /** The month-name loop returns the date of the first table entry, from `k` on, that yields one. */
  lemma {:induction false} MonthNameFormFinds(low: string, k: nat, n: nat, y: nat)
    requires k <= n < |MonthNames|
    requires Search(|low|, 0, i => MonthNameAt(low, i, MonthNames[n].0)) == Some(y) && InRange(y, MonthNames[n].1)
    requires forall m :: k <= m < n ==> NameGivesNoDate(low, m)
    ensures MonthNameForm(low, k) == Some(Date(y, MonthNames[n].1, 1))
    decreases n - k
  {
    if k < n {
      assert NameGivesNoDate(low, k);
      MonthNameFormFinds(low, k + 1, n, y);
    }
  }

  /**
   * A month name written in the title with an in-range year is found: when
   * its leftmost occurrence is at `j` and no earlier table entry yields a
   * date, the title's date is that month and year, for both providers.
   */
  lemma TitleMonthNameFound(kind: Kind, title: string, n: nat, j: nat, y: nat)
    requires n < |MonthNames| && j < |title|
    requires MonthNameAt(Lower(title), j, MonthNames[n].0) == Some(y) && InRange(y, MonthNames[n].1)
    requires forall k :: 0 <= k < j ==> MonthNameAt(Lower(title), k, MonthNames[n].0).None?
    requires forall m :: 0 <= m < n ==> NameGivesNoDate(Lower(title), m)
    ensures ParseTitle(kind, title) == Some(Date(y, MonthNames[n].1, 1))
  {
    var low := Lower(title);
    SearchFindsLeftmost(|low|, 0, i => MonthNameAt(low, i, MonthNames[n].0), j);
    MonthNameFormFinds(low, 0, n, y);
  }

  /**
   * When no month name yields a date, a `YYYY-M` / `YYYY/M` written in the
   * title is found: its leftmost occurrence, when in range, is the date, for
   * both providers.
   */
  lemma TitleYearMonthFound(kind: Kind, title: string, j: nat, y: nat, mo: nat)
    requires j < |title|
    requires forall m :: 0 <= m < |MonthNames| ==> NameGivesNoDate(Lower(title), m)
    requires YearMonthAt(title, j) == Some((y, mo)) && InRange(y, mo)
    requires forall k :: 0 <= k < j ==> YearMonthAt(title, k).None?
    ensures ParseTitle(kind, title) == Some(Date(y, mo, 1))
  {
    MonthNameFormNone(Lower(title), 0);
    SearchFindsLeftmost(|title|, 0, i => YearMonthAt(title, i), j);
  }

  /**
   * When neither a month name nor the leftmost `YYYY-M` yields a date, an
   * `M/YYYY` written in the title is found by Free Mobile (its leftmost
   * occurrence, when in range), and Freebox finds no date.
   */
  lemma TitleMonthYearFound(title: string, j: nat, y: nat, mo: nat)
    requires j < |title|
    requires forall m :: 0 <= m < |MonthNames| ==> NameGivesNoDate(Lower(title), m)
    requires AcceptNumeric(Search(|title|, 0, i => YearMonthAt(title, i))).None?
    requires MonthYearAt(title, j) == Some((y, mo)) && InRange(y, mo)
    requires forall k :: 0 <= k < j ==> MonthYearAt(title, k).None?
    ensures ParseTitle(FreeMobile, title) == Some(Date(y, mo, 1))
    ensures ParseTitle(Freebox, title) == None
  {
    MonthNameFormNone(Lower(title), 0);
    SearchFindsLeftmost(|title|, 0, i => MonthYearAt(title, i), j);
  }

  /** A `/YYYY/MM/`-style segment in the URL is found: its leftmost occurrence, when in range, is the date. */
  lemma UrlSegmentFound(href: string, j: nat, y: nat, mo: nat)
    requires j < |href|
    requires UrlSegmentAt(href, j) == Some((y, mo)) && InRange(y, mo)
    requires forall k :: 0 <= k < j ==> UrlSegmentAt(href, k).None?
    ensures ParseUrl(href) == Some(Date(y, mo, 1))
  {
    SearchFindsLeftmost(|href|, 0, i => UrlSegmentAt(href, i), j);
  }

  /**
   * Without a segment date, `?year=YYYY&month=M` is found: the leftmost
   * `year=`, when in range, and the leftmost `month=`, when in 1..12, give
   * the date.
   */
  lemma UrlQueryFound(href: string, jy: nat, y: nat, jm: nat, mo: nat)
    requires jy < |href| && jm < |href|
    requires AcceptNumeric(Search(|href|, 0, i => UrlSegmentAt(href, i))).None?
    requires YearQueryAt(href, jy) == Some(y) && 2000 <= y <= 2100
    requires forall k :: 0 <= k < jy ==> YearQueryAt(href, k).None?
    requires MonthQueryAt(href, jm) == Some(mo) && 1 <= mo <= 12
    requires forall k :: 0 <= k < jm ==> MonthQueryAt(href, k).None?
    ensures ParseUrl(href) == Some(Date(y, mo, 1))
  {
    SearchFindsLeftmost(|href|, 0, i => YearQueryAt(href, i), jy);
    SearchFindsLeftmost(|href|, 0, i => MonthQueryAt(href, i), jm);
  }

  /** The two URL shapes the parser is written for, `.../2026/02/...` and `?year=2026&month=2`. */
  lemma UrlExamples()
    ensures ParseUrl("/2026/02/") == Some(Date(2026, 2, 1))
    ensures ParseUrl("?year=2026&month=2") == Some(Date(2026, 2, 1))
  {
    SegmentExample();
    QueryExample();
  }

  lemma SegmentExample()
    ensures ParseUrl("/2026/02/") == Some(Date(2026, 2, 1))
  {
    var seg := "/2026/02/";
    assert seg[1..5] == "2026";
    Value2026();
    UrlSegmentFound(seg, 0, 2026, 2);
  }

  lemma QueryExample()
    ensures ParseUrl("?year=2026&month=2") == Some(Date(2026, 2, 1))
  {
    var q := "?year=2026&month=2";
    NoSegmentInQuery(q);
    QueryKeys(q);
    Value2026();
    NoMonthBeforeAmpersand(q);
    UrlQueryFound(q, 0, 2026, 10, 2);
  }

  lemma QueryKeys(q: string)
    requires q == "?year=2026&month=2"
    ensures Lower(q[1..6]) == "year=" && q[6..10] == "2026" && Lower(q[11..17]) == "month="
  {
  }

  lemma NoMonthBeforeAmpersand(q: string)
    requires q == "?year=2026&month=2"
    ensures forall k :: 0 <= k < 10 ==> MonthQueryAt(q, k).None?
  {
    forall k | 0 <= k < 10 ensures MonthQueryAt(q, k).None? {
      if k == 0 {
        assert Lower(q[1..7])[5] == '2';
      }
    }
  }

  lemma NoSegmentInQuery(q: string)
    requires q == "?year=2026&month=2"
    ensures Search(|q|, 0, i => UrlSegmentAt(q, i)).None?
  {
    forall k | 0 <= k < |q| ensures UrlSegmentAt(q, k).None? {
      assert !IsSep(q[k]);
    }
    SearchIsLeftmost(|q|, 0, i => UrlSegmentAt(q, i));
  }

  lemma Value2026()
    ensures DigitsValue("2026") == 2026
  {
    assert "2026"[..3] == "202" && "202"[..2] == "20" && "20"[..1] == "2" && "2"[..0] == "";
  }
}
