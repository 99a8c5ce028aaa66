/**
 * The string primitives the scrapers use: substring tests, `lower()`,
 * `strip()`, decimal rendering and the character classes of Python's `re`.
 *
 * Approximations (the model works on ASCII plus Latin-1 where it matters):
 * `\d` is an ASCII digit, `\w` an ASCII letter, digit or underscore, and
 * `lower()` folds ASCII and Latin-1 capitals only. Whitespace is Python's
 * full set.
 */
module Text {

  predicate IsDigit(c: char) { '0' <= c <= '9' }

  predicate IsAsciiLetter(c: char) { 'a' <= c <= 'z' || 'A' <= c <= 'Z' }

  /** `\w` restricted to ASCII. */
  predicate IsWordChar(c: char) { IsAsciiLetter(c) || IsDigit(c) || c == '_' }

  /**
   * `\s`, `str.isspace` and the default of `str.strip`: the characters
   * Unicode classes as spaces or as segment, paragraph or line separators.
   */
  predicate IsSpace(c: char) {
    '\t' <= c <= '\r' || '\U{1C}' <= c <= ' ' || c == '\U{85}' || c == '\U{A0}' || c == '\U{1680}' ||
    '\U{2000}' <= c <= '\U{200A}' || c == '\U{2028}' || c == '\U{2029}' || c == '\U{202F}' || c == '\U{205F}' ||
    c == '\U{3000}'
  }

  /** `str.lower` on one character: ASCII and Latin-1 capitals. */
  function LowerChar(c: char): (r: char)
    ensures IsDigit(c) <==> IsDigit(r)
    ensures IsSpace(c) <==> IsSpace(r)
    ensures 'a' <= r <= 'z' <==> 'a' <= c <= 'z' || 'A' <= c <= 'Z'
    ensures !('A' <= r <= 'Z')
  {
    if 'A' <= c <= 'Z' || ('\U{C0}' <= c <= '\U{DE}' && c != '\U{D7}') then (c as int + 32) as char else c
  }

  /**
   * `str.lower`: the length is kept and no ASCII capital is left; the result
   * is already folded (so lowering twice is lowering once), and a string that
   * is already folded comes back unchanged.
   */
  function Lower(s: string): (r: string)
    ensures |r| == |s|
    ensures forall i :: 0 <= i < |r| ==> !('A' <= r[i] <= 'Z')
    ensures forall i :: 0 <= i < |r| ==> LowerChar(r[i]) == r[i]
    ensures (forall i :: 0 <= i < |s| ==> LowerChar(s[i]) == s[i]) ==> r == s
  {
    seq(|s|, i requires 0 <= i < |s| => LowerChar(s[i]))
  }

  /** Python's `sub in s`. */
  predicate Contains(s: string, sub: string)
    decreases |s|
  {
    sub <= s || (|s| > 0 && Contains(s[1..], sub))
  }

  predicate StartsWith(s: string, prefix: string) { prefix <= s }

  predicate EndsWith(s: string, suffix: string) {
    |suffix| <= |s| && s[|s| - |suffix|..] == suffix
  }

  /** `lstrip()` */
  function TrimStart(s: string): (r: string)
    ensures |r| <= |s|
    decreases |s|
  {
    if |s| > 0 && IsSpace(s[0]) then TrimStart(s[1..]) else s
  }

  /** `rstrip()` */
  function TrimEnd(s: string): (r: string)
    ensures |r| <= |s|
    decreases |s|
  {
    if |s| > 0 && IsSpace(s[|s| - 1]) then TrimEnd(s[..|s| - 1]) else s
  }

  /**
   * Python's `str.strip()`: the slice `s[a..b]` left once the whitespace on
   * both edges is cut off, and nothing else.
   */
  function Strip(s: string): (r: string)
    ensures |r| <= |s|
    ensures exists a: nat, b: nat :: a <= b <= |s| && r == s[a..b] && EdgesBlank(s, a, b)
    ensures r != [] ==> !IsSpace(r[0]) && !IsSpace(r[|r| - 1])
  {
    StripNoEdges(s);
    StripSlice(s);
    TrimEnd(TrimStart(s))
  }

  /** `lstrip()` keeps a suffix of `s`; everything it cuts off is whitespace. */
  lemma {:induction false} TrimStartCuts(s: string)
    ensures var r := TrimStart(s);
            r == s[|s| - |r|..] && forall i :: 0 <= i < |s| - |r| ==> IsSpace(s[i])
    decreases |s|
  {
    if |s| > 0 && IsSpace(s[0]) {
      TrimStartCuts(s[1..]);
    }
  }

  /** `rstrip()` keeps a prefix of `s`; everything it cuts off is whitespace. */
  lemma {:induction false} TrimEndCuts(s: string)
    ensures var r := TrimEnd(s);
            r == s[..|r|] && forall i :: |r| <= i < |s| ==> IsSpace(s[i])
    decreases |s|
  {
    if |s| > 0 && IsSpace(s[|s| - 1]) {
      TrimEndCuts(s[..|s| - 1]);
    }
  }

  lemma StripSlice(s: string)
    ensures var r := TrimEnd(TrimStart(s));
            exists a: nat, b: nat :: a <= b <= |s| && r == s[a..b] && EdgesBlank(s, a, b)
  {
    var a, b := StripBounds(s);
    assert a <= b <= |s| && TrimEnd(TrimStart(s)) == s[a..b] && EdgesBlank(s, a, b);
  }

  /** Where the slice `strip()` keeps starts and ends. */
  lemma StripBounds(s: string) returns (a: nat, b: nat)
    ensures a <= b <= |s| && TrimEnd(TrimStart(s)) == s[a..b] && EdgesBlank(s, a, b)
  {
    var t := TrimStart(s);
    a := |s| - |t|;
    var r := TrimEnd(t);
    TrimStartCuts(s);
    TrimEndCuts(t);
    b := a + |r|;
    SliceOfSuffix(s, a, |r|);
    assert t == s[a..] && r == t[..|r|];
    RightEdgeBlank(s, t, a, |r|);
  }

  lemma RightEdgeBlank(s: string, t: string, a: nat, k: nat)
    requires a <= |s| && t == s[a..] && k <= |t|
    requires forall i :: k <= i < |t| ==> IsSpace(t[i])
    ensures forall i :: a + k <= i < |s| ==> IsSpace(s[i])
  {
    forall i | a + k <= i < |s| ensures IsSpace(s[i]) {
      assert s[i] == t[i - a];
    }
  }

  /** Everything outside `s[a..b]` is whitespace. */
  predicate EdgesBlank(s: string, a: nat, b: nat)
    requires a <= b <= |s|
  {
    (forall i :: 0 <= i < a ==> IsSpace(s[i])) && (forall i :: b <= i < |s| ==> IsSpace(s[i]))
  }

  /** Two sequences that apply `f` to a prefix of `xs`, one element apart. */
  lemma PointwiseSnoc<A, B>(xs: seq<A>, f: A -> B, a: seq<B>, b: seq<B>, i: nat)
    requires i < |xs| && |a| == i + 1 && |b| == i
    requires forall j :: 0 <= j < |a| ==> a[j] == f(xs[j])
    requires forall j :: 0 <= j < |b| ==> b[j] == f(xs[j])
    ensures a == b + [f(xs[i])]
  {
  }

  /** `a` is `b` with `x` appended when they agree on `b`'s positions and `a` ends in `x`. */
  lemma SnocPointwise<T>(a: seq<T>, b: seq<T>, x: T)
    requires |a| == |b| + 1 && a[|b|] == x
    requires forall j :: 0 <= j < |b| ==> a[j] == b[j]
    ensures a == b + [x]
  {
  }

  lemma AppendAssoc<T>(a: seq<T>, b: seq<T>, c: seq<T>)
    ensures a + (b + c) == (a + b) + c
  {
  }

  lemma SliceOfSuffix<T>(s: seq<T>, a: nat, k: nat)
    requires a + k <= |s|
    ensures s[a..][..k] == s[a..a + k]
  {
  }

  lemma {:induction false} TrimStartNoEdge(s: string)
    ensures TrimStart(s) != [] ==> !IsSpace(TrimStart(s)[0])
    decreases |s|
  {
    if |s| > 0 && IsSpace(s[0]) { TrimStartNoEdge(s[1..]); }
  }

  lemma {:induction false} TrimEndKeepsHead(s: string)
    requires s != [] && !IsSpace(s[0])
    ensures TrimEnd(s) != [] && TrimEnd(s)[0] == s[0] && !IsSpace(TrimEnd(s)[|TrimEnd(s)| - 1])
    decreases |s|
  {
    if IsSpace(s[|s| - 1]) {
      TrimEndKeepsHead(s[..|s| - 1]);
    }
  }

  lemma StripNoEdges(s: string)
    ensures var r := TrimEnd(TrimStart(s));
            r != [] ==> !IsSpace(r[0]) && !IsSpace(r[|r| - 1])
  {
    TrimStartNoEdge(s);
    var t := TrimStart(s);
    if t != [] { TrimEndKeepsHead(t); }
    else { assert TrimEnd(t) == []; }
  }

  function DigitValue(c: char): nat
    requires IsDigit(c)
  {
    c as nat - '0' as nat
  }

  /** `int(s)` for a non-empty run of ASCII digits. */
  function DigitsValue(s: string): nat
    requires forall i :: 0 <= i < |s| ==> IsDigit(s[i])
  {
    if s == [] then 0 else 10 * DigitsValue(s[..|s| - 1]) + DigitValue(s[|s| - 1])
  }

  lemma {:induction false} DigitsValueBound(s: string)
    requires forall i :: 0 <= i < |s| ==> IsDigit(s[i])
    ensures DigitsValue(s) < Pow10(|s|)
  {
    if s != [] { DigitsValueBound(s[..|s| - 1]); }
  }

  function Pow10(n: nat): (r: nat)
    ensures r >= 1
  {
    if n == 0 then 1 else 10 * Pow10(n - 1)
  }

  /**
   * Decimal rendering of a natural number, as `str(n)` / `f"{n}"`: digits
   * reading back as `n`, with no leading zero.
   */
  function NatToString(n: nat): (r: string)
    ensures |r| >= 1
    ensures forall i :: 0 <= i < |r| ==> IsDigit(r[i])
    ensures DigitsValue(r) == n
    ensures r[0] == '0' ==> r == "0"
    decreases n
  {
    var d := ['0' + (n % 10) as char];
    if n < 10 then d
    else
      var h := NatToString(n / 10);
      assert (h + d)[..|h|] == h;
      h + d
  }

  lemma {:induction false} NatToStringLength(n: nat, k: nat)
    requires n < Pow10(k) && k >= 1
    ensures |NatToString(n)| <= k
    decreases n
  {
    if n >= 10 {
      NatToStringLength(n / 10, k - 1);
    }
  }

  /** `str(i)` for any integer. */
  function IntToString(i: int): string {
    if i < 0 then "-" + NatToString(-i) else NatToString(i)
  }

  /**
   * `n` rendered in at least `width` digits, zero-padded on the left
   * (`%0*d`): digits reading back as `n`, and no wider than needed.
   */
  function ZeroPad(n: nat, width: nat): (r: string)
    ensures forall i :: 0 <= i < |r| ==> IsDigit(r[i])
    ensures |r| >= width
    ensures DigitsValue(r) == n
    ensures |r| > width ==> r == NatToString(n)
  {
    var s := NatToString(n);
    if |s| >= width then s
    else
      var z := seq(width - |s|, _ => '0');
      ZerosValue(z, s);
      z + s
  }

  /** Leading zeros do not change the value of a run of digits. */
  lemma {:induction false} ZerosValue(z: string, s: string)
    requires forall i :: 0 <= i < |z| ==> z[i] == '0'
    requires forall i :: 0 <= i < |s| ==> IsDigit(s[i])
    ensures forall i :: 0 <= i < |z + s| ==> IsDigit((z + s)[i])
    ensures DigitsValue(z + s) == DigitsValue(s)
    decreases |s|
  {
    if s == [] {
      assert z + s == z;
      ZerosOnly(z);
    } else {
      var t := s[..|s| - 1];
      ZerosValue(z, t);
      assert (z + s)[..|z + s| - 1] == z + t;
    }
  }

  lemma {:induction false} ZerosOnly(z: string)
    requires forall i :: 0 <= i < |z| ==> z[i] == '0'
    ensures DigitsValue(z) == 0
    decreases |z|
  {
    if z != [] {
      ZerosOnly(z[..|z| - 1]);
    }
  }

  lemma ZeroPadLength(n: nat, width: nat)
    requires width >= 1 && n < Pow10(width)
    ensures |ZeroPad(n, width)| == width
  {
    NatToStringLength(n, width);
  }

  /** `s[:n]` for a non-negative `n`. */
  function Take<T>(s: seq<T>, n: nat): (r: seq<T>)
    ensures |r| <= n && |r| <= |s|
    ensures r <= s
    ensures |s| <= n ==> r == s
    ensures |s| > n ==> |r| == n
  {
    if |s| <= n then s else s[..n]
  }

  /**
   * `re.sub(pattern, "_", s)` for a one-character class `pattern` whose
   * complement is "word characters, `-`, and `.` when `keepDot`".
   */
  function Sanitize(s: string, keepDot: bool): (r: string)
    ensures |r| == |s|
  {
    seq(|s|, i requires 0 <= i < |s| => if SafeChar(s[i], keepDot) then s[i] else '_')
  }

  /**
   * What sanitising guarantees: only word characters, `-` (and `.` when
   * kept) remain; a character changes only into `_`; safe characters stay
   * where they are, so an all-safe string comes back unchanged.
   */
  lemma SanitizeSafe(s: string, keepDot: bool)
    ensures var r := Sanitize(s, keepDot);
            (forall i :: 0 <= i < |r| ==> SafeChar(r[i], keepDot)) &&
            (forall i :: 0 <= i < |s| ==> r[i] == s[i] || r[i] == '_') &&
            (forall i :: 0 <= i < |s| && SafeChar(s[i], keepDot) ==> r[i] == s[i]) &&
            ((forall i :: 0 <= i < |s| ==> SafeChar(s[i], keepDot)) ==> r == s)
  {
  }

  predicate SafeChar(c: char, keepDot: bool) {
    IsWordChar(c) || c == '-' || (keepDot && c == '.')
  }
}
