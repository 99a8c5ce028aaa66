/**
 * `_filter_orders_by_date`, identical in the Free Mobile and Freebox
 * providers. The branches apply in a fixed order: no constraint (identity),
 * an inclusive date range, a year with a set of months, and finally
 * independent year / month equality.
 */
module DateFilter {
  import opened Wrappers
  import opened Text
  import opened Orders

  /**
   * The filter arguments. Python treats `None` and the empty list / empty
   * string alike here (both are falsy), so `months == []` stands for a missing
   * or empty list and `dateStart == ""` for a missing or empty string.
   */
  datatype Criteria = Criteria(year: Option<int>, month: Option<int>, months: seq<int>, dateStart: string, dateEnd: string)

  /** `not any([year is not None, month is not None, months, date_start_str, date_end_str])` */
  predicate Unconstrained(c: Criteria) {
    c.year.None? && c.month.None? && c.months == [] && c.dateStart == "" && c.dateEnd == ""
  }

  /** The elements of `xs` satisfying `p`, in order (a list comprehension). */
  function Keep(xs: seq<Order>, p: Order -> bool): (r: seq<Order>)
    ensures |r| <= |xs|
  {
    if xs == [] then [] else (if p(xs[0]) then [xs[0]] else []) + Keep(xs[1..], p)
  }

  /** `ys` is `xs` with some elements removed, the rest kept in order. */
  ghost predicate SubsequenceOf(ys: seq<Order>, xs: seq<Order>)
    decreases |xs|
  {
    if ys == [] then true
    else if xs == [] then false
    else (ys[0] == xs[0] && SubsequenceOf(ys[1..], xs[1..])) || SubsequenceOf(ys, xs[1..])
  }

  predicate InDateRange(o: Order, start: Date, end: Date) {
    o.date.Some? && DateLe(start, o.date.value) && DateLe(o.date.value, end)
  }

  predicate InMonthSet(o: Order, year: int, months: seq<int>) {
    o.date.Some? && o.date.value.year == year && o.date.value.month in months
  }

  predicate FieldsMatch(o: Order, year: Option<int>, month: Option<int>) {
    o.date.Some? && (year.None? || o.date.value.year == year.value) && (month.None? || o.date.value.month == month.value)
  }

  /** Whether the date range applies: both bounds given and both parse with `strptime(…, "%Y-%m-%d")`. */
  predicate RangeApplies(c: Criteria, strptime: string -> Option<Date>) {
    c.dateStart != "" && c.dateEnd != "" && strptime(c.dateStart).Some? && strptime(c.dateEnd).Some?
  }

  /** Whether the filter hands the input back unchanged. */
  predicate PassesThrough(c: Criteria, strptime: string -> Option<Date>) {
    Unconstrained(c) || (c.dateStart != "" && c.dateEnd != "" && !RangeApplies(c, strptime))
  }

  /** Whether order `o` is selected, when the filter does not pass the input through. */
  predicate Selected(c: Criteria, strptime: string -> Option<Date>, o: Order) {
    if RangeApplies(c, strptime) then InDateRange(o, strptime(c.dateStart).value, strptime(c.dateEnd).value)
    else if c.year.Some? && c.months != [] then InMonthSet(o, c.year.value, c.months)
    else FieldsMatch(o, c.year, c.month)
  }

  /** The filter's result, as a function of its inputs. */
  function Filtered(orders: seq<Order>, c: Criteria, strptime: string -> Option<Date>): seq<Order>
  {
    if PassesThrough(c, strptime) then orders
    else Keep(orders, o => Selected(c, strptime, o))
  }

  /** `_filter_orders_by_date`; `strptime` stands for `datetime.strptime(s, "%Y-%m-%d").date()`, `None` on `ValueError`. */
  method FilterOrdersByDate(orders: seq<Order>, c: Criteria, strptime: string -> Option<Date>) returns (out: seq<Order>)
    ensures out == Filtered(orders, c, strptime)
  {
    if Unconstrained(c) {
      return orders;
    }
    if c.dateStart != "" && c.dateEnd != "" {
      var start, end := strptime(c.dateStart), strptime(c.dateEnd);
      if start.None? || end.None? {
        assert PassesThrough(c, strptime);
        return orders;
      }
      assert RangeApplies(c, strptime) && !PassesThrough(c, strptime);
      KeepExtensional(orders, o => Selected(c, strptime, o), o => InDateRange(o, start.value, end.value));
      return Keep(orders, o => InDateRange(o, start.value, end.value));
    }
    assert !RangeApplies(c, strptime) && !PassesThrough(c, strptime);
    if c.year.Some? && c.months != [] {
      KeepExtensional(orders, o => Selected(c, strptime, o), o => InMonthSet(o, c.year.value, c.months));
      return Keep(orders, o => InMonthSet(o, c.year.value, c.months));
    }
    out := SelectByFields(orders, c.year, c.month);
    KeepExtensional(orders, o => Selected(c, strptime, o), o => FieldsMatch(o, c.year, c.month));
  }

  /** The explicit loop of the last branch: keep dated orders whose present year / month fields agree. */
  method SelectByFields(orders: seq<Order>, year: Option<int>, month: Option<int>) returns (out: seq<Order>)
    ensures out == Keep(orders, o => FieldsMatch(o, year, month))
  {
    ghost var p := o => FieldsMatch(o, year, month);
    out := [];
    var i := 0;
    while i < |orders|
      invariant 0 <= i <= |orders|
      invariant out == Keep(orders[..i], p)
    {
      var o := orders[i];
      KeepSnoc(orders, i, p);
      i := i + 1;
      if o.date.None? {
        continue;
      }
      if year.Some? && o.date.value.year != year.value {
        continue;
      }
      if month.Some? && o.date.value.month != month.value {
        continue;
      }
      out := out + [o];
    }
    assert orders[..i] == orders;
  }

  lemma {:induction false} KeepAppend(xs: seq<Order>, ys: seq<Order>, p: Order -> bool)
    ensures Keep(xs + ys, p) == Keep(xs, p) + Keep(ys, p)
  {
    if xs == [] {
      assert xs + ys == ys;
    } else {
      var head := if p(xs[0]) then [xs[0]] else [];
      assert (xs + ys)[0] == xs[0] && (xs + ys)[1..] == xs[1..] + ys;
      assert Keep(xs + ys, p) == head + Keep(xs[1..] + ys, p);
      KeepAppend(xs[1..], ys, p);
      assert Keep(xs, p) == head + Keep(xs[1..], p);
    }
  }

  lemma KeepSnoc(xs: seq<Order>, i: nat, p: Order -> bool)
    requires i < |xs|
    ensures Keep(xs[..i + 1], p) == Keep(xs[..i], p) + (if p(xs[i]) then [xs[i]] else [])
  {
    assert xs[..i + 1] == xs[..i] + [xs[i]];
    KeepAppend(xs[..i], [xs[i]], p);
    assert [xs[i]][1..] == [];
  }

  lemma {:induction false} KeepExtensional(xs: seq<Order>, p: Order -> bool, q: Order -> bool)
    requires forall o :: o in xs ==> p(o) == q(o)
    ensures Keep(xs, p) == Keep(xs, q)
  {
    if xs != [] {
      KeepExtensional(xs[1..], p, q);
    }
  }

  // ---------------------------------------------------------------- properties

  lemma {:induction false} KeepIsSubsequence(xs: seq<Order>, p: Order -> bool)
    ensures SubsequenceOf(Keep(xs, p), xs)
  {
    if xs != [] {
      KeepIsSubsequence(xs[1..], p);
      if p(xs[0]) {
        assert Keep(xs, p) == [xs[0]] + Keep(xs[1..], p);
        assert Keep(xs, p)[1..] == Keep(xs[1..], p);
      } else {
        assert Keep(xs, p) == Keep(xs[1..], p);
        SubsequenceDropHead(Keep(xs[1..], p), xs);
      }
    }
  }

  lemma SubsequenceDropHead(ys: seq<Order>, xs: seq<Order>)
    requires xs != [] && SubsequenceOf(ys, xs[1..])
    ensures SubsequenceOf(ys, xs)
  {
  }

  lemma {:induction false} SubsequenceReflexive(xs: seq<Order>)
    ensures SubsequenceOf(xs, xs)
  {
    if xs != [] { SubsequenceReflexive(xs[1..]); }
  }

  lemma {:induction false} KeepMembers(xs: seq<Order>, p: Order -> bool, o: Order)
    ensures o in Keep(xs, p) <==> o in xs && p(o)
  {
    if xs != [] {
      KeepMembers(xs[1..], p, o);
      assert xs == [xs[0]] + xs[1..];
    }
  }

  /** The output is always the input with some orders dropped, the rest in their original order. */
  lemma FilterIsSubsequence(orders: seq<Order>, c: Criteria, strptime: string -> Option<Date>)
    ensures SubsequenceOf(Filtered(orders, c, strptime), orders)
  {
    if PassesThrough(c, strptime) {
      SubsequenceReflexive(orders);
    } else {
      KeepIsSubsequence(orders, o => Selected(c, strptime, o));
    }
  }

  /**
   * Which orders the filter keeps: all of them when it passes the input
   * through (no constraint, or a range bound that does not parse), otherwise
   * exactly those the first applicable branch selects.
   */
  lemma FilterMembers(orders: seq<Order>, c: Criteria, strptime: string -> Option<Date>, o: Order)
    ensures o in Filtered(orders, c, strptime) <==>
              o in orders && (PassesThrough(c, strptime) || Selected(c, strptime, o))
  {
    if !PassesThrough(c, strptime) {
      KeepMembers(orders, o => Selected(c, strptime, o), o);
    }
  }

  /** Unless the input is passed through, an order without a recognised date never survives. */
  lemma FilterDropsDateless(orders: seq<Order>, c: Criteria, strptime: string -> Option<Date>, o: Order)
    requires !PassesThrough(c, strptime)
    requires o in Filtered(orders, c, strptime)
    ensures o.date.Some?
  {
    KeepMembers(orders, o => Selected(c, strptime, o), o);
  }

  /** A year with a month set: documents dated 2025-11, 2025-12, 2026-01 and months {11, 12} of 2025 keep the first two, in order. */
  lemma MonthSetExample(a: Order, b: Order, d: Order, strptime: string -> Option<Date>)
    requires a.date == Some(Date(2025, 11, 1)) && b.date == Some(Date(2025, 12, 1)) && d.date == Some(Date(2026, 1, 1))
    ensures Filtered([a, b, d], Criteria(Some(2025), None, [11, 12], "", ""), strptime) == [a, b]
  {
    var c := Criteria(Some(2025), None, [11, 12], "", "");
    var p := o => Selected(c, strptime, o);
    assert [a, b, d][1..] == [b, d] && [b, d][1..] == [d] && [d][1..] == [];
    assert Keep([d], p) == [];
    assert Keep([b, d], p) == [b];
  }
}
