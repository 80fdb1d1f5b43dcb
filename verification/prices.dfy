/** The price series of one asset: daily bars keyed by day number, the
    inclusive date-range filter, the latest price and exact-date lookup. */
module Prices {
  import opened Optional

  /** A calendar day, as a day number. */
  type Day = int

  /** One trading day of the series; only the adjusted close is used. */
  datatype Bar = Bar(date: Day, adjClose: real)

  type Series = seq<Bar>

  /** The bar lies inside the inclusive range [start, end]. */
  predicate InRange(b: Bar, start: Day, end: Day) {
    start <= b.date <= end
  }

  /** Dates strictly ascending, as a price provider delivers them. */
  predicate Ascending(s: Series) {
    forall i, j :: 0 <= i < j < |s| ==> s[i].date < s[j].date
  }

  /** Some bar of the series falls on day d. */
  predicate HasBarOn(s: Series, d: Day) {
    exists i :: 0 <= i < |s| && s[i].date == d
  }

  /** i is the index of the first bar of s on day d. */
  predicate FirstOn(s: Series, d: Day, i: int) {
    && 0 <= i < |s|
    && s[i].date == d
    && forall j :: 0 <= j < i ==> s[j].date != d
  }

  /** Keeps the bars whose date lies in [start, end], in their original order. */
  function FilterRange(s: Series, start: Day, end: Day): (r: Series)
    ensures |r| <= |s|
    ensures forall b :: b in r <==> b in s && InRange(b, start, end)
  {
    if |s| == 0 then []
    else
      (if InRange(s[0], start, end) then [s[0]] else []) + FilterRange(s[1..], start, end)
  }

  /** The current price: the adjusted close of the last bar, if any. */
  function LatestPrice(s: Series): (r: Option<real>)
    ensures r.None? <==> |s| == 0
    ensures r.Some? ==> r.value == s[|s| - 1].adjClose
  {
    if |s| == 0 then None else Some(s[|s| - 1].adjClose)
  }

  /** Exact-date lookup with no fallback: the adjusted close of the first bar
      on day d, or None when no bar falls on d. */
  function Lookup(s: Series, d: Day): (r: Option<real>)
    ensures r.None? <==> !HasBarOn(s, d)
    ensures r.Some? ==> exists i :: FirstOn(s, d, i) && s[i].adjClose == r.value
  {
    if |s| == 0 then None
    else if s[0].date == d then Some(s[0].adjClose)
    else Lookup(s[1..], d)
  }

  /** Filtering the concatenation is the concatenation of the filtered parts:
      together with the one-bar case this pins the filter down completely and
      says that it keeps the relative order of the bars. */
  lemma {:induction false} FilterRangeAppend(a: Series, b: Series, start: Day, end: Day)
    ensures FilterRange(a + b, start, end) == FilterRange(a, start, end) + FilterRange(b, start, end)
  {
    if |a| == 0 {
      assert a + b == b;
    } else {
      assert (a + b)[1..] == a[1..] + b;
      FilterRangeAppend(a[1..], b, start, end);
    }
  }

  /** The filter on a single bar keeps it exactly when it is in range. */
  lemma FilterRangeSingle(b: Bar, start: Day, end: Day)
    ensures FilterRange([b], start, end) == if InRange(b, start, end) then [b] else []
  {
  }

  /** Filtering twice with the same range changes nothing. */
  lemma {:induction false} FilterRangeIdempotent(s: Series, start: Day, end: Day)
    ensures FilterRange(FilterRange(s, start, end), start, end) == FilterRange(s, start, end)
  {
    if |s| > 0 {
      var head := if InRange(s[0], start, end) then [s[0]] else [];
      FilterRangeAppend(head, FilterRange(s[1..], start, end), start, end);
      FilterRangeIdempotent(s[1..], start, end);
      if InRange(s[0], start, end) {
        FilterRangeSingle(s[0], start, end);
      }
    }
  }

  /** Filtering keeps the series ascending. */
  lemma {:induction false} FilterRangeAscending(s: Series, start: Day, end: Day)
    requires Ascending(s)
    ensures Ascending(FilterRange(s, start, end))
  {
    if |s| > 0 {
      var tail := FilterRange(s[1..], start, end);
      assert Ascending(s[1..]);
      FilterRangeAscending(s[1..], start, end);
      forall b | b in tail
        ensures s[0].date < b.date
      {
        assert b in s[1..];
      }
    }
  }

  /** Exact lookup in the filtered series finds what lookup in the whole
      series finds for a day inside the range, and nothing for a day outside. */
  lemma {:induction false} LookupFilterRange(s: Series, start: Day, end: Day, d: Day)
    ensures Lookup(FilterRange(s, start, end), d) == if start <= d <= end then Lookup(s, d) else None
  {
    if |s| > 0 {
      var tail := FilterRange(s[1..], start, end);
      LookupFilterRange(s[1..], start, end, d);
      if InRange(s[0], start, end) {
        assert FilterRange(s, start, end) == [s[0]] + tail;
        assert ([s[0]] + tail)[1..] == tail;
      } else {
        assert FilterRange(s, start, end) == tail;
      }
    }
  }

  /** In an ascending series each date appears once, so looking up a bar's
      date returns that very bar's price. */
  lemma LookupAscending(s: Series, i: int)
    requires Ascending(s)
    requires 0 <= i < |s|
    ensures Lookup(s, s[i].date) == Some(s[i].adjClose)
  {
  }

  /** In an ascending series the latest price belongs to the most recent bar:
      no bar is later, and looking up that bar's date returns the latest price. */
  lemma LatestIsMostRecent(s: Series)
    requires Ascending(s)
    requires |s| > 0
    ensures forall i :: 0 <= i < |s| ==> s[i].date <= s[|s| - 1].date
    ensures Lookup(s, s[|s| - 1].date) == LatestPrice(s)
  {
  }

  /** i is the index of the last bar of s inside [start, end]. */
  predicate LastInRange(s: Series, start: Day, end: Day, i: int) {
    && 0 <= i < |s|
    && InRange(s[i], start, end)
    && forall j :: i < j < |s| ==> !InRange(s[j], start, end)
  }

  /** The last bar of the filtered series is the last in-range bar of the
      original series. */
  lemma {:induction false} FilterRangeLast(s: Series, start: Day, end: Day)
    requires |FilterRange(s, start, end)| > 0
    ensures exists i :: LastInRange(s, start, end, i)
                        && s[i] == FilterRange(s, start, end)[|FilterRange(s, start, end)| - 1]
  {
    var n := |s| - 1;
    var init := s[..n];
    assert s == init + [s[n]];
    FilterRangeAppend(init, [s[n]], start, end);
    FilterRangeSingle(s[n], start, end);
    if InRange(s[n], start, end) {
      assert LastInRange(s, start, end, n);
    } else {
      FilterRangeLast(init, start, end);
      var i :| LastInRange(init, start, end, i)
               && init[i] == FilterRange(init, start, end)[|FilterRange(init, start, end)| - 1];
      assert LastInRange(s, start, end, i);
    }
  }

  /** Every bar of the series has a positive price. */
  predicate PositivePrices(s: Series) {
    forall i :: 0 <= i < |s| ==> s[i].adjClose > 0.0
  }

  /** Restricting a series to a range keeps its prices positive. */
  lemma FilterRangePositive(bars: Series, start: Day, end: Day)
    requires PositivePrices(bars)
    ensures PositivePrices(FilterRange(bars, start, end))
  {
  }

  /** The filtered series is empty exactly when no bar lies in range. */
  lemma FilterRangeEmpty(bars: Series, start: Day, end: Day)
    ensures |FilterRange(bars, start, end)| == 0
            <==> forall i :: 0 <= i < |bars| ==> !InRange(bars[i], start, end)
  {
    var data := FilterRange(bars, start, end);
    if |data| == 0 {
      forall i | 0 <= i < |bars| ensures !InRange(bars[i], start, end) {
        assert bars[i] in bars;
      }
    } else {
      assert data[0] in bars;
    }
  }

  /** The filtered series is empty exactly when no bar lies in range; when it
      is not, its latest price is that of the last bar in range. */
  lemma FilterRangeLatest(bars: Series, start: Day, end: Day)
    ensures LatestPrice(FilterRange(bars, start, end)).None?
            <==> forall i :: 0 <= i < |bars| ==> !InRange(bars[i], start, end)
    ensures LatestPrice(FilterRange(bars, start, end)).Some? ==>
      exists i :: LastInRange(bars, start, end, i)
                  && bars[i].adjClose == LatestPrice(FilterRange(bars, start, end)).value
  {
    FilterRangeEmpty(bars, start, end);
    assert LatestPrice(FilterRange(bars, start, end)).None? <==> |FilterRange(bars, start, end)| == 0;
    if |FilterRange(bars, start, end)| > 0 {
      FilterRangeLast(bars, start, end);
    }
  }
}
