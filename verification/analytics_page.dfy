/**
 * The arithmetic of the analytics page: click histograms per hour, day and
 * month, the time series shown for a timeframe, and the paged click table.
 */
module AnalyticsPage {
  import opened Wrappers
  import opened Tallies
  import opened PieChart
  import opened Paging

  /** The number of clicks in one page of the click table. */
  const ClicksPerPage: nat := 2

  /** The length of the current month, as `new Date(year, month + 1, 0).getDate()` gives it. */
  type DaysInMonth = d: int | 28 <= d <= 31 witness 28

  datatype Timeframe = Hour | Day | Week | Month

  /** Slot `k` of `slots` holds the occurrences of `k` in `keys`, and the slots add up to the keys that fit. */
  ghost predicate Histogram(slots: seq<nat>, keys: seq<int>, n: nat) {
    && |slots| == n
    && (forall k | 0 <= k < n :: slots[k] == Occurrences(keys, k))
    && Sum(slots) == InRange(keys, n)
  }

  /**
   * Fill `n` slots with zero, then add one to slot `k` for every key `k`. A key
   * outside the slots is counted nowhere.
   */
  method Tally(keys: seq<int>, n: nat) returns (buckets: seq<nat>)
    ensures |buckets| == n
    ensures forall k | 0 <= k < n :: buckets[k] == Occurrences(keys, k)
    ensures Sum(buckets) == InRange(keys, n)
  {
    var slots := new nat[n](_ => 0);
    assert slots[..] == seq(n, _ => 0);
    ZeroSum(n);
    var i := 0;
    while i < |keys|
      invariant 0 <= i <= |keys|
      invariant Histogram(slots[..], keys[..i], n)
    {
      var k := keys[i];
      ghost var before := slots[..];
      HistogramStep(before, keys[..i], k, n);
      if 0 <= k < n {
        slots[k] := slots[k] + 1;
        assert slots[..] == before[k := before[k] + 1];
      }
      assert keys[..i + 1] == keys[..i] + [k];
      i := i + 1;
    }
    assert keys[..|keys|] == keys;
    buckets := slots[..];
  }

  /** Counting one more key keeps the histogram exact. */
  lemma HistogramStep(slots: seq<nat>, keys: seq<int>, k: int, n: nat)
    requires Histogram(slots, keys, n)
    ensures Histogram(if 0 <= k < n then slots[k := slots[k] + 1] else slots, keys + [k], n)
  {
    var after := if 0 <= k < n then slots[k := slots[k] + 1] else slots;
    forall j | 0 <= j < n ensures after[j] == Occurrences(keys + [k], j) {
      OccurrencesAppend(keys, k, j);
    }
    InRangeAppend(keys, k, n);
    if 0 <= k < n {
      SumIncrement(slots, k);
    }
  }

  lemma InRangeAppend(keys: seq<int>, k: int, n: nat)
    ensures InRange(keys + [k], n) == InRange(keys, n) + (if 0 <= k < n then 1 else 0)
  {
    assert (keys + [k])[..|keys|] == keys;
  }

  lemma {:induction false} ZeroSum(n: nat)
    ensures Sum(seq(n, _ => 0)) == 0
  {
    if n > 0 {
      assert seq(n, _ => 0)[..n - 1] == seq(n - 1, _ => 0);
      ZeroSum(n - 1);
    }
  }

  function Hours(clicks: seq<ChartClick>): (hs: seq<int>)
    ensures |hs| == |clicks| && forall i | 0 <= i < |clicks| :: hs[i] == clicks[i].hour
  {
    seq(|clicks|, i requires 0 <= i < |clicks| => clicks[i].hour as int)
  }

  /** Day `d` goes to slot `d - 1`. */
  function DaySlots(clicks: seq<ChartClick>): (ds: seq<int>)
    ensures |ds| == |clicks| && forall i | 0 <= i < |clicks| :: ds[i] == clicks[i].day - 1
  {
    seq(|clicks|, i requires 0 <= i < |clicks| => clicks[i].day - 1)
  }

  function Months(clicks: seq<ChartClick>): (ms: seq<int>)
    ensures |ms| == |clicks| && forall i | 0 <= i < |clicks| :: ms[i] == clicks[i].month
  {
    seq(|clicks|, i requires 0 <= i < |clicks| => clicks[i].month as int)
  }

  /** `getClicksPerHour`: 24 buckets, bucket `h` holding the clicks of hour `h`; every click counted. */
  method ClicksPerHour(clicks: seq<ChartClick>) returns (buckets: seq<nat>)
    ensures |buckets| == 24
    ensures forall h | 0 <= h < 24 :: buckets[h] == Occurrences(Hours(clicks), h)
    ensures Sum(buckets) == |clicks|
  {
    buckets := Tally(Hours(clicks), 24);
    AllInRange(Hours(clicks), 24);
  }

  /**
   * `getClicksPerDay`: one bucket per day of the current month, day `d` in
   * bucket `d - 1`; every click is counted when no day lies past the month's end.
   */
  method ClicksPerDay(clicks: seq<ChartClick>, daysInMonth: DaysInMonth) returns (buckets: seq<nat>)
    ensures |buckets| == daysInMonth
    ensures forall k | 0 <= k < daysInMonth :: buckets[k] == Occurrences(DaySlots(clicks), k)
    ensures (forall i | 0 <= i < |clicks| :: clicks[i].day <= daysInMonth) ==> Sum(buckets) == |clicks|
  {
    buckets := Tally(DaySlots(clicks), daysInMonth);
    if forall i | 0 <= i < |clicks| :: clicks[i].day <= daysInMonth {
      AllInRange(DaySlots(clicks), daysInMonth);
    }
  }

  /** `getClicksPerMonth`: 12 buckets, January first; every click counted. */
  method ClicksPerMonth(clicks: seq<ChartClick>) returns (buckets: seq<nat>)
    ensures |buckets| == 12
    ensures forall m | 0 <= m < 12 :: buckets[m] == Occurrences(Months(clicks), m)
    ensures Sum(buckets) == |clicks|
  {
    buckets := Tally(Months(clicks), 12);
    AllInRange(Months(clicks), 12);
  }

  /** `n.toString()` for a natural number. */
  function NatToString(n: nat): (s: string)
    ensures |s| >= 1
    decreases n
  {
    var digit := ('0' as int + n % 10) as char;
    if n < 10 then [digit] else NatToString(n / 10) + [digit]
  }

  /** Every character is a decimal digit. */
  predicate IsDigits(s: string) {
    forall i | 0 <= i < |s| :: '0' <= s[i] <= '9'
  }

  /** The number a string of decimal digits denotes, most significant digit first. */
  function DecimalValue(s: string): int
    requires IsDigits(s)
  {
    if s == [] then 0 else DecimalValue(s[..|s| - 1]) * 10 + (s[|s| - 1] as int - '0' as int)
  }

  /** `NatToString` writes `n` in decimal, without leading zeros. */
  lemma {:induction false} NatToStringDecimal(n: nat)
    ensures IsDigits(NatToString(n))
    ensures DecimalValue(NatToString(n)) == n
    ensures NatToString(n)[0] == '0' ==> n == 0
    decreases n
  {
    var s := NatToString(n);
    if n >= 10 {
      NatToStringDecimal(n / 10);
      assert s[..|s| - 1] == NatToString(n / 10);
      assert s[0] == NatToString(n / 10)[0];
    }
  }

  const MonthLabels: seq<string> := ["Jan", "Feb", "Mar", "Apr", "May", "Jun", "Jul", "Aug", "Sep", "Oct", "Nov", "Dec"]

  /**
   * `timeSeries`: labels and counts for the chosen timeframe; no data, or the
   * "week" timeframe, gives two empty series.
   */
  method TimeSeries(data: Option<seq<ChartClick>>, timeframe: Timeframe, daysInMonth: DaysInMonth)
    returns (labels: seq<string>, series: seq<nat>)
    ensures data.None? || timeframe.Week? ==> labels == [] && series == []
    ensures data.Some? && timeframe.Hour? ==>
              && |labels| == |series| == 24 && Sum(series) == |data.value|
              && (forall h | 0 <= h < 24 :: labels[h] == NatToString(h) + ":00")
              && forall h | 0 <= h < 24 :: series[h] == Occurrences(Hours(data.value), h)
    ensures data.Some? && timeframe.Day? ==>
              && |labels| == |series| == daysInMonth
              && (forall k | 0 <= k < daysInMonth :: labels[k] == NatToString(k + 1))
              && forall k | 0 <= k < daysInMonth :: series[k] == Occurrences(DaySlots(data.value), k)
    ensures data.Some? && timeframe.Month? ==>
              && labels == MonthLabels && |series| == 12 && Sum(series) == |data.value|
              && forall m | 0 <= m < 12 :: series[m] == Occurrences(Months(data.value), m)
  {
    if data.None? {
      return [], [];
    }
    match timeframe {
      case Hour =>
        labels := seq(24, i requires 0 <= i < 24 => NatToString(i) + ":00");
        series := ClicksPerHour(data.value);
      case Day =>
        labels := seq(daysInMonth, i requires 0 <= i < daysInMonth => NatToString(i + 1));
        series := ClicksPerDay(data.value, daysInMonth);
      case Month =>
        labels := MonthLabels;
        series := ClicksPerMonth(data.value);
      case Week =>
        labels, series := [], [];
    }
  }

  /** `totalPages`: half the clicks rounded up, or 1 before any data arrived. */
  function ClickPages(data: Option<seq<ChartClick>>): (r: nat)
    ensures data.None? ==> r == 1
    ensures data.Some? ==> |data.value| <= r * ClicksPerPage && (r > 0 ==> (r - 1) * ClicksPerPage < |data.value|)
  {
    if data.None? then 1 else TotalPages(|data.value|, ClicksPerPage)
  }

  /** `currentClicks`: the clicks at indices `[(page - 1) * 2, page * 2)`. */
  function CurrentClicks(data: Option<seq<ChartClick>>, page: Page): (r: seq<ChartClick>)
    ensures data.None? ==> r == []
    ensures |r| <= ClicksPerPage
    ensures data.Some? && (page - 1) * ClicksPerPage >= |data.value| ==> r == []
    ensures data.Some? && (page - 1) * ClicksPerPage < |data.value| ==>
              |r| == if |data.value| - (page - 1) * ClicksPerPage < ClicksPerPage
                     then |data.value| - (page - 1) * ClicksPerPage else ClicksPerPage
    ensures data.Some? ==> forall j | 0 <= j < |r| ::
              (page - 1) * ClicksPerPage + j < |data.value| && r[j] == data.value[(page - 1) * ClicksPerPage + j]
  {
    if data.None? then [] else PageSlice(data.value, page, ClicksPerPage)
  }

  /** The page's own state: the chosen timeframe and the page of the click table. */
  class AnalyticsView {
    var timeframe: Timeframe
    var currentPage: Page

    constructor ()
      ensures timeframe == Day && currentPage == 1
    {
      timeframe := Day;
      currentPage := 1;
    }

    method HandleNext(data: Option<seq<ChartClick>>)
      modifies this`currentPage
      ensures currentPage == NextPage(old(currentPage), ClickPages(data))
    {
      if currentPage < ClickPages(data) {
        currentPage := currentPage + 1;
      }
    }

    method HandlePrevious()
      modifies this`currentPage
      ensures currentPage == PreviousPage(old(currentPage))
    {
      if currentPage > 1 {
        currentPage := currentPage - 1;
      }
    }

    method SetTimeframe(t: Timeframe)
      modifies this`timeframe
      ensures timeframe == t
    {
      timeframe := t;
    }
  }
}
