/** The analytics helper that turns clicks into pie-chart labels and counts. */
module PieChart {
  import opened Wrappers
  import opened Js
  import opened Tallies

  /** An hour of the day, as a local-time `getHours()` gives it. */
  type HourOfDay = h: int | 0 <= h < 24
  /** A day of the month, as `getDate()` gives it. */
  type DayOfMonth = d: int | 1 <= d <= 31 witness 1
  /** A month, 0 for January, as `getMonth()` gives it. */
  type MonthOfYear = m: int | 0 <= m < 12

  /**
   * A click as the front end receives it. The three time fields stand for the
   * local-time reading of its `timestamp`; the names may be missing.
   */
  datatype ChartClick = ChartClick(
    hour: HourOfDay,
    day: DayOfMonth,
    month: MonthOfYear,
    browser: Option<string>,
    os: Option<string>,
    deviceType: Option<string>)

  /** The field a pie chart groups by. */
  datatype PieKey = Browser | Os | DeviceType

  const Unknown: string := "Unknown"

  /** `click[key]`. */
  function Field(c: ChartClick, key: PieKey): Option<string> {
    match key
    case Browser => c.browser
    case Os => c.os
    case DeviceType => c.deviceType
  }

  /** `click[key] || "Unknown"`: a missing or empty value is grouped as "Unknown". */
  function KeyValue(c: ChartClick, key: PieKey): (v: string)
    ensures v != ""
    ensures Truthy(Field(c, key)) ==> v == Field(c, key).value
    ensures !Truthy(Field(c, key)) ==> v == Unknown
  {
    OrElse(Field(c, key), Unknown)
  }

  /** The grouping value of every click, in order. */
  function KeyValues(clicks: seq<ChartClick>, key: PieKey): (vs: seq<string>)
    ensures |vs| == |clicks|
    ensures forall i | 0 <= i < |clicks| :: vs[i] == KeyValue(clicks[i], key)
  {
    seq(|clicks|, i requires 0 <= i < |clicks| => KeyValue(clicks[i], key))
  }

  /** The values of `counts` in the order of `labels` (`Object.values`). */
  function CountsIn(labels: seq<string>, counts: map<string, nat>): (data: seq<nat>)
    requires forall i | 0 <= i < |labels| :: labels[i] in counts
    ensures |data| == |labels|
    ensures forall i | 0 <= i < |labels| :: data[i] == counts[labels[i]]
  {
    seq(|labels|, i requires 0 <= i < |labels| => counts[labels[i]])
  }

  /**
   * What the counting loop keeps: `labels` are the distinct values seen, in
   * order of first appearance, `counts` maps each to its number of occurrences,
   * and the counts add up to the number of values seen.
   */
  ghost predicate Tallied(seen: seq<string>, labels: seq<string>, counts: map<string, nat>) {
    && Distinct(labels)
    && (forall w :: w in counts <==> w in labels)
    && (forall w | w in counts :: counts[w] == Occurrences(seen, w) && counts[w] >= 1)
    && (forall w | w in seen :: w in counts)
    && Sum(CountsIn(labels, counts)) == |seen|
  }

  /**
   * `getPieChartData`: one label per distinct grouping value, in order of
   * first appearance, each with its number of clicks; every click counted once.
   */
  method GetPieChartData(clicks: seq<ChartClick>, key: PieKey) returns (labels: seq<string>, data: seq<nat>)
    ensures |labels| == |data|
    ensures Distinct(labels)
    ensures forall i | 0 <= i < |labels| :: data[i] == Occurrences(KeyValues(clicks, key), labels[i]) && data[i] >= 1
    ensures forall j | 0 <= j < |clicks| :: KeyValue(clicks[j], key) in labels
    ensures Sum(data) == |clicks|
    ensures clicks == [] ==> labels == [] && data == []
  {
    ghost var seen: seq<string> := [];  // the grouping values of the clicks counted so far
    var counts: map<string, nat> := map[];
    labels := [];
    var i := 0;
    while i < |clicks|
      invariant 0 <= i <= |clicks|
      invariant |seen| == i && forall j | 0 <= j < i :: seen[j] == KeyValue(clicks[j], key)
      invariant Tallied(seen, labels, counts)
    {
      var v := KeyValue(clicks[i], key);
      if v in counts {
        TallyExisting(seen, labels, counts, v);
        counts := counts[v := counts[v] + 1];
      } else {
        TallyNew(seen, labels, counts, v);
        labels := labels + [v];
        counts := counts[v := 1];
      }
      seen := seen + [v];
      i := i + 1;
    }
    assert seen == KeyValues(clicks, key);
    TalliedAll(clicks, key, labels, counts);
    data := CountsIn(labels, counts);
  }

  /** Once every click is counted, the tally answers the pie chart's promises. */
  lemma TalliedAll(clicks: seq<ChartClick>, key: PieKey, labels: seq<string>, counts: map<string, nat>)
    requires Tallied(KeyValues(clicks, key), labels, counts)
    ensures var data := CountsIn(labels, counts);
      && (forall i | 0 <= i < |labels| :: data[i] == Occurrences(KeyValues(clicks, key), labels[i]) && data[i] >= 1)
      && (forall j | 0 <= j < |clicks| :: KeyValue(clicks[j], key) in labels)
      && Sum(data) == |clicks|
      && (clicks == [] ==> labels == [])
  {
    var seen := KeyValues(clicks, key);
    forall j | 0 <= j < |clicks| ensures KeyValue(clicks[j], key) in labels {
      assert seen[j] in seen;
    }
  }

  lemma OccurrencesAfter(s: seq<string>, y: string)
    ensures forall x {:trigger Occurrences(s + [y], x)} :: Occurrences(s + [y], x) == Occurrences(s, x) + (if y == x then 1 else 0)
  {
    forall x ensures Occurrences(s + [y], x) == Occurrences(s, x) + (if y == x then 1 else 0) {
      OccurrencesAppend(s, y, x);
    }
  }

  /** Counting a value that already has a label adds one to its count and to the total. */
  lemma TallyExisting(seen: seq<string>, labels: seq<string>, counts: map<string, nat>, v: string)
    requires Tallied(seen, labels, counts)
    requires v in counts
    ensures Tallied(seen + [v], labels, counts[v := counts[v] + 1])
  {
    ExistingCounts(seen, counts, v);
    ExistingSum(seen, labels, counts, v);
    assert forall w :: w in counts[v := counts[v] + 1] <==> w in counts;
  }

  /** The per-value half of `TallyExisting`: counts stay exact and cover every value seen. */
  lemma ExistingCounts(seen: seq<string>, counts: map<string, nat>, v: string)
    requires forall w | w in counts :: counts[w] == Occurrences(seen, w) && counts[w] >= 1
    requires forall w | w in seen :: w in counts
    requires v in counts
    ensures var counts' := counts[v := counts[v] + 1];
      && (forall w | w in counts' :: counts'[w] == Occurrences(seen + [v], w) && counts'[w] >= 1)
      && (forall w | w in seen + [v] :: w in counts')
  {
    OccurrencesAfter(seen, v);
  }

  /** The total half of `TallyExisting`: the counts in label order add up to one more. */
  lemma ExistingSum(seen: seq<string>, labels: seq<string>, counts: map<string, nat>, v: string)
    requires Distinct(labels) && (forall w :: w in counts <==> w in labels)
    requires Sum(CountsIn(labels, counts)) == |seen|
    requires v in counts
    ensures Sum(CountsIn(labels, counts[v := counts[v] + 1])) == |seen| + 1
  {
    var k :| 0 <= k < |labels| && labels[k] == v;
    CountsInBump(labels, counts, k);
    SumIncrement(CountsIn(labels, counts), k);
  }

  /** Adding one to the count of the `k`-th label adds one to the `k`-th entry, and only to it. */
  lemma CountsInBump(labels: seq<string>, counts: map<string, nat>, k: nat)
    requires Distinct(labels) && forall w :: w in counts <==> w in labels
    requires k < |labels|
    ensures var v := labels[k];
      CountsIn(labels, counts[v := counts[v] + 1]) == CountsIn(labels, counts)[k := CountsIn(labels, counts)[k] + 1]
  {
  }

  /** A value seen for the first time gets a fresh label at the end, counted once. */
  lemma TallyNew(seen: seq<string>, labels: seq<string>, counts: map<string, nat>, v: string)
    requires Tallied(seen, labels, counts)
    requires v !in counts
    ensures Tallied(seen + [v], labels + [v], counts[v := 1])
  {
    NewCounts(seen, counts, v);
    NewSum(labels, counts, v);
    assert forall w :: w in counts[v := 1] <==> w in labels + [v];
  }

  /** The per-value half of `TallyNew`: the new value counts once, the others stay exact. */
  lemma NewCounts(seen: seq<string>, counts: map<string, nat>, v: string)
    requires forall w | w in counts :: counts[w] == Occurrences(seen, w) && counts[w] >= 1
    requires forall w | w in seen :: w in counts
    requires v !in counts
    ensures var counts' := counts[v := 1];
      && (forall w | w in counts' :: counts'[w] == Occurrences(seen + [v], w) && counts'[w] >= 1)
      && (forall w | w in seen + [v] :: w in counts')
  {
    OccurrencesAfter(seen, v);
  }

  /** The total half of `TallyNew`: the new label's count 1 is appended to the total. */
  lemma NewSum(labels: seq<string>, counts: map<string, nat>, v: string)
    requires forall i | 0 <= i < |labels| :: labels[i] in counts
    requires v !in counts
    ensures Sum(CountsIn(labels + [v], counts[v := 1])) == Sum(CountsIn(labels, counts)) + 1
  {
    var before := CountsIn(labels, counts);
    assert CountsIn(labels + [v], counts[v := 1]) == before + [1];
    SumAppend(before, 1);
  }
}
