/** Reading a range of days. */
module Ranges {
  import opened Options
  import opened Queries
  import opened Metrics
  import opened Breakdowns
  import opened Totals

  datatype RangeReport = RangeReport(
    from: Day, to: Day,
    pageviews: nat, sessions: nat, bounces: nat,
    bounceRate: Option<real>, avgDurationMs: Option<int>, avgScrollDepth: Option<int>,
    engagedViews: nat,
    byDevice: Breakdown, bySource: Breakdown, byCountry: Breakdown,
    series: seq<(Day, nat)>)

  const MAX_RANGE := 400

  /** The days from `from` to `to`, at most `max` of them. */
  function RangeDays(from: Day, to: Day, max: nat): seq<Day> {
    var n := if to < from then 0 else to - from + 1;
    seq(if n <= max then n else max, i => from + i)
  }

  method DaysInRange(from: Day, to: Day, max: nat) returns (out: seq<Day>)
    ensures out == RangeDays(from, to, max)
    ensures |out| == if to < from then 0 else if to - from + 1 <= max then to - from + 1 else max
    ensures forall i :: 0 <= i < |out| ==> out[i] == from + i
    ensures forall d :: d in out <==> from <= d <= to && d < from + max
  {
    out := [];
    var t := from;
    while t <= to && |out| < max
      invariant |out| <= max && t == from + |out|
      invariant from <= to ==> t <= to + 1
      invariant to < from ==> |out| == 0
      invariant forall i :: 0 <= i < |out| ==> out[i] == from + i
    {
      out := out + [t];
      t := t + 1;
    }
    forall d | from <= d <= to && d < from + max ensures d in out {
      assert out[d - from] == d;
    }
  }

  /** Rounds halves up, as the averages shown do. */
  function Rounded(total: int, n: nat): int
    requires n > 0
  {
    (total as real / n as real + 0.5).Floor
  }

  /** The report made of a range's total and its per-day pageviews. Rates are computed once, here. */
  function ReportOf(from: Day, to: Day, total: DayRecord, series: seq<(Day, nat)>): RangeReport {
    RangeReport(
      from, to, total.pageviews, total.sessions, total.bounces,
      if total.sessions > 0 then Some(total.bounces as real / total.sessions as real) else None,
      if total.engagedViews > 0 then Some(Rounded(total.totalDurationMs, total.engagedViews)) else None,
      if total.engagedViews > 0 then Some(Rounded(total.totalScrollDepth, total.engagedViews)) else None,
      total.engagedViews, total.byDevice, total.bySource, total.byCountry, series)
  }

  function Series(s: seq<Event>, days: seq<Day>): seq<(Day, nat)> {
    seq(|days|, i requires 0 <= i < |days| => (days[i], Measure(On(s, days[i])).pageviews))
  }

  /** The report a log of events and nothing else should give. */
  function Report(s: seq<Event>, from: Day, to: Day): RangeReport {
    var days := RangeDays(from, to, MAX_RANGE);
    ReportOf(from, to, Exactly(RangeTotal(s, days)), Series(s, days))
  }

  /** The report it does give when the days of `clean` are rolled up. */
  function ShownReport(s: seq<Event>, from: Day, to: Day, clean: set<Day>): RangeReport {
    var days := RangeDays(from, to, MAX_RANGE);
    ReportOf(from, to, ShownTotal(s, days, clean), Series(s, days))
  }

  function ReportCells(r: RangeReport, c: Column): Breakdown {
    match c
    case Device => r.byDevice
    case Source => r.bySource
    case Country => r.byCountry
  }

  /** A rate is a share of the sessions, and is absent exactly when there are none; a breakdown sums to the
      pageviews exactly when no bucket of its column in the range is named like an inherited member. */
  lemma ReportRates(s: seq<Event>, from: Day, to: Day, clean: set<Day>, c: Column)
    ensures var r := ShownReport(s, from, to, clean);
      && (r.bounceRate.None? <==> r.sessions == 0)
      && (r.bounceRate.Some? ==> 0.0 <= r.bounceRate.value <= 1.0)
      && r.bounces <= r.sessions <= r.pageviews
      && (SumsTo(ReportCells(r, c), r.pageviews) <==> Ordinary(Within(s, RangeDays(from, to, MAX_RANGE)), c))
  {
    var days := RangeDays(from, to, MAX_RANGE);
    RangeConsistentIff(s, days, clean, c);
    var total := ShownTotal(s, days, clean);
    hide ShownTotal, RangeTotal, Ordinary, Within, SumsTo, RangeDays;
    if total.sessions > 0 {
      ShareIsFraction(total.bounces, total.sessions);
    }
  }

  lemma ShareIsFraction(part: nat, whole: nat)
    requires part <= whole && whole > 0
    ensures 0.0 <= part as real / whole as real <= 1.0
  {
  }

  /** The report is what it should be, whichever days are rolled up, exactly when no bucket in the range
      is named like an inherited member; all but its breakdowns always is. */
  lemma ReportIsExactIff(s: seq<Event>, from: Day, to: Day, clean: set<Day>)
    ensures var r, right := ShownReport(s, from, to, clean), Report(s, from, to);
      && r.(byDevice := right.byDevice, bySource := right.bySource, byCountry := right.byCountry) == right
      && (r == right <==> OrdinaryRange(s, RangeDays(from, to, MAX_RANGE)))
  {
    var days := RangeDays(from, to, MAX_RANGE);
    RangeIsExactIff(s, days, clean);
    RangeConsistentIff(s, days, clean, Device);
    hide ShownTotal, RangeTotal, Ordinary, Within, SumsTo, RangeDays, OrdinaryRange, Numbers, Series;
  }

  // ---- merging breakdowns ----

  /** No bucket has the empty name, so adding a breakdown to another renames nothing. */
  ghost predicate Named(r: DayRecord) {
    "" !in r.byDevice && "" !in r.bySource && "" !in r.byCountry
  }

  lemma ShownIsNamed(s: seq<Event>, clean: bool)
    ensures Named(DayShown(s, clean))
  {
    hide DayShown;
    ColumnIsNamed(s, clean, Device);
    ColumnIsNamed(s, clean, Source);
    ColumnIsNamed(s, clean, Country);
  }

  lemma ColumnIsNamed(s: seq<Event>, clean: bool, c: Column)
    ensures "" !in CellsOf(DayShown(s, clean), c)
  {
    assert "" !in INHERITED;
    hide DayShown, Measure, INHERITED, Plain;
    ShownIsPlain(s, clean);
    BucketsOfDay(s, c, "");
    assert Plain(CellsOf(DayShown(s, clean), c), CountsOf(Measure(s), c));
    assert PlainAt(CellsOf(DayShown(s, clean), c), CountsOf(Measure(s), c), "");
  }

  /** Of counts with counts it is the sum exactly when no new bucket is named like an inherited member. */
  lemma MergedCountsIff(m: Counts, n: Counts)
    ensures Merged(Numbers(m), Numbers(n)) == Numbers(m + n)
      <==> forall k :: k in n && k in INHERITED ==> k in m && k != PROTO
  {
    var a, b, all := Numbers(m), Numbers(n), Numbers(m + n);
    hide INHERITED, Merged, Numbers;
    forall k
      ensures if k in n && k in INHERITED ==> k in m && k != PROTO
        then (k in Merged(a, b) <==> k in all) && (k in all ==> Merged(a, b)[k] == all[k])
        else k in all && (k in Merged(a, b) ==> Merged(a, b)[k] != all[k])
    {
      MergedCount(m, n, k);
    }
    if forall k :: k in n && k in INHERITED ==> k in m && k != PROTO {
      assert forall k :: (k in Merged(a, b) <==> k in all) && (k in all ==> Merged(a, b)[k] == all[k]);
    }
  }

  lemma MergedCount(m: Counts, n: Counts, k: string)
    ensures var merged, all := Merged(Numbers(m), Numbers(n)), Numbers(m + n);
      if k in n && k in INHERITED ==> k in m && k != PROTO
      then (k in merged <==> k in all) && (k in all ==> merged[k] == all[k])
      else k in all && (k in merged ==> merged[k] != all[k])
  {
    assert PROTO in INHERITED;
    hide INHERITED, MemberText, Decimal, Merged, Numbers;
    NumbersAt(m, k);
    NumbersAt(n, k);
    NumbersAt(m + n, k);
    MergedAt(Numbers(m), Numbers(n), k);
  }

  method MergeInto(target: Breakdown, more: Breakdown) returns (out: Breakdown)
    requires "" !in more
    ensures out == Merged(target, more)
  {
    hide INHERITED, MemberText, Decimal;
    out := target;
    var todo := more.Keys;
    while todo != {}
      invariant todo <= more.Keys
      invariant out == Merged(target, map k | k in more && k !in todo :: more[k])
    {
      var k :| k in todo;
      ghost var done := map x | x in more && x !in todo :: more[x];
      ghost var done' := map x | x in more && x !in todo - {k} :: more[x];
      assert done' == done[k := more[k]] && k !in done;
      MergeOne(target, done, k, more[k]);
      out := AddInto(out, Some(k), more[k]);
      todo := todo - {k};
    }
    assert (map k | k in more && k !in todo :: more[k]) == more;
  }

  lemma MergeOne(target: Breakdown, done: Breakdown, k: string, c: Cell)
    requires k != "" && k !in done
    ensures AddInto(Merged(target, done), Some(k), c) == Merged(target, done[k := c])
  {
    hide INHERITED, MemberText, Decimal, CellSum;
    var a, b := AddInto(Merged(target, done), Some(k), c), Merged(target, done[k := c]);
    assert CellAt(Merged(target, done), k) == CellAt(target, k);
    assert a.Keys == b.Keys;
  }
}
