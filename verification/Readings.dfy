/** What the dashboard must say, told from the positions of a log of events and nothing else. No
    handler uses any of this. */
module Readings {
  import opened Options
  import opened Queries
  import opened Metrics
  import opened Ascending
  import opened Breakdowns
  import opened Totals
  import opened Ranges
  import opened TopPages

  /** The days a range covers: at most 400 of them. */
  ghost predicate Covers(from: Day, to: Day, d: Day) {
    from <= d <= to && d < from + 400
  }

  ghost function ViewsAt(s: seq<Event>, from: Day, to: Day): set<int> {
    set i | 0 <= i < |s| && s[i].kind == Pageview && Covers(from, to, s[i].day)
  }

  ghost function EngagedAt(s: seq<Event>, from: Day, to: Day): set<int> {
    set i | 0 <= i < |s| && s[i].kind == Engagement && Covers(from, to, s[i].day)
  }

  /** A session belongs to one day. */
  ghost function SessionsIn(s: seq<Event>, from: Day, to: Day): set<(Day, string)> {
    set i | 0 <= i < |s| && i in ViewsAt(s, from, to) && s[i].sessionId.Some? :: (s[i].day, s[i].sessionId.value)
  }

  ghost function SessionAt(s: seq<Event>, v: (Day, string)): set<int> {
    set i | 0 <= i < |s| && s[i].kind == Pageview && s[i].day == v.0 && s[i].sessionId == Some(v.1)
  }

  ghost function BouncesIn(s: seq<Event>, from: Day, to: Day): set<(Day, string)> {
    set v | v in SessionsIn(s, from, to) && |SessionAt(s, v)| == 1
  }

  ghost function DurationIn(s: seq<Event>, from: Day, to: Day): int {
    if s == [] then 0
    else
      var own := if s[0].kind == Engagement && Covers(from, to, s[0].day) && s[0].durationMs.Some? then s[0].durationMs.value else 0;
      own + DurationIn(s[1..], from, to)
  }

  ghost function ScrollIn(s: seq<Event>, from: Day, to: Day): int {
    if s == [] then 0
    else
      var own := if s[0].kind == Engagement && Covers(from, to, s[0].day) && s[0].scrollDepth.Some? then s[0].scrollDepth.value else 0;
      own + ScrollIn(s[1..], from, to)
  }

  /** A view without a value in the column, or with an empty one, is in the bucket "unknown". */
  ghost predicate InBucket(e: Event, c: Column, k: string) {
    var key := if c == Device then e.device else if c == Source then e.source else e.country;
    if key == None || key == Some("") then k == "unknown" else key == Some(k)
  }

  ghost function BucketAt(s: seq<Event>, c: Column, k: string, from: Day, to: Day): set<int> {
    set i | 0 <= i < |s| && i in ViewsAt(s, from, to) && InBucket(s[i], c, k)
  }

  ghost function PathAt(s: seq<Event>, p: string, from: Day, to: Day): set<int> {
    set i | 0 <= i < |s| && i in ViewsAt(s, from, to) && s[i].path == p
  }

  ghost function PathsIn(s: seq<Event>, from: Day, to: Day): set<string> {
    set i | 0 <= i < |s| && i in ViewsAt(s, from, to) :: s[i].path
  }

  // ---- what is to be told ----

  ghost predicate CellsTell(b: Breakdown, s: seq<Event>, c: Column, from: Day, to: Day) {
    forall k ::
      var n := |BucketAt(s, c, k, from, to)|;
      if k in INHERITED then k in b ==> n > 0 && b[k].Text?
      else (k in b <==> n > 0) && (k in b ==> b[k] == Number(n))
  }

  ghost predicate RecordTells(r: DayRecord, s: seq<Event>, from: Day, to: Day) {
    && r.pageviews == |ViewsAt(s, from, to)|
    && r.sessions == |SessionsIn(s, from, to)|
    && r.bounces == |BouncesIn(s, from, to)|
    && r.engagedViews == |EngagedAt(s, from, to)|
    && r.totalDurationMs == DurationIn(s, from, to)
    && r.totalScrollDepth == ScrollIn(s, from, to)
    && CellsTell(r.byDevice, s, Device, from, to)
    && CellsTell(r.bySource, s, Source, from, to)
    && CellsTell(r.byCountry, s, Country, from, to)
  }

  /** The nearest whole number to `sum / n`, halves up; none of nothing. */
  ghost predicate IsAverage(a: Option<int>, sum: int, n: nat) {
    && (a == None <==> n == 0)
    && (a.Some? ==> n * (2 * a.value - 1) <= 2 * sum < n * (2 * a.value + 1))
  }

  ghost predicate ReportTells(r: RangeReport, s: seq<Event>, from: Day, to: Day) {
    && r.from == from && r.to == to
    && r.pageviews == |ViewsAt(s, from, to)|
    && r.sessions == |SessionsIn(s, from, to)|
    && r.bounces == |BouncesIn(s, from, to)|
    && r.engagedViews == |EngagedAt(s, from, to)|
    && (r.bounceRate == None <==> SessionsIn(s, from, to) == {})
    && (r.bounceRate.Some? ==> r.bounceRate.value * |SessionsIn(s, from, to)| as real == |BouncesIn(s, from, to)| as real)
    && IsAverage(r.avgDurationMs, DurationIn(s, from, to), |EngagedAt(s, from, to)|)
    && IsAverage(r.avgScrollDepth, ScrollIn(s, from, to), |EngagedAt(s, from, to)|)
    && CellsTell(r.byDevice, s, Device, from, to)
    && CellsTell(r.bySource, s, Source, from, to)
    && CellsTell(r.byCountry, s, Country, from, to)
    && (forall i :: 0 <= i < |r.series| ==> r.series[i] == (from + i, |ViewsAt(s, from + i, from + i)|))
    && |r.series| == (if to < from then 0 else if to - from + 1 <= 400 then to - from + 1 else 400)
  }

  /** A ranking of the paths seen, cut as `slice(0, limit)` cuts: right counts, each path once, in order,
      and no path left out beats one listed. */
  ghost predicate PagesTell(r: seq<(string, nat)>, s: seq<Event>, from: Day, to: Day, limit: int) {
    var n := |PathsIn(s, from, to)|;
    && (forall e :: e in r ==> e.1 == |PathAt(s, e.0, from, to)| > 0)
    && (forall i, j :: 0 <= i < j < |r| ==> r[i].0 != r[j].0 && r[j].1 <= r[i].1)
    && |r| == (if limit >= n then n else if limit >= 0 then limit else if n + limit >= 0 then n + limit else 0)
    && forall p, e :: p in PathsIn(s, from, to) && (forall i :: 0 <= i < |r| ==> r[i].0 != p) && e in r ==>
         |PathAt(s, p, from, to)| <= e.1
  }

  // ---- a query's rows are positions ----

  ghost function RowsOf<E(!new), K(!new)>(s: seq<E>, f: E -> Option<K>): set<int> {
    set i | 0 <= i < |s| && f(s[i]).Some?
  }

  ghost function RowsWith<E(!new), K(!new)>(s: seq<E>, f: E -> Option<K>, k: K): set<int> {
    set i | 0 <= i < |s| && f(s[i]) == Some(k)
  }

  lemma {:induction false} SelectAt<E(!new), K(!new)>(s: seq<E>, f: E -> Option<K>)
    ensures |Select(s, f)| == |RowsOf(s, f)|
    ensures forall k :: multiset(Select(s, f))[k] == |RowsWith(s, f, k)|
  {
    if s == [] {
      assert RowsOf(s, f) == {};
      assert forall k :: RowsWith(s, f, k) == {};
    } else {
      var n := |s| - 1;
      SelectAt(s[..n], f);
      assert s == s[..n] + [s[n]];
      RowsSnoc(s[..n], s[n], f);
    }
  }

  lemma RowsSnoc<E(!new), K(!new)>(t: seq<E>, e: E, f: E -> Option<K>)
    ensures |Select(t + [e], f)| == |Select(t, f)| + (if f(e).Some? then 1 else 0)
    ensures |RowsOf(t + [e], f)| == |RowsOf(t, f)| + (if f(e).Some? then 1 else 0)
    ensures forall k :: multiset(Select(t + [e], f))[k] == multiset(Select(t, f))[k] + (if f(e) == Some(k) then 1 else 0)
    ensures forall k :: |RowsWith(t + [e], f, k)| == |RowsWith(t, f, k)| + (if f(e) == Some(k) then 1 else 0)
  {
    SelectSnoc(t, e, f);
    hide Select;
    RowsOfSnoc(t, e, f);
    forall k ensures |RowsWith(t + [e], f, k)| == |RowsWith(t, f, k)| + (if f(e) == Some(k) then 1 else 0) {
      RowsWithSnoc(t, e, f, k);
    }
  }

  lemma SelectSnoc<E, K>(t: seq<E>, e: E, f: E -> Option<K>)
    ensures Select(t + [e], f) == Select(t, f) + match f(e) case None => [] case Some(k) => [k]
  {
    SelectAppend(t, [e], f);
    assert [e] + [] == [e];
    SelectCons(e, [], f);
  }

  lemma RowsOfSnoc<E(!new), K(!new)>(t: seq<E>, e: E, f: E -> Option<K>)
    ensures |RowsOf(t + [e], f)| == |RowsOf(t, f)| + (if f(e).Some? then 1 else 0)
  {
    assert RowsOf(t + [e], f) == RowsOf(t, f) + if f(e).Some? then {|t|} else {};
  }

  lemma RowsWithSnoc<E(!new), K(!new)>(t: seq<E>, e: E, f: E -> Option<K>, k: K)
    ensures |RowsWith(t + [e], f, k)| == |RowsWith(t, f, k)| + (if f(e) == Some(k) then 1 else 0)
  {
    assert RowsWith(t + [e], f, k) == RowsWith(t, f, k) + if f(e) == Some(k) then {|t|} else {};
  }

  // ---- a range ----

  ghost predicate AreDays(days: set<Day>, from: Day, to: Day) {
    forall d :: d in days <==> Covers(from, to, d)
  }

  ghost function Both<K(!new)>(days: set<Day>, f: Event -> Option<K>): Event -> Option<K> {
    (e: Event) => if e.day in days then f(e) else None
  }

  /** Selecting from the days of a range and then by `f`, as positions. */
  lemma RangeSelect<K(!new)>(s: seq<Event>, days: set<Day>, f: Event -> Option<K>)
    ensures var got := Select(Select(s, InDays(days)), f);
      && |got| == |RowsOf(s, Both(days, f))|
      && forall k :: multiset(got)[k] == |RowsWith(s, Both(days, f), k)|
  {
    SelectCompose(s, InDays(days), f, Both(days, f));
    SelectAt(s, Both(days, f));
  }

  lemma ViewCount(s: seq<Event>, days: set<Day>, from: Day, to: Day, c: Column)
    requires AreDays(days, from, to)
    ensures var got := Select(Select(s, InDays(days)), BucketOf(c));
      && |got| == |ViewsAt(s, from, to)|
      && forall k :: multiset(got)[k] == |BucketAt(s, c, k, from, to)|
  {
    RangeSelect(s, days, BucketOf(c));
    hide Select;
    assert RowsOf(s, Both(days, BucketOf(c))) == ViewsAt(s, from, to);
    forall k ensures RowsWith(s, Both(days, BucketOf(c)), k) == BucketAt(s, c, k, from, to) {
    }
  }

  lemma PathCount(s: seq<Event>, days: set<Day>, from: Day, to: Day)
    requires AreDays(days, from, to)
    ensures var views := multiset(Select(Select(s, InDays(days)), PathOf()));
      && (forall p :: views[p] == |PathAt(s, p, from, to)|)
      && Members(views) == PathsIn(s, from, to)
  {
    RangeSelect(s, days, PathOf());
    var views := multiset(Select(Select(s, InDays(days)), PathOf()));
    forall p ensures RowsWith(s, Both(days, PathOf()), p) == PathAt(s, p, from, to) {
    }
    forall p ensures p in Members(views) <==> p in PathsIn(s, from, to) {
      if p in PathsIn(s, from, to) {
        var i :| 0 <= i < |s| && i in ViewsAt(s, from, to) && s[i].path == p;
        assert i in PathAt(s, p, from, to);
      }
      if PathAt(s, p, from, to) != {} {
        var i :| i in PathAt(s, p, from, to);
        assert s[i].path == p;
      }
    }
  }

  lemma SessionCount(s: seq<Event>, days: set<Day>, from: Day, to: Day)
    requires AreDays(days, from, to)
    ensures var visits := multiset(Select(Select(s, InDays(days)), VisitOf()));
      Members(visits) == SessionsIn(s, from, to) && Singles(visits) == BouncesIn(s, from, to)
  {
    RangeSelect(s, days, VisitOf());
    var visits := multiset(Select(Select(s, InDays(days)), VisitOf()));
    forall v: (Day, string)
      ensures visits[v] == if Covers(from, to, v.0) then |SessionAt(s, v)| else 0
    {
      VisitsAre(s, days, from, to, v);
    }
    forall v: (Day, string) ensures v in SessionsIn(s, from, to) <==> Covers(from, to, v.0) && SessionAt(s, v) != {} {
      if v in SessionsIn(s, from, to) {
        var i :| 0 <= i < |s| && i in ViewsAt(s, from, to) && s[i].sessionId.Some? && (s[i].day, s[i].sessionId.value) == v;
        assert i in SessionAt(s, v);
      }
      if Covers(from, to, v.0) && SessionAt(s, v) != {} {
        var i :| i in SessionAt(s, v);
        assert i in ViewsAt(s, from, to) && (s[i].day, s[i].sessionId.value) == v;
      }
    }
  }

  lemma VisitsAre(s: seq<Event>, days: set<Day>, from: Day, to: Day, v: (Day, string))
    requires AreDays(days, from, to)
    ensures RowsWith(s, Both(days, VisitOf()), v) == if Covers(from, to, v.0) then SessionAt(s, v) else {}
  {
  }

  lemma EngagedCount(s: seq<Event>, days: set<Day>, from: Day, to: Day)
    requires AreDays(days, from, to)
    ensures |Select(Select(s, InDays(days)), EngagedOf())| == |EngagedAt(s, from, to)|
  {
    RangeSelect(s, days, EngagedOf());
    assert RowsOf(s, Both(days, EngagedOf())) == EngagedAt(s, from, to);
  }

  lemma {:induction false} EngagedSums(s: seq<Event>, days: set<Day>, from: Day, to: Day)
    requires AreDays(days, from, to)
    ensures var rows := Select(Select(s, InDays(days)), EngagedOf());
      SumDuration(rows) == DurationIn(s, from, to) && SumScroll(rows) == ScrollIn(s, from, to)
  {
    if s != [] {
      EngagedSums(s[1..], days, from, to);
      if s[0].day in days {
        EngagedCons(s[0], Select(s[1..], InDays(days)));
      }
    }
  }

  /** The one pass over the log, told by positions. */
  lemma WholeRangeTells(s: seq<Event>, days: set<Day>, from: Day, to: Day, r: DayRecord)
    requires AreDays(days, from, to) && PlainDay(r, WholeRange(s, days))
    ensures RecordTells(r, s, from, to)
  {
    var m := WholeRange(s, days);
    WholeNumbers(s, days, from, to);
    assert Plain(CellsOf(r, Device), CountsOf(m, Device)) && Plain(CellsOf(r, Source), CountsOf(m, Source))
      && Plain(CellsOf(r, Country), CountsOf(m, Country));
    hide Plain, CellsTell, Select, ViewsAt, SessionsIn, BouncesIn, EngagedAt;
    hide SumDuration, SumScroll, DurationIn, ScrollIn, Members, Singles;
    PlainTells(r.byDevice, s, days, from, to, Device);
    PlainTells(r.bySource, s, days, from, to, Source);
    PlainTells(r.byCountry, s, days, from, to, Country);
  }

  lemma WholeNumbers(s: seq<Event>, days: set<Day>, from: Day, to: Day)
    requires AreDays(days, from, to)
    ensures var m := WholeRange(s, days);
      && m.pageviews == |ViewsAt(s, from, to)| && m.sessions == |SessionsIn(s, from, to)|
      && m.bounces == |BouncesIn(s, from, to)| && m.engagedViews == |EngagedAt(s, from, to)|
      && m.totalDurationMs == DurationIn(s, from, to) && m.totalScrollDepth == ScrollIn(s, from, to)
  {
    hide AreDays, Select, ViewsAt, SessionsIn, BouncesIn, EngagedAt, SumDuration, SumScroll, DurationIn, ScrollIn, Members, Singles;
    ViewCount(s, days, from, to, Device);
    SessionCount(s, days, from, to);
    EngagedCount(s, days, from, to);
    EngagedSums(s, days, from, to);
  }

  lemma PlainTells(b: Breakdown, s: seq<Event>, days: set<Day>, from: Day, to: Day, c: Column)
    requires AreDays(days, from, to) && Plain(b, multiset(Select(Select(s, InDays(days)), BucketOf(c))))
    ensures CellsTell(b, s, c, from, to)
  {
    ViewCount(s, days, from, to, c);
    hide INHERITED, BucketAt;
    forall k
      ensures var n := |BucketAt(s, c, k, from, to)|;
        if k in INHERITED then k in b ==> n > 0 && b[k].Text?
        else (k in b <==> n > 0) && (k in b ==> b[k] == Number(n))
    {
      assert PlainAt(b, multiset(Select(Select(s, InDays(days)), BucketOf(c))), k);
    }
  }

  lemma OneDay(s: seq<Event>, d: Day)
    ensures WholeRange(s, {d}) == Measure(On(s, d))
  {
    hide WholeRange, Measure, Add, On;
    OneMoreDayTotal(s, {}, d);
    WholeRangeOfNothing(s);
    assert {} + {d} == {d};
    NothingAdded(Measure(On(s, d)));
  }

  lemma NothingAdded(m: DayMetrics)
    ensures Add(NO_EVENTS, m) == m
  {
  }

  /** What a rollup writes for a day, and what is read back of it, tells the day's events. */
  lemma DayTells(s: seq<Event>, d: Day, clean: bool)
    ensures RecordTells(DayShown(On(s, d), clean), s, d, d)
    ensures Measure(On(s, d)).pageviews == |ViewsAt(s, d, d)|
  {
    OneDay(s, d);
    ShownIsPlain(On(s, d), clean);
    WholeRangeTells(s, {d}, d, d, DayShown(On(s, d), clean));
    hide DayShown, Measure, CellsTell, ViewsAt, Plain;
  }

  lemma RangeDaysAre(from: Day, to: Day)
    ensures var days := RangeDays(from, to, MAX_RANGE);
      Distinct(days) && AreDays(DaySet(days), from, to)
  {
    var days := RangeDays(from, to, MAX_RANGE);
    forall d ensures d in days <==> Covers(from, to, d) {
      if Covers(from, to, d) {
        assert days[d - from] == d;
      }
    }
  }

  lemma TotalTells(s: seq<Event>, from: Day, to: Day, clean: set<Day>)
    ensures RecordTells(ShownTotal(s, RangeDays(from, to, MAX_RANGE), clean), s, from, to)
  {
    var days := RangeDays(from, to, MAX_RANGE);
    RangeDaysAre(from, to);
    RangeTotalIsWholeRange(s, days);
    ShownTotalIsPlain(s, days, clean);
    hide RangeDays, ShownTotal, RangeTotal, WholeRange, Plain, RecordTells;
    WholeRangeTells(s, DaySet(days), from, to, ShownTotal(s, days, clean));
  }

  lemma RoundedIs(total: int, n: nat)
    requires n > 0
    ensures IsAverage(Some(Rounded(total, n)), total, n)
  {
    var x, a := total as real / n as real, Rounded(total, n);
    assert a as real <= x + 0.5 < a as real + 1.0;
    ScaledBetween(x, a as real - 0.5, a as real + 0.5, n as real);
    assert x * n as real == total as real;
    InWholes(total, n, a);
  }

  lemma ScaledBetween(x: real, low: real, high: real, n: real)
    requires low <= x < high && n > 0.0
    ensures low * n <= x * n < high * n
  {
  }

  lemma InWholes(total: int, n: nat, a: int)
    requires (a as real - 0.5) * n as real <= total as real < (a as real + 0.5) * n as real
    ensures n * (2 * a - 1) <= 2 * total < n * (2 * a + 1)
  {
    assert 2.0 * ((a as real - 0.5) * n as real) == (n * (2 * a - 1)) as real;
    assert 2.0 * ((a as real + 0.5) * n as real) == (n * (2 * a + 1)) as real;
  }

  /** The report over any log, whichever days are rolled up. */
  lemma ReportTellsAll(s: seq<Event>, from: Day, to: Day, clean: set<Day>)
    ensures ReportTells(ShownReport(s, from, to, clean), s, from, to)
  {
    var days := RangeDays(from, to, MAX_RANGE);
    SeriesTells(s, from, to);
    TotalTells(s, from, to, clean);
    hide ShownTotal, RecordTells, ReportTells, ReportOf, ViewsAt, Series, RangeDays;
    TotalToReport(s, from, to, ShownTotal(s, days, clean), Series(s, days));
  }

  lemma SeriesTells(s: seq<Event>, from: Day, to: Day)
    ensures var series := Series(s, RangeDays(from, to, MAX_RANGE));
      && |series| == (if to < from then 0 else if to - from + 1 <= 400 then to - from + 1 else 400)
      && forall i :: 0 <= i < |series| ==> series[i] == (from + i, |ViewsAt(s, from + i, from + i)|)
  {
    hide ViewsAt, On, Measure, DayShown;
    var series := Series(s, RangeDays(from, to, MAX_RANGE));
    forall i | 0 <= i < |series| ensures series[i] == (from + i, |ViewsAt(s, from + i, from + i)|) {
      DayTells(s, from + i, false);
    }
  }

  lemma TotalToReport(s: seq<Event>, from: Day, to: Day, total: DayRecord, series: seq<(Day, nat)>)
    requires RecordTells(total, s, from, to)
    requires forall i :: 0 <= i < |series| ==> series[i] == (from + i, |ViewsAt(s, from + i, from + i)|)
    requires |series| == (if to < from then 0 else if to - from + 1 <= 400 then to - from + 1 else 400)
    ensures ReportTells(ReportOf(from, to, total, series), s, from, to)
  {
    hide CellsTell, ViewsAt, SessionsIn, BouncesIn, EngagedAt, DurationIn, ScrollIn, Rounded, IsAverage;
    if total.engagedViews > 0 {
      RoundedIs(total.totalDurationMs, total.engagedViews);
      RoundedIs(total.totalScrollDepth, total.engagedViews);
    } else {
      NoAverage(total.totalDurationMs);
      NoAverage(total.totalScrollDepth);
    }
    if total.sessions > 0 {
      var rate := total.bounces as real / total.sessions as real;
      assert rate * total.sessions as real == total.bounces as real;
    }
  }

  lemma NoAverage(sum: int)
    ensures IsAverage(None, sum, 0)
  {
  }

  lemma TopTells(r: seq<(string, nat)>, s: seq<Event>, from: Day, to: Day, limit: int)
    requires IsTop(r, ViewsIn(s, DaySet(RangeDays(from, to, MAX_RANGE))), limit)
    ensures PagesTell(r, s, from, to, limit)
  {
    hide RangeDays, PathsIn, PathAt, ViewsIn, Members, IsTop;
    RangeDaysAre(from, to);
    ViewsTell(s, DaySet(RangeDays(from, to, MAX_RANGE)), from, to);
    RankingTells(r, ViewsIn(s, DaySet(RangeDays(from, to, MAX_RANGE))), s, from, to, limit);
  }

  lemma ViewsTell(s: seq<Event>, days: set<Day>, from: Day, to: Day)
    requires AreDays(days, from, to)
    ensures forall p :: ViewsIn(s, days)[p] == |PathAt(s, p, from, to)|
    ensures Members(ViewsIn(s, days)) == PathsIn(s, from, to)
  {
    PathCount(s, days, from, to);
  }

  lemma RankingTells(r: seq<(string, nat)>, totals: Counts, s: seq<Event>, from: Day, to: Day, limit: int)
    requires IsTop(r, totals, limit)
    requires forall p :: totals[p] == |PathAt(s, p, from, to)|
    requires Members(totals) == PathsIn(s, from, to)
    ensures PagesTell(r, s, from, to, limit)
  {
    assert forall p :: p in totals <==> p in Members(totals);
    NamesDiffer(r, totals, limit);
    hide Members, PathsIn, PathAt, Distinct;
    forall p, e | p in PathsIn(s, from, to) && (forall i :: 0 <= i < |r| ==> r[i].0 != p) && e in r
      ensures |PathAt(s, p, from, to)| <= e.1
    {
      assert (p, totals[p]) !in r;
    }
  }

  lemma NamesDiffer(r: seq<(string, nat)>, totals: Counts, limit: int)
    requires IsTop(r, totals, limit)
    ensures forall i, j :: 0 <= i < j < |r| ==> r[i].0 != r[j].0
  {
    forall i, j | 0 <= i < j < |r| ensures r[i].0 != r[j].0 {
      assert r[i] in r && r[j] in r && r[i] != r[j];
    }
  }
}
