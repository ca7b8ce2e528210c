/** Days added up as the range reader adds them: cell by cell. */
module Totals {
  import opened Options
  import opened Queries
  import opened Ascending
  import opened Metrics
  import opened Breakdowns

  function AddDay(total: DayRecord, m: DayRecord): DayRecord {
    DayRecord(
      total.pageviews + m.pageviews, total.sessions + m.sessions, total.bounces + m.bounces,
      total.engagedViews + m.engagedViews, total.totalDurationMs + m.totalDurationMs,
      total.totalScrollDepth + m.totalScrollDepth,
      Merged(total.byDevice, m.byDevice), Merged(total.bySource, m.bySource), Merged(total.byCountry, m.byCountry))
  }

  function RecordTotal(rs: seq<DayRecord>): DayRecord {
    if rs == [] then EMPTY_DAY else AddDay(RecordTotal(rs[..|rs| - 1]), rs[|rs| - 1])
  }

  /** What the reader takes from each day, those of `clean` being rolled up. */
  function ShownDays(s: seq<Event>, days: seq<Day>, clean: set<Day>): seq<DayRecord> {
    seq(|days|, i requires 0 <= i < |days| => DayShown(On(s, days[i]), days[i] in clean))
  }

  function ShownTotal(s: seq<Event>, days: seq<Day>, clean: set<Day>): DayRecord {
    RecordTotal(ShownDays(s, days, clean))
  }

  /** The events of a list of days. */
  function Within(s: seq<Event>, days: seq<Day>): seq<Event> {
    Select(s, InDays(DaySet(days)))
  }

  /** No pageview on these days is in a bucket named like an inherited member. */
  ghost predicate OrdinaryRange(s: seq<Event>, days: seq<Day>) {
    forall c: Column :: Ordinary(Within(s, days), c)
  }

  // ---- column by column ----

  function Cells(rs: seq<DayRecord>, c: Column): seq<Breakdown> {
    seq(|rs|, i requires 0 <= i < |rs| => CellsOf(rs[i], c))
  }

  function Buckets(ms: seq<DayMetrics>, c: Column): seq<Counts> {
    seq(|ms|, i requires 0 <= i < |ms| => CountsOf(ms[i], c))
  }

  lemma {:induction false} TotalCells(rs: seq<DayRecord>, c: Column)
    ensures CellsOf(RecordTotal(rs), c) == MergedAll(Cells(rs, c))
  {
    hide Merged;
    if rs != [] {
      TotalCells(rs[..|rs| - 1], c);
      assert Cells(rs, c)[..|rs| - 1] == Cells(rs[..|rs| - 1], c);
    }
  }

  lemma {:induction false} TotalCounts(ms: seq<DayMetrics>, c: Column)
    ensures CountsOf(Total(ms), c) == Union(Buckets(ms, c))
  {
    if ms != [] {
      TotalCounts(ms[..|ms| - 1], c);
      assert Buckets(ms, c)[..|ms| - 1] == Buckets(ms[..|ms| - 1], c);
    }
  }

  lemma {:induction false} TotalNumbers(rs: seq<DayRecord>, ms: seq<DayMetrics>)
    requires |rs| == |ms| && forall i :: 0 <= i < |rs| ==> SameNumbers(rs[i], ms[i])
    ensures SameNumbers(RecordTotal(rs), Total(ms))
  {
    hide Merged;
    if rs != [] {
      TotalNumbers(rs[..|rs| - 1], ms[..|ms| - 1]);
    }
  }

  lemma ColumnIsPlain(s: seq<Event>, days: seq<Day>, clean: set<Day>, c: Column)
    ensures AllPlain(Cells(ShownDays(s, days, clean), c), Buckets(Daily(s, days), c))
  {
    hide Measure, Plain, DayShown;
    forall i | 0 <= i < |days|
      ensures Plain(Cells(ShownDays(s, days, clean), c)[i], Buckets(Daily(s, days), c)[i])
    {
      ShownIsPlain(On(s, days[i]), days[i] in clean);
    }
  }

  lemma ShownTotalIsPlain(s: seq<Event>, days: seq<Day>, clean: set<Day>)
    ensures PlainDay(ShownTotal(s, days, clean), RangeTotal(s, days))
  {
    var rs, ms := ShownDays(s, days, clean), Daily(s, days);
    hide Measure, Plain, DayShown, RecordTotal, Total;
    forall i | 0 <= i < |rs| ensures SameNumbers(rs[i], ms[i]) {
      ShownIsPlain(On(s, days[i]), days[i] in clean);
    }
    TotalNumbers(rs, ms);
    hide ShownDays, Daily;
    forall c: Column ensures Plain(CellsOf(RecordTotal(rs), c), CountsOf(Total(ms), c)) {
      ColumnIsPlain(s, days, clean, c);
      MergedAllIsPlain(Cells(rs, c), Buckets(ms, c));
      TotalCells(rs, c);
      TotalCounts(ms, c);
    }
  }

  /** The buckets of a range are those of the events within it. */
  lemma {:induction false} BucketsOfRange(s: seq<Event>, days: seq<Day>, c: Column, k: string)
    ensures k in CountsOf(RangeTotal(s, days), c) <==>
      exists e :: e in s && e.day in days && e.kind == Pageview && Bucket(ColumnOf(e, c)) == k
  {
    hide Measure;
    var n := |days| - 1;
    if days != [] {
      BucketsOfRange(s, days[..n], c, k);
      assert Daily(s, days)[..n] == Daily(s, days[..n]);
      BucketsOfDay(On(s, days[n]), c, k);
      forall e: Event ensures e in On(s, days[n]) <==> e in s && e.day == days[n] {
        SelectMember(s, OnDay(days[n]), e);
      }
      assert forall d :: d in days <==> d in days[..n] || d == days[n];
      hide RangeTotal, On, Select;
    }
  }

  lemma OrdinaryRangeIff(s: seq<Event>, days: seq<Day>, c: Column)
    ensures NoneInherited(CountsOf(RangeTotal(s, days), c)) <==> Ordinary(Within(s, days), c)
  {
    hide INHERITED, RangeTotal;
    forall k
      ensures k in CountsOf(RangeTotal(s, days), c) <==>
        exists e :: e in s && e.day in days && e.kind == Pageview && Bucket(ColumnOf(e, c)) == k
    {
      BucketsOfRange(s, days, c, k);
    }
    forall e: Event ensures e in Within(s, days) <==> e in s && e.day in days {
      SelectMember(s, InDays(DaySet(days)), e);
    }
    hide Within;
  }

  // ---- the results ----

  /** Over any days, whichever of them are rolled up: the plain numbers are right and in order, and a
      breakdown is the counts it should be, and sums to the pageviews, exactly when no bucket of its
      column is named like an inherited member. */
  lemma RangeConsistentIff(s: seq<Event>, days: seq<Day>, clean: set<Day>, c: Column)
    ensures var r, m := ShownTotal(s, days, clean), RangeTotal(s, days);
      && SameNumbers(r, m) && r.bounces <= r.sessions <= r.pageviews
      && (CellsOf(r, c) == Numbers(CountsOf(m, c)) <==> Ordinary(Within(s, days), c))
      && (SumsTo(CellsOf(r, c), r.pageviews) <==> Ordinary(Within(s, days), c))
  {
    ShownTotalIsPlain(s, days, clean);
    RangeIsConsistent(s, days);
    OrdinaryRangeIff(s, days, c);
    hide ShownTotal, RangeTotal, Plain, NoneInherited, Ordinary, Numbers, SumsTo;
    PlainIsCountsIff(CellsOf(ShownTotal(s, days, clean), c), CountsOf(RangeTotal(s, days), c));
  }

  /** So for all of it at once, against the sum over the days and against one pass over the log. */
  lemma RangeIsExactIff(s: seq<Event>, days: seq<Day>, clean: set<Day>)
    ensures ShownTotal(s, days, clean) == Exactly(RangeTotal(s, days)) <==> OrdinaryRange(s, days)
    ensures Distinct(days) ==> (ShownTotal(s, days, clean) == Exactly(WholeRange(s, DaySet(days))) <==> OrdinaryRange(s, days))
  {
    ShownTotalIsPlain(s, days, clean);
    forall c: Column ensures NoneInherited(CountsOf(RangeTotal(s, days), c)) <==> Ordinary(Within(s, days), c) {
      OrdinaryRangeIff(s, days, c);
    }
    hide ShownTotal, RangeTotal, WholeRange, Plain, NoneInherited, Ordinary, Within, Exactly;
    PlainDayIsExactIff(ShownTotal(s, days, clean), RangeTotal(s, days));
    if Distinct(days) {
      RangeTotalIsWholeRange(s, days);
    }
  }

  /** The total shows a text under an inherited name exactly when some day that is not rolled up has a
      pageview in that bucket, `__proto__` apart: rolling the day up removes it. */
  lemma TextShownIff(s: seq<Event>, days: seq<Day>, clean: set<Day>, c: Column, k: string)
    requires k in INHERITED
    ensures k in CellsOf(ShownTotal(s, days, clean), c) <==>
      k != PROTO && exists i :: 0 <= i < |days| && days[i] !in clean && k in CountsOf(Measure(On(s, days[i])), c)
  {
    var rs := ShownDays(s, days, clean);
    hide INHERITED, Measure, DayShown, RecordTotal;
    TotalCells(rs, c);
    ColumnIsPlain(s, days, clean, c);
    TextComesFrom(Cells(rs, c), Buckets(Daily(s, days), c), k);
    forall i | 0 <= i < |days|
      ensures k in Cells(rs, c)[i] <==> k != PROTO && days[i] !in clean && k in CountsOf(Measure(On(s, days[i])), c)
    {
      DayText(On(s, days[i]), days[i] in clean, c, k);
    }
    hide Cells, ShownDays, MergedAll, AllPlain;
    if i :| 0 <= i < |days| && days[i] !in clean && k in CountsOf(Measure(On(s, days[i])), c) {
      assert k != PROTO ==> k in Cells(rs, c)[i];
    }
  }

  lemma DayText(s: seq<Event>, clean: bool, c: Column, k: string)
    requires k in INHERITED
    ensures k in CellsOf(DayShown(s, clean), c) <==> k != PROTO && !clean && k in CountsOf(Measure(s), c)
  {
    hide INHERITED, Measure, MemberText, Decimal;
  }

  /** Two lists of days add up to the list of both exactly when the second total has no text: the
      inherited member is otherwise counted in twice. */
  lemma RangesAddIff(s: seq<Event>, days: seq<Day>, more: seq<Day>, clean: set<Day>)
    ensures AddDay(ShownTotal(s, days, clean), ShownTotal(s, more, clean)) == ShownTotal(s, days + more, clean)
      <==> forall c: Column :: WithoutText(ShownTotal(s, more, clean), c)
  {
    var a, b, all := ShownTotal(s, days, clean), ShownTotal(s, more, clean), ShownTotal(s, days + more, clean);
    NumbersAdd(s, days, more, clean);
    hide ShownTotal, ColumnAdds, WithoutText;
    forall c: Column ensures ColumnAdds(a, b, all, c) <==> WithoutText(b, c) {
      ColumnsAddIff(s, days, more, clean, c);
    }
    SumIs(a, b, all);
  }

  /** No cell of the column is under an inherited name: those only ever hold text. */
  predicate WithoutText(r: DayRecord, c: Column) {
    forall k :: k in CellsOf(r, c) ==> k !in INHERITED
  }

  ghost predicate NumbersSum(a: DayRecord, b: DayRecord, all: DayRecord) {
    && all.pageviews == a.pageviews + b.pageviews && all.sessions == a.sessions + b.sessions
    && all.bounces == a.bounces + b.bounces && all.engagedViews == a.engagedViews + b.engagedViews
    && all.totalDurationMs == a.totalDurationMs + b.totalDurationMs
    && all.totalScrollDepth == a.totalScrollDepth + b.totalScrollDepth
  }

  ghost predicate ColumnAdds(a: DayRecord, b: DayRecord, all: DayRecord, c: Column) {
    Merged(CellsOf(a, c), CellsOf(b, c)) == CellsOf(all, c)
  }

  lemma NumbersAdd(s: seq<Event>, days: seq<Day>, more: seq<Day>, clean: set<Day>)
    ensures NumbersSum(ShownTotal(s, days, clean), ShownTotal(s, more, clean), ShownTotal(s, days + more, clean))
  {
    ShownTotalIsPlain(s, days, clean);
    ShownTotalIsPlain(s, more, clean);
    ShownTotalIsPlain(s, days + more, clean);
    RangesAdd(s, days, more);
    hide ShownTotal, RangeTotal, Plain;
  }

  lemma SumIs(a: DayRecord, b: DayRecord, all: DayRecord)
    requires NumbersSum(a, b, all)
    ensures AddDay(a, b) == all <==> forall c: Column :: ColumnAdds(a, b, all, c)
  {
    hide Merged;
    if forall c: Column :: ColumnAdds(a, b, all, c) {
      assert ColumnAdds(a, b, all, Device) && ColumnAdds(a, b, all, Source) && ColumnAdds(a, b, all, Country);
    }
  }

  lemma ColumnsAddIff(s: seq<Event>, days: seq<Day>, more: seq<Day>, clean: set<Day>, c: Column)
    ensures ColumnAdds(ShownTotal(s, days, clean), ShownTotal(s, more, clean), ShownTotal(s, days + more, clean), c)
      <==> WithoutText(ShownTotal(s, more, clean), c)
  {
    var a, b := ShownDays(s, days, clean), ShownDays(s, more, clean);
    hide INHERITED, Merged, MergedAll, DayShown, Measure, RecordTotal;
    assert ShownDays(s, days + more, clean) == a + b;
    assert Cells(a + b, c) == Cells(a, c) + Cells(b, c);
    ColumnIsPlain(s, days, clean, c);
    ColumnIsPlain(s, more, clean, c);
    TotalCells(a, c);
    TotalCells(b, c);
    TotalCells(a + b, c);
    MergedAllAddsIff(Cells(a, c), Buckets(Daily(s, days), c), Cells(b, c), Buckets(Daily(s, more), c));
  }
}
