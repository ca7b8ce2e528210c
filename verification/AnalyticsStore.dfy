/** The analytics store as the handlers run it: three tables updated in place, statement by
    statement. Every operation is tied to a step of `Rollup`, and every read to the log of all
    events ever accepted. */
module AnalyticsStore {
  import opened Options
  import opened Chunks
  import opened Queries
  import opened Metrics
  import opened Breakdowns
  import opened Totals
  import opened Ascending
  import opened ComputeDays
  import opened Ranges
  import opened Rollup
  import opened RollupRuns
  import opened TopPages
  import opened Readings
  import opened Writes

  const DAY_MS := 86_400_000

  const INSERT_CHUNK := 50  // 900 bound values, 18 columns a row

  const MARK_CHUNK := 30

  class Store {
    var events: seq<Event>
    var daily: map<Day, DailyRow>
    var pages: map<(Day, string), nat>
    var nextToken: Token
    var nowMs: nat
    ghost var accepted: seq<Event>

    function Now(): Tables
      reads this
    {
      Tables(events, daily, pages)
    }

    function Today(): Day
      reads this
    {
      nowMs / DAY_MS
    }

    ghost function State(): World
      reads this
    {
      World(Now(), accepted, Today(), nextToken)
    }

    ghost predicate Valid()
      reads this
    {
      Inv(State())
    }

    /** `Valid` but for days an older version may have left skipped. */
    ghost predicate Repairable()
      reads this
    {
      Sound(State())
    }

    constructor (nowMs: nat)
      ensures Valid() && State() == Start(nowMs / DAY_MS)
    {
      events, daily, pages, nextToken, accepted := [], map[], map[], 0, [];
      this.nowMs := nowMs;
    }

    method Elapse(ms: nat)
      requires Repairable()
      modifies this`nowMs
      ensures Repairable() && (old(Valid()) ==> Valid())
      ensures nowMs == old(nowMs) + ms && Next(old(State()), Tick(Today()), State())
      ensures Today() * 86_400_000 <= nowMs < (Today() + 1) * 86_400_000
    {
      ghost var before := State();
      nowMs := nowMs + ms;
      assert before.today <= Today();
      StepKeeps(before, Tick(Today()), State());
    }

    // ---- reads ----

    /** The stored numbers are re-established: a cell that is not one is dropped. */
    static method ReadCounts(stored: Breakdown) returns (out: Breakdown)
      ensures out == AsCounts(stored)
    {
      out := map[];
      var todo := stored.Keys;
      while todo != {}
        invariant todo <= stored.Keys
        invariant out == map k | k in stored && k !in todo && stored[k].Number? && k != PROTO :: stored[k]
      {
        var k :| k in todo;
        if stored[k].Number? {
          out := Assigned(out, k, stored[k]);
        }
        todo := todo - {k};
      }
    }

    static method ReadRow(stored: DayRecord) returns (r: DayRecord)
      ensures r == ReadBack(stored)
    {
      hide AsCounts;
      var byDevice := ReadCounts(stored.byDevice);
      var bySource := ReadCounts(stored.bySource);
      var byCountry := ReadCounts(stored.byCountry);
      r := stored.(byDevice := byDevice, bySource := bySource, byCountry := byCountry);
    }

    /** The requested days that are rolled up and not flagged, as stored but for cells that are no counts. */
    method RolledDays(days: seq<Day>) returns (out: map<Day, DayRecord>)
      ensures forall d :: d in out <==> d in days && Clean(Now(), d)
      ensures forall d :: d in out ==> d in daily && out[d] == ReadBack(daily[d].counts)
    {
      hide ReadBack;
      out := map[];
      var chunks := Chunked(days, IN_CHUNK);
      for i := 0 to |chunks|
        invariant forall d :: d in out <==> d in Flatten(chunks[..i]) && Clean(Now(), d)
        invariant forall d :: d in out ==> d in daily && out[d] == ReadBack(daily[d].counts)
      {
        FlattenTake(chunks, i);
        var rows := RolledRowsOf(chunks[i]);
        out := out + rows;
      }
      assert chunks[..|chunks|] == chunks;
    }

    method RolledRowsOf(chunk: seq<Day>) returns (rows: map<Day, DayRecord>)
      ensures forall d :: d in rows <==> d in chunk && Clean(Now(), d)
      ensures forall d :: d in rows ==> d in daily && rows[d] == ReadBack(daily[d].counts)
    {
      hide ReadBack;
      rows := map[];
      for j := 0 to |chunk|
        invariant forall d :: d in rows <==> d in chunk[..j] && Clean(Now(), d)
        invariant forall d :: d in rows ==> d in daily && rows[d] == ReadBack(daily[d].counts)
      {
        if Clean(Now(), chunk[j]) {
          var r := ReadRow(daily[chunk[j]].counts);
          rows := rows[chunk[j] := r];
        }
      }
    }

    /** The dashboard's headline read shows the whole accepted log, whatever is rolled up, flagged or
        pruned: its plain numbers always, and its breakdowns too exactly when no bucket in the range is
        named like a member every object inherits. */
    method MetricsForRange(from: Day, to: Day) returns (r: RangeReport)
      requires Repairable()
      ensures r == ShownReport(accepted, from, to, CleanDays(Now()))
      ensures var right := Report(accepted, from, to);
        && r.(byDevice := right.byDevice, bySource := right.bySource, byCountry := right.byCountry) == right
        && (r == right <==> OrdinaryRange(accepted, RangeDays(from, to, MAX_RANGE)))
      // And what that is: every number, rate and cell, told from the accepted events themselves.
      ensures ReportTells(r, accepted, from, to)
    {
      hide ReportTells;
      hide Recorded, Sound, ReportOf, RangeDays, Clean, CleanDays, Shows, Chosen;
      hide RecordTotal, ShownDays, Report, Series, OrdinaryRange;
      var days := DaysInRange(from, to, MAX_RANGE);
      var rolled := RolledDays(days);
      var missing := Filtered(days, rolled.Keys);
      var computed := Compute(events, missing);
      forall d | d in days ensures Shows(Chosen(rolled, computed, d), accepted, d, CleanDays(Now())) {
        ChosenShows(days, rolled, computed, d);
      }
      var total, series := SumDays(days, rolled, computed, accepted, CleanDays(Now()));
      r := ReportOf(from, to, total, series);
      assert r == ShownReport(accepted, from, to, CleanDays(Now()));
      hide ShownReport;
      ReportIsExactIff(accepted, from, to, CleanDays(Now()));
      ReportTellsAll(accepted, from, to, CleanDays(Now()));
    }

    static function Chosen(rolled: map<Day, DayRecord>, computed: map<Day, DayRecord>, d: Day): DayRecord {
      if d in rolled then rolled[d] else if d in computed then computed[d] else EMPTY_DAY
    }

    static ghost predicate Shows(r: DayRecord, s: seq<Event>, d: Day, clean: set<Day>) {
      r == DayShown(On(s, d), d in clean) && r.pageviews == Measure(On(s, d)).pageviews && Named(r)
    }

    static method SumDays(days: seq<Day>, rolled: map<Day, DayRecord>, computed: map<Day, DayRecord>, ghost s: seq<Event>,
                          ghost clean: set<Day>)
      returns (total: DayRecord, series: seq<(Day, nat)>)
      requires forall d :: d in days ==> Shows(Chosen(rolled, computed, d), s, d, clean)
      ensures total == ShownTotal(s, days, clean)
      ensures series == Series(s, days)
    {
      hide Measure, DayShown, AddDay, Named, Chosen;
      total, series := EMPTY_DAY, [];
      ghost var shown := ShownDays(s, days, clean);
      for i := 0 to |days|
        invariant total == RecordTotal(shown[..i])
        invariant |series| == i && forall j :: 0 <= j < i ==> series[j] == Series(s, days)[j]
      {
        var d := days[i];
        var m := Chosen(rolled, computed, d);
        assert Shows(m, s, d, clean);
        assert shown[..i + 1][..i] == shown[..i];
        total := Sum(total, m);
        series := series + [(d, m.pageviews)];
      }
      assert shown[..|days|] == shown;
    }

    /** Whichever form a day was read from, it is the day's accepted events that are shown. */
    lemma ChosenShows(days: seq<Day>, rolled: map<Day, DayRecord>, computed: map<Day, DayRecord>, d: Day)
      requires Repairable() && d in days
      requires forall x :: x in rolled <==> x in days && Clean(Now(), x)
      requires forall x :: x in rolled ==> x in daily && rolled[x] == ReadBack(daily[x].counts)
      requires forall x :: x in computed <==> x in days && x !in rolled
      requires forall x :: x in computed ==> computed[x] == Recorded(On(events, x))
      ensures Shows(Chosen(rolled, computed, d), accepted, d, CleanDays(Now()))
    {
      var clean := d in CleanDays(Now());
      assert clean <==> Clean(Now(), d);
      ShownIsPlain(On(accepted, d), clean);
      ShownIsNamed(On(accepted, d), clean);
      hide Recorded, ReadBack, Measure, Sound, DayShown, Named, Plain, On, CleanDays;
      ReadDayShows(State(), d);
    }

    static method Sum(total: DayRecord, m: DayRecord) returns (sum: DayRecord)
      requires Named(m)
      ensures sum == AddDay(total, m)
    {
      hide Merged;
      var byDevice := MergeInto(total.byDevice, m.byDevice);
      var bySource := MergeInto(total.bySource, m.bySource);
      var byCountry := MergeInto(total.byCountry, m.byCountry);
      sum := DayRecord(
        total.pageviews + m.pageviews, total.sessions + m.sessions, total.bounces + m.bounces,
        total.engagedViews + m.engagedViews, total.totalDurationMs + m.totalDurationMs,
        total.totalScrollDepth + m.totalScrollDepth, byDevice, bySource, byCountry);
    }

    /** Each listed path has exactly its accepted pageviews in the range, whichever days are clean,
        flagged, unrolled or pruned. */
    method TopPages(from: Day, to: Day, limit: int) returns (r: seq<(string, nat)>)
      requires Repairable()
      ensures IsTop(r, ViewsIn(accepted, DaySet(RangeDays(from, to, MAX_RANGE))), limit)
      ensures PagesTell(r, accepted, from, to, limit)
    {
      hide Sound, IsTop, Lists, Sliced, PagesTell;
      var days := DaysInRange(from, to, MAX_RANGE);
      if |days| == 0 {
        ViewsNowhere(accepted);
        assert DaySet(days) == {};
        NothingIsTop(limit);
        TopTells([], accepted, from, to, limit);
        return [];
      }
      var totals := PathTotals(days);
      var ranking := Ranked(totals);
      SliceIsTop(ranking, totals, limit);
      r := Sliced(ranking, limit);
      TopTells(r, accepted, from, to, limit);
    }

    method PathTotals(days: seq<Day>) returns (totals: Counts)
      requires Repairable() && Distinct(days)
      ensures totals == ViewsIn(accepted, DaySet(days))
    {
      hide Recorded, Sound, ViewsIn;
      var rolledRows := RolledRows(days);
      var seen := RowDays(rolledRows);
      UsedRows(DaySet(days), rolledRows);
      totals := AddRows(rolledRows, accepted, seen);
      var missing := Filtered(days, seen);
      ghost var left := DaySet(missing);
      totals := AddRaw(missing, totals);
      ViewsAgree(events, accepted, left) by {
        forall d | d in left ensures multiset(Paths(On(events, d))) == multiset(Paths(On(accepted, d))) {
          UnusedDay(d);
        }
      }
      assert DaySet(days) == seen + left && seen !! left by {
        forall d ensures d in DaySet(days) <==> d in seen + left {
        }
      }
      ViewsDisjoint(accepted, seen, left);
    }

    static function RowDays(rows: map<(Day, string), nat>): set<Day> {
      set k | k in rows :: k.0
    }

    static lemma NothingIsTop(limit: int)
      ensures IsTop([], multiset{}, limit)
    {
      assert Members<string>(multiset{}) == {};
    }

    /** The page rows of the days that are not flagged. */
    method RolledRows(days: seq<Day>) returns (rows: map<(Day, string), nat>)
      ensures forall k :: k in rows <==> k in pages && k.0 in days && !Dirty(Now(), k.0)
      ensures forall k :: k in rows ==> rows[k] == pages[k]
    {
      var dirty: set<Day>, pageRows: map<(Day, string), nat> := {}, map[];
      var chunks := Chunked(days, IN_CHUNK);
      for i := 0 to |chunks|
        invariant forall d :: d in dirty <==> d in Flatten(chunks[..i]) && Dirty(Now(), d)
        invariant forall k :: k in pageRows <==> k in pages && k.0 in Flatten(chunks[..i])
        invariant forall k :: k in pageRows ==> k in pages && pageRows[k] == pages[k]
      {
        FlattenTake(chunks, i);
        dirty := dirty + set d | d in chunks[i] && Dirty(Now(), d);
        pageRows := pageRows + map k | k in pages && k.0 in chunks[i] :: pages[k];
      }
      assert chunks[..|chunks|] == chunks;
      rows := map k | k in pageRows && k.0 !in dirty :: pageRows[k];
    }

    /** The rows used are the page counts of everything accepted on the days they cover. */
    lemma UsedRows(days: set<Day>, rows: map<(Day, string), nat>)
      requires Repairable()
      requires forall k :: k in rows <==> k in pages && k.0 in days && !Dirty(Now(), k.0)
      requires forall k :: k in rows ==> rows[k] == pages[k]
      ensures var seen := RowDays(rows);
        var keys := Select(accepted, RowKey(seen));
        && seen <= days
        && (forall d :: d in seen <==> d in days && UsesPages(Now(), d))
        && (forall k :: k in rows <==> k in keys)
        && (forall k :: k in rows ==> rows[k] == multiset(keys)[k])
    {
      hide Recorded, Sound;
      var seen := RowDays(rows);
      var keys := Select(accepted, RowKey(seen));
      forall k: (Day, string) ensures k in keys ==> k.0 in seen {
        SelectMember(accepted, RowKey(seen), k);
      }
      forall k: (Day, string) | k.0 in seen
        ensures k in rows <==> k in keys
        ensures k in rows ==> rows[k] == multiset(keys)[k]
      {
        ReadViewsIsExact(State(), k.0, k.1);
        RowKeyCount(accepted, seen, k.0, k.1);
        assert k == (k.0, k.1);
        if k in rows {
          PageRowIsViewed(k.0, k.1);
        }
        assert multiset(keys)[k] > 0 <==> k in keys;
      }
    }

    lemma PageRowIsViewed(d: Day, p: string)
      requires Repairable() && (d, p) in pages && !Dirty(Now(), d)
      ensures pages[(d, p)] > 0
    {
      assert DayHolds(State(), d);
    }

    lemma UnusedDay(d: Day)
      requires Repairable() && !UsesPages(Now(), d)
      ensures multiset(Paths(On(events, d))) == multiset(Paths(On(accepted, d)))
    {
      forall p ensures multiset(Paths(On(events, d)))[p] == multiset(Paths(On(accepted, d)))[p] {
        ReadViewsIsExact(State(), d, p);
      }
    }

    /** The days without page rows, counted from raw in chunks. */
    method AddRaw(missing: seq<Day>, totals0: Counts) returns (totals: Counts)
      requires Distinct(missing)
      ensures totals == totals0 + ViewsIn(events, DaySet(missing))
    {
      hide ViewsIn;
      totals := totals0;
      var chunks := Chunked(missing, IN_CHUNK);
      ViewsNowhere(events);
      assert DaySet([]) == {};
      for i := 0 to |chunks|
        invariant totals == totals0 + ViewsIn(events, DaySet(Flatten(chunks[..i])))
      {
        var inChunk := DaySet(chunks[i]);
        ghost var before := DaySet(Flatten(chunks[..i]));
        totals := AddGroups(events, inChunk, totals);
        ChunksAreDisjoint(chunks, i);
        ViewsDisjoint(events, before, inChunk);
      }
      assert chunks[..|chunks|] == chunks;
    }

    static lemma ChunksAreDisjoint(chunks: seq<seq<Day>>, i: nat)
      requires i < |chunks| && Distinct(Flatten(chunks))
      ensures DaySet(chunks[i]) !! DaySet(Flatten(chunks[..i]))
      ensures DaySet(Flatten(chunks[..i + 1])) == DaySet(Flatten(chunks[..i])) + DaySet(chunks[i])
    {
      FlattenSplit(chunks, i + 1);
      FlattenTake(chunks, i);
      var before, own := Flatten(chunks[..i]), chunks[i];
      forall d | d in own ensures d !in before {
        var j :| 0 <= j < |own| && own[j] == d;
        assert Flatten(chunks)[|before| + j] == d;
        assert forall k :: 0 <= k < |before| ==> Flatten(chunks)[k] == before[k];
      }
    }

    static method Filtered(days: seq<Day>, without: set<Day>) returns (out: seq<Day>)
      ensures forall d :: d in out <==> d in days && d !in without
      ensures Distinct(days) ==> Distinct(out)
    {
      out := [];
      for i := 0 to |days|
        invariant forall d :: d in out <==> d in days[..i] && d !in without
        invariant Distinct(days) ==> Distinct(out)
      {
        if days[i] !in without {
          assert Distinct(days) ==> days[i] !in days[..i];
          out := out + [days[i]];
        }
      }
      assert days[..|days|] == days;
    }

    // ---- ingest ----

    /** Rows for a past day that is clean and has no raw rows left are refused. */
    method DropPrunedDays(rows: seq<Event>) returns (kept: seq<Event>)
      ensures kept == Select(rows, NotPruned(Now(), Today()))
    {
      var today := Today();
      var late := Sorted(set e | e in rows && e.day < today :: e.day);
      if late == [] {
        assert forall e :: e in rows && e.day < today ==> e.day in late;
        SelectAll(rows, NotPruned(Now(), today));
        return rows;
      }
      var pruned: set<Day> := {};
      var chunks := Chunked(late, IN_CHUNK);
      for i := 0 to |chunks|
        invariant forall d :: d in pruned <==> d in Flatten(chunks[..i]) && Pruned(Now(), d)
      {
        FlattenTake(chunks, i);
        var rolled := set d | d in chunks[i] && Clean(Now(), d);
        if rolled != {} {
          var raw := set d | d in rolled && Raw(Now(), d);
          pruned := pruned + (rolled - raw);
        }
      }
      assert chunks[..|chunks|] == chunks;
      var keep := (e: Event) => if e.day in pruned then None else Some(e);
      kept := Select(rows, keep);
      forall e | e in rows ensures keep(e) == NotPruned(Now(), today)(e) {
        assert e.day < today ==> e.day in late;
      }
      SelectAgree(rows, keep, NotPruned(Now(), today));
    }

    static lemma {:induction false} SelectAll(rows: seq<Event>, keep: Event -> Option<Event>)
      requires forall e :: e in rows ==> keep(e) == Some(e)
      ensures Select(rows, keep) == rows
    {
      if rows == [] {
      } else {
        assert rows[0] in rows;
        SelectAll(rows[1..], keep);
      }
    }

    /** Insert in statements of at most `INSERT_CHUNK` rows. */
    method InsertRows(rows: seq<Event>) returns (written: nat)
      modifies this`events, this`accepted
      ensures events == old(events) + rows && accepted == old(accepted) + rows
      ensures written == |rows|
    {
      written := 0;
      var i := 0;
      while i < |rows|
        invariant i <= |rows| && written == i
        invariant events == old(events) + rows[..i] && accepted == old(accepted) + rows[..i]
      {
        var end := if i + INSERT_CHUNK <= |rows| then i + INSERT_CHUNK else |rows|;
        var slice := rows[i..end];
        events := events + slice;
        accepted := accepted + slice;
        written := written + |slice|;
        assert rows[..end] == rows[..i] + slice;
        i := end;
      }
      assert rows[..|rows|] == rows;
    }

    /** Flag the days of a batch: today only if it has a row, every past day by an upsert. */
    method MarkLateDays(days: set<Day>, today: Day)
      modifies this`daily, this`nextToken
      ensures Marked(old(daily), days, today, old(nextToken), daily, nextToken)
    {
      hide Marked;
      MarkToday(days, today);
      var late := PastDays(days, today);
      MarkPast(late, today, days * {today}, old(daily), old(nextToken));
      OnlyUpToToday(old(daily), days, days * {today} + DaySet(late), today, old(nextToken), daily, nextToken);
    }

    static function PastDays(days: set<Day>, today: Day): (late: seq<Day>)
      ensures forall d :: d in late <==> d in days && d < today
    {
      Sorted(set d | d in days && d < today)
    }

    method MarkPast(late: seq<Day>, today: Day, ghost marked: set<Day>, ghost daily0: map<Day, DailyRow>, ghost token0: Token)
      requires Marked(daily0, marked, today, token0, daily, nextToken)
      requires forall d :: d in late ==> d < today
      modifies this`daily, this`nextToken
      ensures Marked(daily0, marked + DaySet(late), today, token0, daily, nextToken)
    {
      hide Marked;
      var chunks := Chunked(late, MARK_CHUNK);
      assert marked + DaySet([]) == marked;
      for i := 0 to |chunks|
        invariant Marked(daily0, marked + DaySet(Flatten(chunks[..i])), today, token0, daily, nextToken)
      {
        FlattenTake(chunks, i);
        FlattenSplit(chunks, i + 1);
        assert forall d :: d in chunks[i] ==> d in late;
        ghost var before := marked + DaySet(Flatten(chunks[..i]));
        MarkChunk(chunks[i], today, before, daily0, token0);
        assert before + DaySet(chunks[i]) == marked + DaySet(Flatten(chunks[..i + 1]));
      }
      assert chunks[..|chunks|] == chunks;
    }

    /** Update-only: without a row for today there is nothing to flag. */
    method MarkToday(days: set<Day>, today: Day)
      modifies this`daily, this`nextToken
      ensures Marked(old(daily), days * {today}, today, old(nextToken), daily, nextToken)
    {
      if today in days {
        if today in daily {
          daily := daily[today := daily[today].(dirty := true, token := Some(nextToken))];
        }
        nextToken := nextToken + 1;
      }
    }

    /** Marking looks only at the days up to today. */
    static lemma OnlyUpToToday(daily0: map<Day, DailyRow>, days: set<Day>, marked: set<Day>, today: Day,
                               token0: Token, daily1: map<Day, DailyRow>, token1: Token)
      requires Marked(daily0, marked, today, token0, daily1, token1)
      requires forall d :: d in marked <==> d in days && d <= today
      ensures Marked(daily0, days, today, token0, daily1, token1)
    {
    }

    static lemma MarkOne(daily0: map<Day, DailyRow>, marked: set<Day>, today: Day, token0: Token,
                         daily1: map<Day, DailyRow>, token1: Token, d: Day)
      requires Marked(daily0, marked, today, token0, daily1, token1) && d < today
      ensures var row := DailyRow(if d in daily1 then daily1[d].counts else EMPTY_DAY, true, Some(token1));
        Marked(daily0, marked + {d}, today, token0, daily1[d := row], token1 + 1)
    {
    }

    /** One multi-row upsert, a new token for every row. */
    method MarkChunk(chunk: seq<Day>, ghost today: Day, ghost marked: set<Day>, ghost daily0: map<Day, DailyRow>,
                     ghost token0: Token)
      requires Marked(daily0, marked, today, token0, daily, nextToken)
      requires forall d :: d in chunk ==> d < today
      modifies this`daily, this`nextToken
      ensures Marked(daily0, marked + DaySet(chunk), today, token0, daily, nextToken)
    {
      hide Marked;
      assert marked + DaySet(chunk[..0]) == marked;
      for j := 0 to |chunk|
        invariant Marked(daily0, marked + DaySet(chunk[..j]), today, token0, daily, nextToken)
      {
        var d := chunk[j];
        assert d in chunk;
        MarkOne(daily0, marked + DaySet(chunk[..j]), today, token0, daily, nextToken, d);
        var counts := if d in daily then daily[d].counts else EMPTY_DAY;
        daily := daily[d := DailyRow(counts, true, Some(nextToken))];
        nextToken := nextToken + 1;
        assert marked + DaySet(chunk[..j + 1]) == marked + DaySet(chunk[..j]) + {d};
      }
      assert chunk[..|chunk|] == chunk;
    }

    /** Insert a batch and flag the days it touches. Returns how many rows were written. */
    method IngestEvents(batch: seq<Submission>) returns (written: nat)
      requires Repairable()
      modifies this`events, this`daily, this`nextToken, this`accepted
      ensures Repairable() && (old(Valid()) ==> Valid())
      ensures Next(old(State()), Ingest(batch), State())
      ensures IngestDoes(old(Now()), old(Today()), batch, Now())
      ensures accepted == old(accepted) + Taken(old(Now()), old(Today()), batch)
      ensures written == |Taken(old(Now()), old(Today()), batch)|
    {
      hide IngestDoes;
      TakenIsKept(Now(), Today(), batch);
      var rows := DropPrunedDays(Select(batch, RowOf()));
      assert rows == Kept(Now(), Today(), batch);
      hide Sound, Kept;
      ghost var before := State();
      if |rows| == 0 {
        IngestKeeps(before, batch, State());
        IngestIs(before, batch, State());
        return 0;
      }
      written := InsertRows(rows);
      MarkLateDays(DaysOf(rows), Today());
      IngestKeeps(before, batch, State());
      IngestIs(before, batch, State());
    }

    // ---- rollup ----

    /** Oldest first: the raw tail after the newest clean day, and flagged days that still have
        raw rows. */
    method PendingDays(through: Day, maxDays: nat) returns (days: seq<Day>)
      ensures days == Pending(Now(), through, maxDays)
      ensures AreOldestDue(days, Now(), through, maxDays)
    {
      PendingAreOldest(Now(), through, maxDays);
      hide AreOldestDue;
      var newestClean := Newest(CleanDays(Now()));
      var raw := RawDays(Now());
      var tail := set d | d in raw && d <= through && (newestClean.Some? ==> newestClean.value < d);
      var flagged := set d | d in daily && daily[d].dirty && d <= through;
      var stillRaw := StillRaw(Sorted(flagged), raw);
      PendingFound(Now(), through, newestClean, tail, flagged * stillRaw);
      days := Take(Sorted(tail + flagged * stillRaw), maxDays);
    }

    /** Which flagged days still have raw rows, asked in chunks. */
    static method StillRaw(flagged: seq<Day>, raw: set<Day>) returns (stillRaw: set<Day>)
      ensures stillRaw == DaySet(flagged) * raw
    {
      stillRaw := {};
      var chunks := Chunked(flagged, IN_CHUNK);
      for i := 0 to |chunks|
        invariant stillRaw == DaySet(Flatten(chunks[..i])) * raw
      {
        FlattenTake(chunks, i);
        stillRaw := stillRaw + DaySet(chunks[i]) * raw;
      }
      assert chunks[..|chunks|] == chunks;
    }

    static lemma PendingFound(t: Tables, through: Day, newestClean: Option<Day>, tail: set<Day>, flagged: set<Day>)
      requires newestClean == Newest(CleanDays(t))
      requires forall d :: d in tail <==> d in RawDays(t) && d <= through && (newestClean.Some? ==> newestClean.value < d)
      requires forall d :: d in flagged <==> d in t.daily && t.daily[d].dirty && d <= through && d in RawDays(t)
      ensures tail + flagged == PendingSet(t, through)
    {
      hide RawDays;
      forall d ensures d in PendingSet(t, through) <==> d in tail + flagged {
        if newestClean.Some? {
          assert newestClean.value in CleanDays(t);
        }
      }
    }

    method WritePages(day: Day, byPath: Counts) returns (written: nat)
      modifies this`pages
      ensures PagesWritten(old(pages), day, byPath, pages)
      ensures written == |Members(byPath)|
    {
      written := 0;
      var todo := Members(byPath);
      while todo != {}
        invariant todo <= Members(byPath)
        invariant forall k :: k in pages <==> k in old(pages) || (k.0 == day && k.1 in byPath && k.1 !in todo)
        invariant forall k :: k in pages ==>
          pages[k] == if k.0 == day && k.1 in byPath && k.1 !in todo then byPath[k.1] else old(pages)[k]
        invariant written + |todo| == |Members(byPath)|
      {
        var path :| path in todo;
        pages := pages[(day, path) := byPath[path]];
        written := written + 1;
        todo := todo - {path};
      }
    }

    /** Roll up `days` from raw: read the flag tokens, compute, then write day by day. */
    method RollupDays(days: seq<Day>) returns (written: nat)
      requires Distinct(days)
      modifies this`daily, this`pages
      ensures Now() == RolledUp(old(Now()), DaySet(days))
      ensures RollDoes(old(Now()), DaySet(days), Now())
      ensures written == |PagesOf(events, DaySet(days))| == PageRows(events, days)
    {
      hide RollDoes, PagesOf, RolledUp, PageRows, Recorded;
      RollIs(Now(), DaySet(days));
      PageRowsAre(events, days);
      var seen := SeenTokens(days);
      var metrics := Compute(events, days);
      written := WriteDays(days, seen, metrics);
    }

    method WriteDays(days: seq<Day>, seen: map<Day, Option<Token>>, metrics: map<Day, DayRecord>) returns (written: nat)
      requires Distinct(days)
      requires forall d :: d in seen <==> d in days && d in daily
      requires forall d :: d in seen ==> d in daily && seen[d] == daily[d].token
      requires metrics.Keys == DaySet(days) && forall d :: d in metrics ==> metrics[d] == Recorded(On(events, d))
      modifies this`daily, this`pages
      ensures Now() == RolledUp(old(Now()), DaySet(days))
      ensures written == PageRows(events, days)
    {
      hide Recorded, RolledUp, On, Members, Paths;
      ghost var before := Now();
      written := 0;
      RollNothing(before);
      assert DaySet(days[..0]) == {};
      for i := 0 to |days|
        invariant Now() == RolledUp(before, DaySet(days[..i]))
        invariant events == before.events && written == PageRows(events, days[..i])
      {
        var day := days[i];
        assert day in days && day !in days[..i];
        assert days[..i + 1][..i] == days[..i];
        var n := WriteDay(day, metrics[day], if day in seen then seen[day] else None, before, DaySet(days[..i]));
        assert DaySet(days[..i + 1]) == DaySet(days[..i]) + {day};
        written := written + n;
      }
      assert days[..|days|] == days;
    }

    /** One day's aggregate, then its page rows, one per path whatever page ids it was seen with. */
    method WriteDay(day: Day, m: DayRecord, seen: Option<Token>, ghost before: Tables,
                    ghost done: set<Day>) returns (written: nat)
      requires Now() == RolledUp(before, done) && day !in done
      requires m == Recorded(On(events, day)) && seen == (if day in before.daily then before.daily[day].token else None)
      modifies this`daily, this`pages
      ensures Now() == RolledUp(before, done + {day})
      ensures written == |Members(multiset(Paths(On(events, day))))|
    {
      RolledDay(before, done, day);
      hide Recorded, RolledUp, RolledRow, ViewsIn, PagesWritten;
      WriteRow(day, m, seen, before, done);
      var byPath := AddGroups(events, {day}, multiset{});
      ViewsOfDay(events, day);
      assert byPath == multiset(Paths(On(before.events, day)));
      ghost var pages0 := pages;
      assert pages0 == RolledUp(before, done).pages;
      written := WritePages(day, byPath);
      assert PagesWritten(pages0, day, byPath, pages);
      RollOneMore(before, done, day, pages);
    }

    method WriteRow(day: Day, m: DayRecord, seen: Option<Token>, ghost before: Tables, ghost done: set<Day>)
      requires Now() == RolledUp(before, done) && day !in done
      requires m == Recorded(On(events, day)) && seen == (if day in before.daily then before.daily[day].token else None)
      modifies this`daily
      ensures daily == RolledUp(before, done).daily[day := RolledRow(before, day)]
    {
      RolledDay(before, done, day);
      hide Recorded, RolledUp;
      UpsertDaily(day, m, seen);
    }

    method SeenTokens(days: seq<Day>) returns (seen: map<Day, Option<Token>>)
      ensures forall d :: d in seen <==> d in days && d in daily
      ensures forall d :: d in seen ==> d in daily && seen[d] == daily[d].token
    {
      seen := map[];
      var chunks := Chunked(days, IN_CHUNK);
      for i := 0 to |chunks|
        invariant forall d :: d in seen <==> d in Flatten(chunks[..i]) && d in daily
        invariant forall d :: d in seen ==> d in daily && seen[d] == daily[d].token
      {
        FlattenTake(chunks, i);
        seen := seen + map d | d in chunks[i] && d in daily :: daily[d].token;
      }
      assert chunks[..|chunks|] == chunks;
    }

    /** The counts are the new ones, and the day is clean if nothing has flagged it since the token was
        read, or nothing had: a flag set in between stands, with its token. */
    method UpsertDaily(day: Day, m: DayRecord, seen: Option<Token>)
      modifies this`daily
      ensures day in daily && daily == old(daily)[day := daily[day]] && daily[day].counts == m
      ensures Clean(Now(), day) <==> old(day !in daily || daily[day].token == seen || Clean(Now(), day))
      ensures daily[day].token == if day in old(daily) then old(daily)[day].token else None
    {
      if day in daily {
        var row := daily[day];
        var dirty := if row.token == seen then false else row.dirty;
        daily := daily[day := row.(dirty := dirty, counts := m)];
      } else {
        daily := daily[day := DailyRow(m, false, None)];
      }
    }

    /** Roll up the oldest pending days up to `through`, which no caller puts past today. */
    method RollupPending(through: Day, maxDays: nat) returns (days: seq<Day>, written: nat)
      requires Repairable() && through <= Today()
      modifies this`daily, this`pages
      ensures Repairable() && (old(Valid()) ==> Valid())
      ensures Next(old(State()), Roll(through, maxDays), State())
      ensures days == Pending(old(Now()), through, maxDays) && AreOldestDue(days, old(Now()), through, maxDays)
      ensures RollDoes(old(Now()), DaySet(days), Now()) && written == |PagesOf(events, DaySet(days))|
    {
      hide AreOldestDue, RollDoes, PagesOf;
      days := PendingDays(through, maxDays);
      written := RollGiven(through, maxDays, days);
    }

    /** The same for a caller that has just asked what is pending. */
    method RollGiven(through: Day, maxDays: nat, days: seq<Day>) returns (written: nat)
      requires Repairable() && through <= Today() && days == Pending(Now(), through, maxDays)
      modifies this`daily, this`pages
      ensures Repairable() && (old(Valid()) ==> Valid())
      ensures Next(old(State()), Roll(through, maxDays), State())
      ensures RollDoes(old(Now()), DaySet(days), Now()) && written == |PagesOf(events, DaySet(days))|
    {
      hide RollDoes, PagesOf;
      ghost var before := State();
      hide Sound, RolledUp, Recorded;
      assert DaySet(days) == Members(multiset(days));
      written := RollupDays(days);
      RollKeeps(before, through, maxDays, State());
    }

    // ---- backfill and prune ----

    /** Flag every raw day without a row that is older than the newest clean day: whatever days the
        store skipped, it skips none afterwards. */
    method FlagUnrolledDays() returns (flagged: nat)
      requires Repairable()
      modifies this`daily, this`nextToken
      ensures Valid() && Next(old(State()), Backfill, State())
      ensures forall d :: Clean(Now(), d) <==> old(Clean(Now(), d))
      ensures BackfillDoes(old(Now()), Now(), flagged)
    {
      hide BackfillDoes;
      ghost var before := State();
      flagged := FlagUnseen();
      BackfillIs(before, State(), set d | d in RawDays(before.tables) && Unseen(before.tables, d));
      hide Sound, Recorded;
      BackfillRepairs(before, State());
    }

    method FlagUnseen() returns (flagged: nat)
      modifies this`daily, this`nextToken
      ensures Flagged(old(Now()), old(nextToken), Now(), nextToken)
      ensures flagged == |set d | d in RawDays(old(Now())) && Unseen(old(Now()), d)|
    {
      hide Stubbed, Recorded;
      var newestClean := Newest(CleanDays(Now()));
      var unseen := set d | d in RawDays(Now()) && d !in daily && newestClean.Some? && d < newestClean.value;
      UnseenFound(Now(), newestClean, unseen);
      flagged := |unseen|;
      AddStubs(unseen);
    }

    static lemma UnseenFound(t: Tables, newestClean: Option<Day>, unseen: set<Day>)
      requires newestClean == Newest(CleanDays(t))
      requires forall d :: d in unseen <==> d in RawDays(t) && d !in t.daily && newestClean.Some? && d < newestClean.value
      ensures unseen == set d | d in RawDays(t) && Unseen(t, d)
    {
      var all := set d | d in RawDays(t) && Unseen(t, d);
      forall d ensures d in unseen <==> d in all {
        if d in RawDays(t) {
          UnseenIs(t, newestClean, d);
        }
      }
    }

    static lemma UnseenIs(t: Tables, newestClean: Option<Day>, d: Day)
      requires newestClean == Newest(CleanDays(t)) && d in RawDays(t)
      ensures Unseen(t, d) <==> d !in t.daily && newestClean.Some? && d < newestClean.value
    {
      RawIsDay(t, d);
      hide RawDays, Raw;
      if newestClean.Some? {
        assert newestClean.value in CleanDays(t);
      }
    }

    /** `INSERT ... SELECT`: one stub row per day, a new token for every row. */
    method AddStubs(days: set<Day>)
      requires forall d :: d in days ==> d !in daily
      modifies this`daily, this`nextToken
      ensures Stubbed(old(daily), days, old(nextToken), daily, nextToken)
    {
      hide Stubbed;
      var todo, done := days, {};
      StubNone(daily, nextToken);
      while todo != {}
        invariant todo <= days && done == days - todo
        invariant Stubbed(old(daily), done, old(nextToken), daily, nextToken)
      {
        var _ := Pick(todo);
        var d :| d in todo;
        StubOne(old(daily), done, old(nextToken), daily, nextToken, d);
        daily := daily[d := DailyRow(EMPTY_DAY, true, Some(nextToken))];
        nextToken := nextToken + 1;
        todo, done := todo - {d}, done + {d};
      }
      assert done == days;
    }

    static lemma StubNone(daily: map<Day, DailyRow>, nextToken: Token)
      ensures Stubbed(daily, {}, nextToken, daily, nextToken)
    {
    }

    /** Delete raw rows of old days, but only days whose aggregate is clean. */
    method PruneRawEvents(keepDays: int) returns (deletedDays: seq<Day>)
      requires Repairable()
      modifies this`events
      ensures Repairable() && (old(Valid()) ==> Valid())
      ensures Next(old(State()), Prune(keepDays), State())
      ensures PruneDoes(old(Now()), Today(), keepDays, Now())
      ensures forall d :: d in deletedDays <==> HasRows(old(events), d) && Prunable(old(Now()), Today(), keepDays, d)
    {
      hide PruneDoes;
      PruneIs(Now(), Today(), keepDays);
      ghost var before := State();
      deletedDays := DeleteOld(Cutoff(Today(), keepDays));
      forall d ensures d in deletedDays <==> HasRows(before.tables.events, d) && Prunable(before.tables, Today(), keepDays, d) {
        RowsAreRaw(before.tables, d);
      }
      hide Sound, Recorded;
      PruneKeeps(before, keepDays, State());
    }

    method DeleteOld(cutoff: Day) returns (deleted: seq<Day>)
      modifies this`events
      ensures Now() == PrunedTo(old(Now()), cutoff)
      ensures forall d :: d in deleted <==> old(Raw(Now(), d)) && d < cutoff && Clean(Now(), d)
    {
      ghost var before := Now();
      var candidates := Sorted(set d | d in RawDays(Now()) && d < cutoff);
      deleted := DeleteClean(candidates);
      DeletedAre(before, cutoff, deleted);
    }

    static lemma DeletedAre(t: Tables, cutoff: Day, deleted: seq<Day>)
      requires forall d :: d in deleted <==> d in RawDays(t) && d < cutoff && Clean(t, d)
      ensures PrunedTo(t, cutoff) == t.(events := Select(t.events, Without(DaySet(deleted))))
      ensures forall d :: d in deleted <==> Raw(t, d) && d < cutoff && Clean(t, d)
    {
      forall d ensures d in RawDays(t) <==> Raw(t, d) {
        RawIsDay(t, d);
      }
      hide Raw;
      forall e | e in t.events ensures Without(DaySet(deleted))(e) == Survives(t, cutoff)(e) {
        assert e.day in RawDays(t);
      }
      SelectAgree(t.events, Without(DaySet(deleted)), Survives(t, cutoff));
    }

    function CleanIn(chunk: seq<Day>): (rolled: seq<Day>)
      reads this
      ensures forall d :: d in rolled <==> d in chunk && Clean(Now(), d)
    {
      Sorted(set d | d in chunk && Clean(Now(), d))
    }

    method DeleteClean(candidates: seq<Day>) returns (deleted: seq<Day>)
      modifies this`events
      ensures forall d :: d in deleted <==> d in candidates && Clean(Now(), d)
      ensures events == Select(old(events), Without(DaySet(deleted)))
    {
      hide Without, Select, CleanIn;
      deleted := [];
      var chunks := Chunked(candidates, IN_CHUNK);
      NotIn(events, DaySet([]));
      for i := 0 to |chunks|
        invariant forall d :: d in deleted <==> d in Flatten(chunks[..i]) && Clean(Now(), d)
        invariant events == Select(old(events), Without(DaySet(deleted)))
      {
        FlattenTake(chunks, i);
        var rolled := CleanIn(chunks[i]);
        assert forall d :: d in deleted + rolled <==> d in Flatten(chunks[..i + 1]) && Clean(Now(), d);
        if rolled != [] {
          WithoutMore(old(events), DaySet(deleted), DaySet(rolled));
          events := Select(events, Without(DaySet(rolled)));
          assert DaySet(deleted + rolled) == DaySet(deleted) + DaySet(rolled);
          deleted := deleted + rolled;
        } else {
          assert deleted + rolled == deleted;
        }
      }
      assert chunks[..|chunks|] == chunks;
    }
  }

  /** `DELETE ... WHERE day IN gone` keeps the rest. */
  function Without(gone: set<Day>): Event -> Option<Event> {
    (e: Event) => if e.day in gone then None else Some(e)
  }

  lemma {:induction false} NotIn(s: seq<Event>, gone: set<Day>)
    requires gone == {}
    ensures Select(s, Without(gone)) == s
  {
    if s == [] {
    } else {
      NotIn(s[1..], gone);
    }
  }

  lemma WithoutMore(s: seq<Event>, gone: set<Day>, more: set<Day>)
    ensures Select(Select(s, Without(gone)), Without(more)) == Select(s, Without(gone + more))
  {
    SelectCompose(s, Without(gone), Without(more), Without(gone + more));
  }
}
