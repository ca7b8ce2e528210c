/** What each write to the analytics tables must do, told from the rows themselves. No handler uses any
    of this. */
module Writes {
  import opened Options
  import opened Queries
  import opened Metrics
  import opened Breakdowns
  import opened Ascending
  import opened Rollup
  import opened RollupRuns
  import opened Readings
  import opened TopPages

  ghost predicate HasRows(events: seq<Event>, d: Day) {
    exists e :: e in events && e.day == d
  }

  ghost predicate IsClean(t: Tables, d: Day) {
    d in t.daily && !t.daily[d].dirty
  }

  ghost predicate IsBlank(r: DayRecord) {
    r == DayRecord(0, 0, 0, 0, 0, 0, map[], map[], map[])
  }

  /** A token no row has. */
  ghost predicate IsFresh(t: Tables, token: Option<Token>) {
    token.Some? && forall d :: d in t.daily ==> t.daily[d].token != token
  }

  // ---- ingest ----

  /** Which submissions become rows: the well-formed, but for a past day that is clean and has none left. */
  ghost predicate Wanted(t: Tables, today: Day, e: Submission) {
    && 1 <= |e.viewId| <= 64 && e.ts != "" && e.dayIsDate && e.row.path != ""
    && (e.row.kind == Pageview || e.row.kind == Engagement)
    && (e.origin == Server || e.origin == Beacon)
    && !(e.row.day < today && IsClean(t, e.row.day) && !HasRows(t.events, e.row.day))
  }

  ghost function Taken(t: Tables, today: Day, batch: seq<Submission>): seq<Event> {
    if batch == [] then []
    else
      var n := |batch| - 1;
      Taken(t, today, batch[..n]) + if Wanted(t, today, batch[n]) then [batch[n].row] else []
  }

  /** The wanted rows are appended; of the days they touch, every past one ends flagged under a fresh
      token, by a blank row if it had none, and today if it has a row; nothing else changes. */
  ghost predicate IngestDoes(t: Tables, today: Day, batch: seq<Submission>, t': Tables) {
    var rows := Taken(t, today, batch);
    && t'.events == t.events + rows && t'.pages == t.pages
    && (forall d :: d in t'.daily <==> d in t.daily || (HasRows(rows, d) && d < today))
    && forall d :: d in t'.daily ==>
         if HasRows(rows, d) && d <= today
         then && t'.daily[d].dirty && IsFresh(t, t'.daily[d].token)
              && (if d in t.daily then t'.daily[d].counts == t.daily[d].counts else IsBlank(t'.daily[d].counts))
         else d in t.daily && t'.daily[d] == t.daily[d]
  }

  lemma RowsAreRaw(t: Tables, d: Day)
    ensures HasRows(t.events, d) <==> Raw(t, d)
  {
    OnMember(t.events, d);
  }

  lemma {:induction false} TakenIsKept(t: Tables, today: Day, batch: seq<Submission>)
    ensures Taken(t, today, batch) == Kept(t, today, batch)
  {
    if batch == [] {
    } else {
      var n := |batch| - 1;
      var e := batch[n];
      TakenIsKept(t, today, batch[..n]);
      assert batch == batch[..n] + [e];
      WantedIs(t, today, e);
      hide Wanted, WellFormed, NotPruned, Select;
      var kept := Select(batch[..n], RowOf());
      SelectSnoc(batch[..n], e, RowOf());
      if WellFormed(e) {
        assert Select(batch, RowOf()) == kept + [e.row];
        SelectSnoc(kept, e.row, NotPruned(t, today));
      } else {
        assert Select(batch, RowOf()) == kept;
      }
    }
  }

  lemma WantedIs(t: Tables, today: Day, e: Submission)
    ensures Wanted(t, today, e) <==> WellFormed(e) && NotPruned(t, today)(e.row).Some?
    ensures NotPruned(t, today)(e.row).Some? ==> NotPruned(t, today)(e.row) == Some(e.row)
  {
    RowsAreRaw(t, e.row.day);
    hide HasRows, Raw;
    assert |e.ts| > 0 <==> e.ts != "";
    assert |e.row.path| > 0 <==> e.row.path != "";
  }

  lemma IngestIs(w: World, batch: seq<Submission>, w': World)
    requires TokensUsed(w) && Next(w, Ingest(batch), w')
    ensures IngestDoes(w.tables, w.today, batch, w'.tables)
    ensures w'.accepted == w.accepted + Taken(w.tables, w.today, batch)
  {
    TakenIsKept(w.tables, w.today, batch);
    hide Kept, Taken;
    var rows := Kept(w.tables, w.today, batch);
    assert forall d :: HasRows(rows, d) <==> d in DaysOf(rows);
    hide HasRows, DaysOf;
  }

  // ---- rollup ----

  ghost predicate IsDue(t: Tables, through: Day, d: Day) {
    && HasRows(t.events, d) && d <= through
    && ((d in t.daily && t.daily[d].dirty) || forall c :: IsClean(t, c) ==> c < d)
  }

  /** The oldest `maxDays` of the days that are due, oldest first. */
  ghost predicate AreOldestDue(days: seq<Day>, t: Tables, through: Day, maxDays: nat) {
    && |days| <= maxDays
    && (forall i, j :: 0 <= i < j < |days| ==> days[i] < days[j])
    && (forall d :: d in days ==> IsDue(t, through, d))
    && forall d :: IsDue(t, through, d) && d !in days ==> |days| == maxDays && forall x :: x in days ==> x < d
  }

  lemma DueIs(t: Tables, through: Day, d: Day)
    ensures IsDue(t, through, d) <==> d in PendingSet(t, through)
  {
    RowsAreRaw(t, d);
    RawIsDay(t, d);
    hide Raw, RawDays, HasRows;
    assert forall c :: IsClean(t, c) <==> c in CleanDays(t);
  }

  lemma PendingAreOldest(t: Tables, through: Day, maxDays: nat)
    ensures AreOldestDue(Pending(t, through, maxDays), t, through, maxDays)
  {
    forall d ensures IsDue(t, through, d) <==> d in PendingSet(t, through) {
      DueIs(t, through, d);
    }
    hide IsDue, PendingSet;
    var all, days := Sorted(PendingSet(t, through)), Pending(t, through, maxDays);
    forall d | d in all && d !in days ensures forall x :: x in days ==> x < d {
      forall x | x in days ensures x < d {
        PrefixIsOldest(all, maxDays, x, d);
      }
    }
  }

  /** After a roll of `days` each has a clean row telling its raw events, with the token it had, and a
      page row for each path seen, with its views; nothing else changes. */
  ghost predicate RollDoes(t: Tables, days: set<Day>, t': Tables) {
    && t'.events == t.events
    && (forall d :: d in t'.daily <==> d in t.daily || d in days)
    && (forall d :: d in t'.daily ==>
         if d in days
         then && !t'.daily[d].dirty && RecordTells(t'.daily[d].counts, t.events, d, d)
              && t'.daily[d].token == (if d in t.daily then t.daily[d].token else None)
         else d in t.daily && t'.daily[d] == t.daily[d])
    && (forall d, p :: PageRolls(t, days, t', d, p))
  }

  ghost predicate PageRolls(t: Tables, days: set<Day>, t': Tables, d: Day, p: string) {
    var n := |PathAt(t.events, p, d, d)|;
    if d in days && n > 0 then (d, p) in t'.pages && t'.pages[(d, p)] == n
    else ((d, p) in t'.pages <==> (d, p) in t.pages) && ((d, p) in t.pages ==> t'.pages[(d, p)] == t.pages[(d, p)])
  }

  lemma DayViews(s: seq<Event>, d: Day, p: string)
    ensures multiset(Paths(On(s, d)))[p] == |PathAt(s, p, d, d)|
  {
    ViewsOfDay(s, d);
    PathCount(s, {d}, d, d);
  }

  lemma RollIs(t: Tables, days: set<Day>)
    ensures RollDoes(t, days, RolledUp(t, days))
  {
    var t' := RolledUp(t, days);
    forall d, p ensures PageRolls(t, days, t', d, p) {
      PageRollIs(t, days, d, p);
    }
    forall d ensures (d in t'.daily <==> d in t.daily || d in days)
      && (d in t'.daily ==> t'.daily[d] == if d in days then RolledRow(t, d) else t.daily[d])
    {
      RolledDay(t, days, d);
    }
    forall d | d in days ensures RecordTells(RolledRow(t, d).counts, t.events, d, d) {
      hide RecordTells, Recorded, RolledUp, ReadBack;
      DayTells(t.events, d, false);
    }
    assert t'.events == t.events;
    hide RolledUp, RecordTells, Recorded, PageRolls;
  }

  lemma PageRollIs(t: Tables, days: set<Day>, d: Day, p: string)
    ensures PageRolls(t, days, RolledUp(t, days), d, p)
  {
    RolledPages(t, days, d, p);
    DayViews(t.events, d, p);
    hide RolledUp, PathAt;
    assert p in Paths(On(t.events, d)) <==> multiset(Paths(On(t.events, d)))[p] > 0;
  }

  /** The page rows a roll writes: one for each day and path seen. */
  ghost function PagesOf(events: seq<Event>, days: set<Day>): set<(Day, string)> {
    set i | 0 <= i < |events| && events[i].kind == Pageview && events[i].day in days :: (events[i].day, events[i].path)
  }

  lemma {:induction false} PageRowsAre(events: seq<Event>, days: seq<Day>)
    requires Distinct(days)
    ensures PageRows(events, days) == |PagesOf(events, DaySet(days))|
  {
    if days == [] {
      assert PagesOf(events, DaySet(days)) == {};
    } else {
      var n := |days| - 1;
      var d := days[n];
      PageRowsAre(events, days[..n]);
      PagesOfOne(events, d);
      assert DaySet(days) == DaySet(days[..n]) + {d};
      assert PagesOf(events, DaySet(days)) == PagesOf(events, DaySet(days[..n])) + PagesOf(events, {d});
      assert PagesOf(events, DaySet(days[..n])) !! PagesOf(events, {d});
    }
  }

  lemma PagesOfOne(events: seq<Event>, d: Day)
    ensures |PagesOf(events, {d})| == |Members(multiset(Paths(On(events, d))))|
  {
    var paths := Members(multiset(Paths(On(events, d))));
    ViewsOfDay(events, d);
    PathCount(events, {d}, d, d);
    hide On, Paths, ViewsIn, PathAt;
    forall k ensures k in PagesOf(events, {d}) <==> k.0 == d && k.1 in paths {
      PageIsPath(events, d, k);
    }
    hide PagesOf, PathsIn;
    PairCount(paths, d, PagesOf(events, {d}));
  }

  lemma PageIsPath(events: seq<Event>, d: Day, k: (Day, string))
    ensures k in PagesOf(events, {d}) <==> k.0 == d && k.1 in PathsIn(events, d, d)
  {
    if k.0 == d && k.1 in PathsIn(events, d, d) {
      var i :| 0 <= i < |events| && i in ViewsAt(events, d, d) && events[i].path == k.1;
      assert (events[i].day, events[i].path) == k;
    }
    if k in PagesOf(events, {d}) {
      var i :| 0 <= i < |events| && events[i].kind == Pageview && events[i].day in {d} && (events[i].day, events[i].path) == k;
      assert i in ViewsAt(events, d, d);
    }
  }

  // ---- backfill ----

  ghost predicate Skipped(t: Tables, d: Day) {
    HasRows(t.events, d) && d !in t.daily && exists c :: IsClean(t, c) && d < c
  }

  /** Every skipped day gets a blank flagged row under a fresh token; nothing else changes. */
  ghost predicate BackfillDoes(t: Tables, t': Tables, flagged: nat) {
    && t'.events == t.events && t'.pages == t.pages
    && (forall d :: d in t'.daily <==> d in t.daily || Skipped(t, d))
    && (forall d :: d in t.daily ==> t'.daily[d] == t.daily[d])
    && (forall d :: d in t'.daily && d !in t.daily ==>
         t'.daily[d].dirty && IsBlank(t'.daily[d].counts) && IsFresh(t, t'.daily[d].token))
    && flagged == |set e | e in t.events && Skipped(t, e.day) :: e.day|
  }

  lemma SkippedIs(t: Tables, d: Day)
    ensures Skipped(t, d) <==> Unseen(t, d)
  {
    RowsAreRaw(t, d);
    hide Raw, HasRows;
    assert forall c :: IsClean(t, c) <==> c in CleanDays(t);
  }

  lemma BackfillIs(w: World, w': World, unseen: set<Day>)
    requires TokensUsed(w) && Next(w, Backfill, w') && unseen == set d | d in RawDays(w.tables) && Unseen(w.tables, d)
    ensures BackfillDoes(w.tables, w'.tables, |unseen|)
  {
    hide Unseen, Skipped, RawDays, Stubbed, HasRows, IsFresh, IsBlank;
    var t := w.tables;
    assert Stubbed(t.daily, unseen, w.nextToken, w'.tables.daily, w'.nextToken);
    assert w'.tables.events == t.events && w'.tables.pages == t.pages;
    UnseenAreSkipped(t, unseen);
    hide Next;
    SkippedDays(t, unseen);
    StubbedIs(t, unseen, w.nextToken, w'.tables.daily, w'.nextToken);
  }

  lemma UnseenAreSkipped(t: Tables, unseen: set<Day>)
    requires unseen == set d | d in RawDays(t) && Unseen(t, d)
    ensures forall d :: d in unseen <==> Skipped(t, d)
  {
    forall d ensures d in unseen <==> Skipped(t, d) {
      SkippedIs(t, d);
      RawIsDay(t, d);
      hide Unseen, Skipped, RawDays;
    }
  }

  lemma StubbedIs(t: Tables, added: set<Day>, token: Token, daily': map<Day, DailyRow>, token': Token)
    requires forall d :: d in t.daily && t.daily[d].token.Some? ==> t.daily[d].token.value < token
    requires Stubbed(t.daily, added, token, daily', token')
    ensures forall d :: d in daily' <==> d in t.daily || d in added
    ensures forall d :: d in t.daily ==> daily'[d] == t.daily[d]
    ensures forall d :: d in daily' && d !in t.daily ==>
      daily'[d].dirty && IsBlank(daily'[d].counts) && IsFresh(t, daily'[d].token)
  {
  }

  lemma SkippedDays(t: Tables, unseen: set<Day>)
    requires forall d :: d in unseen <==> Skipped(t, d)
    ensures |unseen| == |set e | e in t.events && Skipped(t, e.day) :: e.day|
  {
    var days := set e | e in t.events && Skipped(t, e.day) :: e.day;
    forall d ensures d in unseen <==> d in days {
      if Skipped(t, d) {
        var e :| e in t.events && e.day == d;
      }
    }
    assert days == unseen;
  }

  // ---- prune ----

  /** Clean, and older than `keepDays` whole days, or than four if that is less. */
  ghost predicate Prunable(t: Tables, today: Day, keepDays: int, d: Day) {
    IsClean(t, d) && if keepDays >= 4 then d + keepDays < today else d + 4 < today
  }

  /** The rows of prunable days are gone, every other row is kept as often as it was there, and no
      aggregate changes. */
  ghost predicate PruneDoes(t: Tables, today: Day, keepDays: int, t': Tables) {
    && t'.daily == t.daily && t'.pages == t.pages
    && forall e :: multiset(t'.events)[e] == if Prunable(t, today, keepDays, e.day) then 0 else multiset(t.events)[e]
  }

  lemma {:induction false} KeptAsOften(s: seq<Event>, keep: Event -> Option<Event>, e: Event)
    requires forall x :: keep(x) == Some(x) || keep(x) == None
    ensures multiset(Select(s, keep))[e] == if keep(e).Some? then multiset(s)[e] else 0
  {
    if s == [] {
    } else {
      KeptAsOften(s[1..], keep, e);
      assert s == [s[0]] + s[1..];
      OneMore(s[0], s[1..], keep);
    }
  }

  lemma PruneIs(t: Tables, today: Day, keepDays: int)
    ensures PruneDoes(t, today, keepDays, PrunedTo(t, Cutoff(today, keepDays)))
  {
    var cutoff := Cutoff(today, keepDays);
    forall e: Event
      ensures multiset(PrunedTo(t, cutoff).events)[e] == if Prunable(t, today, keepDays, e.day) then 0 else multiset(t.events)[e]
    {
      KeptAsOften(t.events, Survives(t, cutoff), e);
    }
  }
}
