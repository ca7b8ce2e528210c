/** The rollup and the ingest on a store where every statement commits alone: any number of
    rollups, ingests and prunes, interleaved statement by statement. A multi-day read is modelled
    as its days read one after another, which only adds interleavings. */
module RollupRace {
  import opened Options
  import opened Queries
  import opened Metrics
  import opened Breakdowns
  import opened Ascending
  import opened Rollup
  import opened RollupRuns

  /** The five grouped reads behind one day's numbers. */
  datatype Pass = Devices | Sources | Countries | Sessions | Engagements

  /** Where one rollup is with one day: it has read the flag token and some of the passes, or it
      has written the day and is writing its page rows. */
  datatype Task =
    | Reading(seen: Option<Token>, got: map<Pass, seq<Event>>)
    | Paging(views: Option<Counts>, written: set<string>)

  type Id = nat

  datatype Shared = Shared(
    tables: Tables,
    accepted: seq<Event>,         // every event ever inserted
    nextToken: Token,
    today: Day,
    tasks: map<(Id, Day), Task>,  // of every rollup in flight
    owes: map<Id, set<Day>>,      // days an ingest has inserted on and not yet marked
    pruning: set<(Id, Day)>)      // days past the grace a prune has read as clean and not yet deleted

  datatype Statement =
    | Insert(id: Id, rows: seq<Event>)
    | Mark(id: Id, days: set<Day>)
    | ReadToken(id: Id, day: Day)
    | ReadPass(id: Id, day: Day, pass: Pass)
    | WriteDaily(id: Id, day: Day)
    | ReadPaths(id: Id, day: Day)
    | WritePage(id: Id, day: Day, path: string)
    | Finish(id: Id, day: Day)
    | CutOff(id: Id, day: Day)
    | ReadClean(id: Id, day: Day)
    | DeleteDay(id: Id, day: Day)
    | Later(to: Day)

  function Token(daily: map<Day, DailyRow>, d: Day): Option<Token> {
    if d in daily then daily[d].token else None
  }

  /** The numbers assembled from five reads, each perhaps of a different moment. */
  function Assembled(got: map<Pass, seq<Event>>): DayRecord
    requires forall p: Pass :: p in got
  {
    DayRecord(
      Recorded(got[Devices]).pageviews, Recorded(got[Sessions]).sessions, Recorded(got[Sessions]).bounces,
      Recorded(got[Engagements]).engagedViews, Recorded(got[Engagements]).totalDurationMs,
      Recorded(got[Engagements]).totalScrollDepth,
      Recorded(got[Devices]).byDevice, Recorded(got[Sources]).bySource, Recorded(got[Countries]).byCountry)
  }

  /** The upsert: the counts are replaced, and the flag is cleared only if the token is the one
      seen; otherwise the flag stays whatever it is. */
  function Upserted(daily: map<Day, DailyRow>, d: Day, m: DayRecord, seen: Option<Token>): DailyRow {
    if d !in daily then DailyRow(m, false, None)
    else DailyRow(m, if daily[d].token == seen then false else daily[d].dirty, daily[d].token)
  }

  ghost predicate Enabled(w: Shared, s: Statement) {
    match s
    case Insert(p, rows) => true
    case Mark(p, days) => p in w.owes && days <= w.owes[p]
    case ReadToken(r, d) => (r, d) !in w.tasks
    case ReadPass(r, d, pass) => (r, d) in w.tasks && w.tasks[(r, d)].Reading?
    case WriteDaily(r, d) =>
      (r, d) in w.tasks && w.tasks[(r, d)].Reading? && forall p: Pass :: p in w.tasks[(r, d)].got
    case ReadPaths(r, d) => (r, d) in w.tasks && w.tasks[(r, d)].Paging? && w.tasks[(r, d)].views.None?
    case WritePage(r, d, path) =>
      (r, d) in w.tasks && w.tasks[(r, d)].Paging? && w.tasks[(r, d)].views.Some? && path in w.tasks[(r, d)].views.value
    case Finish(r, d) =>
      && (r, d) in w.tasks && w.tasks[(r, d)].Paging? && w.tasks[(r, d)].views.Some?
      && forall p :: p in w.tasks[(r, d)].views.value ==> p in w.tasks[(r, d)].written
    case CutOff(r, d) => (r, d) in w.tasks
    case ReadClean(q, d) => Clean(w.tables, d) && d < w.today - (LATE_EVENT_DAYS + 1)
    case DeleteDay(q, d) => (q, d) in w.pruning
    case Later(to) => w.today <= to
  }

  function OwedAfter(w: Shared, p: Id, rows: seq<Event>): map<Id, set<Day>> {
    w.owes[p := (if p in w.owes then w.owes[p] else {}) + DaysOf(rows)]
  }

  ghost predicate Does(w: Shared, s: Statement, w': Shared) {
    Enabled(w, s) &&
    match s
    case Insert(p, rows) =>
      w' == w.(tables := w.tables.(events := w.tables.events + rows), accepted := w.accepted + rows,
               owes := OwedAfter(w, p, rows))
    case Mark(p, days) =>
      && Marked(w.tables.daily, days, w.today, w.nextToken, w'.tables.daily, w'.nextToken)
      && w' == w.(tables := w.tables.(daily := w'.tables.daily), nextToken := w'.nextToken,
                  owes := w.owes[p := w.owes[p] - days])
    case ReadToken(r, d) =>
      w' == w.(tasks := w.tasks[(r, d) := Reading(Token(w.tables.daily, d), map[])])
    case ReadPass(r, d, pass) =>
      var t := w.tasks[(r, d)];
      w' == w.(tasks := w.tasks[(r, d) := t.(got := t.got[pass := On(w.tables.events, d)])])
    case WriteDaily(r, d) =>
      var t := w.tasks[(r, d)];
      w' == w.(tables := w.tables.(daily := w.tables.daily[d := Upserted(w.tables.daily, d, Assembled(t.got), t.seen)]),
               tasks := w.tasks[(r, d) := Paging(None, {})])
    case ReadPaths(r, d) =>
      w' == w.(tasks := w.tasks[(r, d) := Paging(Some(multiset(Paths(On(w.tables.events, d)))), {})])
    case WritePage(r, d, path) =>
      var t := w.tasks[(r, d)];
      w' == w.(tables := w.tables.(pages := w.tables.pages[(d, path) := t.views.value[path]]),
               tasks := w.tasks[(r, d) := t.(written := t.written + {path})])
    case Finish(r, d) => w' == w.(tasks := w.tasks - {(r, d)})
    case CutOff(r, d) => w' == w.(tasks := w.tasks - {(r, d)})
    case ReadClean(q, d) => w' == w.(pruning := w.pruning + {(q, d)})
    case DeleteDay(q, d) =>
      w' == w.(tables := w.tables.(events := Select(w.tables.events, NotOn(d))), pruning := w.pruning - {(q, d)})
    case Later(to) => w' == w.(today := to)
  }

  function NotOn(d: Day): Event -> Option<Event> {
    (e: Event) => if e.day == d then None else Some(e)
  }

  /** Some ingest has inserted on `d` and will still mark it. */
  ghost predicate Owed(w: Shared, d: Day) {
    exists p :: p in w.owes && d in w.owes[p]
  }

  /** A clean day holds what its accepted events amount to, or is about to be flagged. */
  ghost predicate Agrees(w: Shared, d: Day) {
    Clean(w.tables, d) ==> w.tables.daily[d].counts == Recorded(On(w.accepted, d)) || Owed(w, d)
  }

  /** Every accepted event of the day is still raw. */
  ghost predicate Whole(w: Shared, d: Day) {
    On(w.tables.events, d) == On(w.accepted, d)
  }

  /** No ingest has a mark to come on the day and no rollup is on it. */
  ghost predicate Idle(w: Shared, d: Day) {
    !Owed(w, d) && forall r :: (r, d) !in w.tasks
  }

  /** Rolled, its raw rows gone, and nothing in flight on it. */
  ghost predicate Absent(w: Shared, d: Day) {
    Pruned(w.tables, d) && Idle(w, d)
  }

  ghost predicate Held(w: Shared, d: Day) {
    Whole(w, d) || Absent(w, d)
  }

  ghost predicate RowHolds(w: Shared, d: Day) {
    d in w.tables.daily ==>
      d <= w.today && (w.tables.daily[d].token.Some? ==> w.tables.daily[d].token.value < w.nextToken)
  }

  ghost predicate Settled(w: Shared) {
    && w.tasks == map[] && w.owes == map[] && w.pruning == {}
    && forall d :: Agrees(w, d) && RowHolds(w, d) && Held(w, d)
  }

  ghost predicate IsTrace(ws: seq<Shared>, steps: seq<Statement>) {
    && |ws| == |steps| + 1
    && Settled(ws[0])
    && forall i :: 0 <= i < |steps| ==> Does(ws[i], steps[i], ws[i + 1])
  }

  // ---- the hypotheses ----

  /** A rollup takes up a finished day, or today once it has a row for the mark to update, and one
      whose raw rows are there. An ingest inserts while its check for pruned days still holds. A
      prune deletes a day that is still clean and that nothing is in flight on. */
  ghost predicate Orderly(w: Shared, s: Statement) {
    match s
    case ReadToken(_, d) => (d < w.today || (d == w.today && d in w.tables.daily)) && Whole(w, d)
    case Insert(_, rows) => forall d :: d in DaysOf(rows) ==> Whole(w, d)
    case DeleteDay(_, d) => Clean(w.tables, d) && Idle(w, d)
    case _ => true
  }

  /** No two rollups are on the same day at once. */
  ghost predicate Alone(w: Shared) {
    forall a, b :: a in w.tasks && b in w.tasks && a.1 == b.1 ==> a == b
  }

  // ---- what holds with any number of rollups ----

  /** What a rollup has read is still so, or an ingest has a mark to come. */
  ghost predicate StillSo(w: Shared, d: Day, got: map<Pass, seq<Event>>) {
    Owed(w, d) || forall p :: p in got ==> got[p] == On(w.accepted, d)
  }

  ghost predicate TaskHolds(w: Shared, d: Day, t: Task) {
    && (d < w.today || (d == w.today && d in w.tables.daily))
    && (t.Reading? && t.seen.Some? ==> t.seen.value < w.nextToken && d in w.tables.daily)
    && (t.Reading? && t.seen == Token(w.tables.daily, d) ==> StillSo(w, d, t.got))
  }

  /** While a rollup's token is still the day's token, whatever it has read is still so, or an
      ingest on the day has its mark to come; and raw rows are gone only from days at rest. */
  ghost predicate TokensGuard(w: Shared) {
    && (forall k :: k in w.tasks ==> TaskHolds(w, k.1, w.tasks[k]))
    && (forall d :: RowHolds(w, d) && Held(w, d))
  }

  /** A rollup's day still has its raw rows. */
  lemma TaskIsWhole(w: Shared, k: (Id, Day))
    requires TokensGuard(w) && k in w.tasks
    ensures Whole(w, k.1)
  {
    assert Held(w, k.1) && (k.0, k.1) == k;
  }

  lemma OwedAfterInsert(w: Shared, p: Id, rows: seq<Event>, w': Shared, d: Day)
    requires Does(w, Insert(p, rows), w')
    ensures Owed(w', d) <==> Owed(w, d) || d in DaysOf(rows)
    ensures d !in DaysOf(rows) ==>
      On(w'.accepted, d) == On(w.accepted, d) && On(w'.tables.events, d) == On(w.tables.events, d)
    ensures Whole(w, d) ==> Whole(w', d)
  {
    OnAppend(w.accepted, rows, d);
    OnAppend(w.tables.events, rows, d);
    OnMember(rows, d);
    if Owed(w, d) {
      var q :| q in w.owes && d in w.owes[q];
      assert q in w'.owes && d in w'.owes[q];
    }
    if d in DaysOf(rows) {
      assert p in w'.owes && d in w'.owes[p];
    }
    if Owed(w', d) && d !in DaysOf(rows) {
      var q :| q in w'.owes && d in w'.owes[q];
      assert q in w.owes && d in w.owes[q];
    }
  }

  lemma OwedAfterMark(w: Shared, p: Id, days: set<Day>, w': Shared, d: Day)
    requires Does(w, Mark(p, days), w') && d !in days
    ensures Owed(w', d) <==> Owed(w, d)
  {
    if Owed(w, d) {
      var q :| q in w.owes && d in w.owes[q];
      assert q in w'.owes && d in w'.owes[q];
    }
    if Owed(w', d) {
      var q :| q in w'.owes && d in w'.owes[q];
      assert q in w.owes && d in w.owes[q];
    }
  }

  /** A mark settles what its ingest owed on those days, and on no other, and leaves each of them that is
      past, or today with a row, flagged under a token no row had. */
  lemma MarkSettles(w: Shared, p: Id, days: set<Day>, w': Shared, d: Day)
    requires Does(w, Mark(p, days), w') && (forall x :: RowHolds(w, x))
    ensures d in days ==> (Owed(w', d) <==> exists q :: q in w.owes && q != p && d in w.owes[q])
    ensures d !in days ==> (Owed(w', d) <==> Owed(w, d))
    ensures d in days && (d < w.today || (d == w.today && d in w.tables.daily)) ==>
      && Dirty(w'.tables, d) && w'.tables.daily[d].token.Some?
      && forall x :: x in w.tables.daily ==> w.tables.daily[x].token != w'.tables.daily[d].token
  {
    if d !in days {
      OwedAfterMark(w, p, days, w', d);
    } else if q :| q in w.owes && q != p && d in w.owes[q] {
      assert q in w'.owes && d in w'.owes[q];
    }
    assert forall x :: x in w.tables.daily ==> RowHolds(w, x);
  }

  lemma OwedOtherwise(w: Shared, s: Statement, w': Shared, d: Day)
    requires Does(w, s, w') && !s.Insert? && !s.Mark?
    ensures Owed(w', d) <==> Owed(w, d)
  {
    hide Recorded, On, Paths, Assembled;
    assert w'.owes == w.owes;
  }

  lemma AcceptedStays(w: Shared, s: Statement, w': Shared)
    requires Does(w, s, w') && !s.Insert?
    ensures w'.accepted == w.accepted
  {
    hide Recorded, On, Assembled, Paths, Marked;
  }

  lemma TaskSurvives(w: Shared, s: Statement, w': Shared, d: Day, t: Task)
    requires Does(w, s, w') && TaskHolds(w, d, t)
    ensures TaskHolds(w', d, t)
  {
    hide Recorded, On, Paths;
    if s.Insert? {
      OwedAfterInsert(w, s.id, s.rows, w', d);
    } else if !s.Mark? {
      OwedOtherwise(w, s, w', d);
    } else if d !in s.days {
      OwedAfterMark(w, s.id, s.days, w', d);
    }
  }

  lemma TaskStarts(w: Shared, s: Statement, w': Shared, k: (Id, Day))
    requires Does(w, s, w') && Orderly(w, s) && TokensGuard(w)
    requires k in w'.tasks
    ensures TaskHolds(w', k.1, w'.tasks[k])
  {
    hide Recorded, On, Paths, Marked, Assembled, Held;
    if k in w.tasks {
      TaskSurvives(w, s, w', k.1, w.tasks[k]);
    }
    if k !in w.tasks || w.tasks[k] != w'.tasks[k] {
      assert (k.0, k.1) == k;
      assert RowHolds(w, k.1);
      OwedOtherwise(w, s, w', k.1);
      if k in w.tasks {
        TaskIsWhole(w, k);
      }
    }
  }

  lemma GuardKeeps(w: Shared, s: Statement, w': Shared)
    requires Does(w, s, w') && Orderly(w, s) && TokensGuard(w)
    ensures TokensGuard(w')
  {
    hide TaskHolds, Held, RowHolds;
    forall k | k in w'.tasks ensures TaskHolds(w', k.1, w'.tasks[k]) {
      TaskStarts(w, s, w', k);
    }
    forall d ensures RowHolds(w', d) && Held(w', d) {
      RowKeeps(w, s, w', d);
      HeldKeeps(w, s, w', d);
    }
  }

  lemma RowKeeps(w: Shared, s: Statement, w': Shared, d: Day)
    requires Does(w, s, w') && TokensGuard(w)
    ensures RowHolds(w', d)
  {
    hide Recorded, On, Paths, Assembled, Held, StillSo;
    assert RowHolds(w, d);
    if s.WriteDaily? {
      assert TaskHolds(w, s.day, w.tasks[(s.id, s.day)]);
    }
  }

  // ---- when raw rows may go ----

  lemma EventsStay(w: Shared, s: Statement, w': Shared)
    requires Does(w, s, w') && !s.Insert? && !s.DeleteDay?
    ensures w'.tables.events == w.tables.events && w'.accepted == w.accepted
  {
    hide Recorded, On, Assembled, Paths, Marked;
  }

  lemma Deleted(w: Shared, q: Id, d: Day, w': Shared, x: Day)
    requires Does(w, DeleteDay(q, d), w')
    ensures On(w'.tables.events, x) == if x == d then [] else On(w.tables.events, x)
    ensures w'.tables.daily == w.tables.daily && w'.tables.pages == w.tables.pages && w'.accepted == w.accepted
    ensures Idle(w', x) <==> Idle(w, x)
  {
    OnFiltered(w.tables.events, NotOn(d), x, x != d);
    OwedOtherwise(w, DeleteDay(q, d), w', x);
  }

  lemma AbsentStays(w: Shared, s: Statement, w': Shared, d: Day)
    requires Does(w, s, w') && Orderly(w, s) && Absent(w, d) && !Whole(w, d) && !s.DeleteDay?
    ensures Absent(w', d)
  {
    hide Recorded, On, Paths, Assembled;
    if s.Insert? {
      OwedAfterInsert(w, s.id, s.rows, w', d);
    } else if s.Mark? {
      EventsStay(w, s, w');
      assert d !in s.days;
      OwedAfterMark(w, s.id, s.days, w', d);
    } else {
      EventsStay(w, s, w');
      OwedOtherwise(w, s, w', d);
    }
  }

  lemma HeldKeeps(w: Shared, s: Statement, w': Shared, d: Day)
    requires Does(w, s, w') && Orderly(w, s) && Held(w, d)
    ensures Held(w', d)
  {
    hide Recorded, On, Paths, Assembled, Marked;
    if s.DeleteDay? {
      Deleted(w, s.id, s.day, w', d);
    } else if !Whole(w, d) {
      AbsentStays(w, s, w', d);
    } else if s.Insert? {
      OwedAfterInsert(w, s.id, s.rows, w', d);
    } else {
      EventsStay(w, s, w');
    }
  }

  /** A prune's delete leaves its day held exactly when the day is still clean with nothing in
      flight on it, or nothing was ever accepted for it. */
  lemma DeleteHoldsIff(w: Shared, q: Id, d: Day, w': Shared)
    requires Does(w, DeleteDay(q, d), w')
    ensures Held(w', d) <==> (Clean(w.tables, d) && Idle(w, d)) || On(w.accepted, d) == []
  {
    hide Recorded, Idle;
    Deleted(w, q, d, w', d);
  }

  /** An insert leaves a day it touches held exactly when the day's raw rows were all there. */
  lemma InsertHoldsIff(w: Shared, p: Id, rows: seq<Event>, w': Shared, d: Day)
    requires Does(w, Insert(p, rows), w') && d in DaysOf(rows) && Held(w, d)
    ensures Held(w', d) <==> Whole(w, d)
  {
    hide Recorded;
    OwedAfterInsert(w, p, rows, w', d);
    OnAppend(w.accepted, rows, d);
    OnAppend(w.tables.events, rows, d);
    var added := On(rows, d);
    if Whole(w', d) {
      assert |On(w.tables.events, d)| == |On(w.accepted, d)|;
      assert On(w.tables.events, d) == (On(w.tables.events, d) + added)[..|On(w.accepted, d)|];
      assert On(w.accepted, d) == (On(w.accepted, d) + added)[..|On(w.accepted, d)|];
    }
  }

  /** So does a rollup taking up a day. */
  lemma ReadTokenHoldsIff(w: Shared, r: Id, d: Day, w': Shared)
    requires Does(w, ReadToken(r, d), w') && Held(w, d)
    ensures Held(w', d) <==> Whole(w, d)
  {
    hide Recorded, On;
    assert (r, d) in w'.tasks;
  }

  /** Deleting a day's raw rows is invisible to the range reader exactly when the day is still clean
      at the delete, or its rows count for nothing; and to the page reader exactly when it reads the
      day's page rows, or the day has no pageview. */
  lemma DeleteReadsIff(w: Shared, q: Id, d: Day, w': Shared)
    requires Does(w, DeleteDay(q, d), w')
    ensures ReadDay(w'.tables, d) == ReadDay(w.tables, d)
      <==> Clean(w.tables, d) || Recorded(On(w.tables.events, d)) == Recorded([])
    ensures (forall p :: ReadViews(w'.tables, d, p) == ReadViews(w.tables, d, p))
      <==> UsesPages(w.tables, d) || Paths(On(w.tables.events, d)) == []
  {
    hide Recorded, Idle, On;
    Deleted(w, q, d, w', d);
    var views := Paths(On(w.tables.events, d));
    if !UsesPages(w.tables, d) && views != [] {
      assert views[0] in views;
      assert ReadViews(w.tables, d, views[0]) == multiset(views)[views[0]] > 0;
      assert ReadViews(w'.tables, d, views[0]) == 0;
    }
  }

  // ---- the mark of today ----

  /** The mark of today only updates a row. A rollup part-way through today, which was up to date `before`
      the events `added` arrived, is left guarded by the mark exactly when today has a row, or its token
      had moved already, or another ingest has a mark of today to come, or it read no pass before them. */
  lemma MarkOfTodayGuardsIff(w: Shared, p: Id, days: set<Day>, w': Shared, t: Task, before: seq<Event>, added: seq<Event>)
    requires Does(w, Mark(p, days), w') && w.today in days
    requires t.Reading? && (t.seen.Some? ==> t.seen.value < w.nextToken)
    requires On(w.accepted, w.today) == before + added && added != []
    requires forall q :: q in t.got ==> t.got[q] == before || t.got[q] == before + added
    ensures (t.seen == Token(w'.tables.daily, w.today) ==> StillSo(w', w.today, t.got)) <==>
      || w.today in w.tables.daily
      || t.seen != Token(w.tables.daily, w.today)
      || Owed(w', w.today)
      || forall q :: q in t.got ==> t.got[q] != before
  {
    hide Recorded, On;
    assert |before + added| > |before|;
  }

  // ---- what a write can break ----

  lemma AssembledSame(got: map<Pass, seq<Event>>, s: seq<Event>)
    requires forall p: Pass :: p in got && got[p] == s
    ensures Assembled(got) == Recorded(s)
  {
    hide Recorded;
  }

  /** With any number of rollups about, a write leaves its day in agreement exactly when it is not
      the one bad case: the token has moved since it was read, the day is clean all the same, its
      own numbers are stale, and no ingest is about to flag the day. The flag then stays cleared
      over stale counts. */
  lemma WriteAgreesIff(w: Shared, r: Id, d: Day, w': Shared)
    requires TokensGuard(w) && Does(w, WriteDaily(r, d), w')
    ensures var t := w.tasks[(r, d)];
      Agrees(w', d) <==> !(t.seen != Token(w.tables.daily, d) && Clean(w.tables, d)
                           && Assembled(t.got) != Recorded(On(w.accepted, d)) && !Owed(w, d))
  {
    hide Recorded, On, Assembled;
    var t := w.tasks[(r, d)];
    assert TaskHolds(w, d, t);
    assert Owed(w', d) <==> Owed(w, d);
    if t.seen == Token(w.tables.daily, d) && !Owed(w, d) {
      AssembledSame(t.got, On(w.accepted, d));
    }
  }

  /** With one rollup per day, a token that has moved means the day is flagged. */
  ghost predicate Flags(w: Shared) {
    forall k :: k in w.tasks && w.tasks[k].Reading? && w.tasks[k].seen != Token(w.tables.daily, k.1) ==> Dirty(w.tables, k.1)
  }

  lemma FlagsKeep(w: Shared, s: Statement, w': Shared)
    requires Does(w, s, w') && TokensGuard(w) && Alone(w) && Flags(w)
    ensures Flags(w')
  {
    hide Recorded, On, Paths, Assembled;
    forall k | k in w'.tasks && w'.tasks[k].Reading? && w'.tasks[k].seen != Token(w'.tables.daily, k.1)
      ensures Dirty(w'.tables, k.1)
    {
      if k in w.tasks {
        assert TaskHolds(w, k.1, w.tasks[k]);
        FlagKeeps(w, s, w', k);
      }
    }
  }

  lemma FlagKeeps(w: Shared, s: Statement, w': Shared, k: (Id, Day))
    requires Does(w, s, w') && Alone(w) && Flags(w)
    requires k in w.tasks && k in w'.tasks && TaskHolds(w, k.1, w.tasks[k])
    requires w'.tasks[k].Reading? && w'.tasks[k].seen != Token(w'.tables.daily, k.1)
    ensures Dirty(w'.tables, k.1)
  {
    hide Recorded, On, Paths, Assembled;
    assert (k.0, k.1) == k;
    if s.WriteDaily? {
      assert (s.id, s.day) in w.tasks && (s.id, s.day) != k;
    }
  }

  lemma AgreesKeeps(w: Shared, s: Statement, w': Shared, d: Day)
    requires Does(w, s, w') && TokensGuard(w) && Flags(w) && Agrees(w, d)
    ensures Agrees(w', d)
  {
    hide Recorded, On, Paths, Assembled;
    if s.Insert? {
      OwedAfterInsert(w, s.id, s.rows, w', d);
    } else if s.Mark? {
      assert RowHolds(w, d);
      if d !in s.days {
        OwedAfterMark(w, s.id, s.days, w', d);
      }
    } else if s.WriteDaily? && s.day == d {
      WriteAgreesIff(w, s.id, d, w');
    } else {
      OwedOtherwise(w, s, w', d);
    }
  }

  ghost predicate OneRollupADay(ws: seq<Shared>, steps: seq<Statement>) {
    && IsTrace(ws, steps)
    && (forall w :: w in ws ==> Alone(w))
    && (forall i :: 0 <= i < |steps| ==> Orderly(ws[i], steps[i]))
  }

  lemma {:induction false} TraceHolds(ws: seq<Shared>, steps: seq<Statement>, i: nat)
    requires OneRollupADay(ws, steps) && i < |ws|
    ensures TokensGuard(ws[i]) && Flags(ws[i]) && forall d :: Agrees(ws[i], d)
  {
    if i == 0 {
    } else {
      TraceHolds(ws, steps, i - 1);
      var w, s, w' := ws[i - 1], steps[i - 1], ws[i];
      assert w in ws;
      hide Does, TokensGuard, Flags, Agrees, Alone;
      GuardKeeps(w, s, w');
      FlagsKeep(w, s, w');
      forall d ensures Agrees(w', d) {
        AgreesKeeps(w, s, w', d);
      }
    }
  }

  /** However rollups, ingests and prunes are interleaved, statement by statement, and wherever a
      rollup is cut off: a clean day holds what everything accepted for it amounts to unless an
      ingest has inserted on it and not marked it; without one, whatever form the reader takes the
      day from, pruned or not, it shows that, and the counts themselves exactly when no bucket of the day
      is named like an inherited member. */
  lemma CleanMeansExact(ws: seq<Shared>, steps: seq<Statement>, i: nat, d: Day)
    requires OneRollupADay(ws, steps) && i < |ws|
    ensures Clean(ws[i].tables, d) ==> ws[i].tables.daily[d].counts == Recorded(On(ws[i].accepted, d)) || Owed(ws[i], d)
    ensures !Owed(ws[i], d) ==>
      && ReadDay(ws[i].tables, d) == DayShown(On(ws[i].accepted, d), Clean(ws[i].tables, d))
      && (ReadDay(ws[i].tables, d) == Exactly(Measure(On(ws[i].accepted, d)))
          <==> forall c: Column :: Ordinary(On(ws[i].accepted, d), c))
  {
    TraceHolds(ws, steps, i);
    assert Agrees(ws[i], d) && Held(ws[i], d);
    hide Recorded, On, Ordinary, Exactly;
    DayIsExactIff(On(ws[i].accepted, d), Clean(ws[i].tables, d));
  }

  // ---- the page rows ----

  ghost predicate PagingOn(w: Shared, d: Day) {
    exists r :: (r, d) in w.tasks && w.tasks[(r, d)].Paging?
  }

  ghost predicate PagesAgree(w: Shared, d: Day) {
    Clean(w.tables, d) && !PagingOn(w, d) ==> PagesAre(w.tables, d, On(w.accepted, d)) || Owed(w, d)
  }

  /** Every page row is of a day with a row and a path seen that day. */
  ghost predicate PagesSeen(w: Shared, d: Day) {
    forall p :: (d, p) in w.tables.pages ==> d in w.tables.daily && p in Paths(On(w.accepted, d))
  }

  ghost predicate PagingHolds(w: Shared, d: Day, t: Task) {
    t.Paging? && t.views.Some? ==>
      && (forall p :: p in t.views.value ==> p in Paths(On(w.accepted, d)))
      && (forall p :: p in t.written ==>
           (d, p) in w.tables.pages && p in t.views.value && w.tables.pages[(d, p)] == t.views.value[p])
      && (Clean(w.tables, d) ==> t.views.value == multiset(Paths(On(w.accepted, d))) || Owed(w, d))
  }

  ghost predicate PagesHold(w: Shared) {
    && (forall d :: PagesAgree(w, d) && PagesSeen(w, d))
    && (forall k :: k in w.tasks ==> PagingHolds(w, k.1, w.tasks[k]) && (w.tasks[k].Paging? ==> k.1 in w.tables.daily))
  }

  /** The daily row is written and its page rows are not all: here a rollup must not be cut off. */
  ghost predicate NotCutMidDay(w: Shared, s: Statement) {
    s.CutOff? && (s.id, s.day) in w.tasks ==> w.tasks[(s.id, s.day)].Reading?
  }

  lemma PathsGrow(w: Shared, p: Id, rows: seq<Event>, w': Shared, d: Day, path: string)
    requires Does(w, Insert(p, rows), w') && path in Paths(On(w.accepted, d))
    ensures path in Paths(On(w'.accepted, d))
  {
    OnAppend(w.accepted, rows, d);
    SelectAppend(On(w.accepted, d), On(rows, d), PathOf());
  }

  lemma RowStays(w: Shared, s: Statement, w': Shared, d: Day)
    requires Does(w, s, w') && d in w.tables.daily
    ensures d in w'.tables.daily
  {
    hide Recorded, On, Assembled, Paths;
  }

  lemma SeenKeeps(w: Shared, s: Statement, w': Shared, d: Day)
    requires Does(w, s, w') && PagesHold(w)
    ensures PagesSeen(w', d)
  {
    hide Recorded, On, Assembled, PagesAgree, Marked;
    assert PagesSeen(w, d);
    forall p | (d, p) in w'.tables.pages ensures d in w'.tables.daily && p in Paths(On(w'.accepted, d)) {
      RowStays(w, s, w', d);
      if s.Insert? {
        PathsGrow(w, s.id, s.rows, w', d, p);
      } else if s.WritePage? && s.day == d {
        assert PagingHolds(w, d, w.tasks[(s.id, d)]);
      }
    }
  }

  /** Writing every path of the day makes its page rows right. */
  lemma FinishedPages(w: Shared, r: Id, d: Day, w': Shared)
    requires Does(w, Finish(r, d), w') && PagesHold(w) && Clean(w.tables, d) && !Owed(w, d)
    ensures PagesAre(w'.tables, d, On(w'.accepted, d))
  {
    hide Recorded, On, Assembled, PagesAgree;
    assert PagesSeen(w, d) && PagingHolds(w, d, w.tasks[(r, d)]);
    var all := Paths(On(w.accepted, d));
    var views := w.tasks[(r, d)].views.value;
    assert forall p :: p in views <==> p in all;
  }

  /** A statement about other days leaves `d` and its page rows alone. */
  lemma OtherPages(w: Shared, s: Statement, w': Shared, d: Day)
    requires Does(w, s, w') && (s.WritePage? ==> s.day != d)
    requires On(w'.accepted, d) == On(w.accepted, d) && PagesAre(w.tables, d, On(w.accepted, d))
    ensures PagesAre(w'.tables, d, On(w'.accepted, d))
  {
    hide Recorded, On, Assembled, Paths, Marked;
  }

  /** A step that neither writes the day, marks it, nor ends a rollup of it. */
  ghost predicate Elsewhere(w: Shared, s: Statement, d: Day) {
    match s
    case Mark(_, days) => d !in days
    case WriteDaily(_, day) => day != d
    case WritePage(_, day, _) => day != d
    case Finish(_, day) => day != d
    case _ => true
  }

  lemma ElsewhereKeeps(w: Shared, s: Statement, w': Shared, d: Day)
    requires Does(w, s, w') && Elsewhere(w, s, d) && NotCutMidDay(w, s)
    ensures Clean(w'.tables, d) <==> Clean(w.tables, d)
    ensures PagingOn(w, d) ==> PagingOn(w', d)
  {
    hide Recorded, On, Assembled, Paths;
    if PagingOn(w, d) {
      var r :| (r, d) in w.tasks && w.tasks[(r, d)].Paging?;
      assert (r, d) in w'.tasks && w'.tasks[(r, d)].Paging?;
    }
  }

  lemma PagesAgreeKeeps(w: Shared, s: Statement, w': Shared, d: Day)
    requires Does(w, s, w') && NotCutMidDay(w, s) && TokensGuard(w) && PagesHold(w)
    ensures PagesAgree(w', d)
  {
    hide Recorded, On, Assembled, Paths, PagesAre, Marked, PagingHolds;
    assert PagesAgree(w, d);
    if Clean(w'.tables, d) && !PagingOn(w', d) && !Owed(w', d) {
      if s.Finish? && s.day == d {
        OwedOtherwise(w, s, w', d);
        FinishedPages(w, s.id, d, w');
      } else {
        QuietHere(w, s, w', d);
        ElsewhereKeeps(w, s, w', d);
        OtherPages(w, s, w', d);
      }
    }
  }

  /** If `d` ends up clean, unowed and not being paged, the step did nothing to it. */
  lemma QuietHere(w: Shared, s: Statement, w': Shared, d: Day)
    requires Does(w, s, w') && TokensGuard(w) && !(s.Finish? && s.day == d)
    requires Clean(w'.tables, d) && !PagingOn(w', d) && !Owed(w', d)
    ensures Elsewhere(w, s, d) && On(w'.accepted, d) == On(w.accepted, d) && !Owed(w, d)
  {
    hide Recorded, On, Assembled, Paths;
    if s.Insert? {
      OwedAfterInsert(w, s.id, s.rows, w', d);
    } else if s.Mark? {
      assert RowHolds(w, d);
      if d !in s.days {
        OwedAfterMark(w, s.id, s.days, w', d);
      }
    } else {
      OwedOtherwise(w, s, w', d);
      AcceptedStays(w, s, w');
      if (s.WriteDaily? || s.WritePage?) && s.day == d {
        NowPaging(w, s, w');
      }
    }
  }

  lemma NowPaging(w: Shared, s: Statement, w': Shared)
    requires Does(w, s, w') && (s.WriteDaily? || s.WritePage?)
    ensures PagingOn(w', s.day)
  {
    hide Recorded, On, Assembled, Paths;
    assert (s.id, s.day) in w'.tasks && w'.tasks[(s.id, s.day)].Paging?;
  }

  lemma PagingKeeps(w: Shared, s: Statement, w': Shared, k: (Id, Day))
    requires Does(w, s, w') && TokensGuard(w) && Alone(w) && PagesHold(w) && k in w'.tasks
    ensures PagingHolds(w', k.1, w'.tasks[k])
  {
    hide Recorded, On, Assembled, PagesAgree, PagesSeen, PagingHolds;
    assert (k.0, k.1) == k;
    if s.WritePage? && k == (s.id, s.day) {
      PageWritten(w, s.id, s.day, s.path, w');
    } else if k in w.tasks && w'.tasks[k] == w.tasks[k] {
      if (s.WritePage? || s.WriteDaily?) && s.day == k.1 {
        SameTask(w, s, k);
      }
      PagingStays(w, s, w', k.1, w.tasks[k]);
    } else {
      PagingStarts(w, s, w', k);
    }
  }

  lemma PageWritten(w: Shared, r: Id, d: Day, path: string, w': Shared)
    requires Does(w, WritePage(r, d, path), w') && PagingHolds(w, d, w.tasks[(r, d)])
    ensures PagingHolds(w', d, w'.tasks[(r, d)])
  {
    hide Recorded, On, Assembled, Paths;
    OwedOtherwise(w, WritePage(r, d, path), w', d);
  }

  lemma PagingStarts(w: Shared, s: Statement, w': Shared, k: (Id, Day))
    requires Does(w, s, w') && !s.WritePage? && k in w'.tasks && (k in w.tasks ==> w.tasks[k] != w'.tasks[k])
    requires TokensGuard(w)
    ensures PagingHolds(w', k.1, w'.tasks[k])
  {
    hide Recorded, On, Assembled, Paths, Marked;
    if s.ReadPaths? {
      assert k == (s.id, s.day);
      TaskIsWhole(w, k);
    }
  }

  lemma SameTask(w: Shared, s: Statement, k: (Id, Day))
    requires Alone(w) && Enabled(w, s) && (s.WritePage? || s.WriteDaily?) && k in w.tasks && s.day == k.1
    ensures k == (s.id, s.day)
  {
    assert (s.id, s.day) in w.tasks;
  }

  lemma PagingStays(w: Shared, s: Statement, w': Shared, d: Day, t: Task)
    requires Does(w, s, w') && TokensGuard(w) && PagingHolds(w, d, t)
    requires (s.WritePage? || s.WriteDaily?) ==> s.day != d
    ensures PagingHolds(w', d, t)
  {
    hide Recorded, On, Assembled;
    if t.Paging? && t.views.Some? {
      if s.Insert? {
        PagingInsert(w, s.id, s.rows, w', d, t);
      } else if s.Mark? {
        assert RowHolds(w, d);
        if d !in s.days {
          OwedAfterMark(w, s.id, s.days, w', d);
        }
      } else {
        OwedOtherwise(w, s, w', d);
        AcceptedStays(w, s, w');
      }
    }
  }

  lemma PagingInsert(w: Shared, p: Id, rows: seq<Event>, w': Shared, d: Day, t: Task)
    requires Does(w, Insert(p, rows), w') && PagingHolds(w, d, t) && t.Paging? && t.views.Some?
    ensures PagingHolds(w', d, t)
  {
    hide Recorded, On, Paths;
    forall q | q in t.views.value ensures q in Paths(On(w'.accepted, d)) {
      PathsGrow(w, p, rows, w', d, q);
    }
    OwedAfterInsert(w, p, rows, w', d);
  }

  lemma PagesKeep(w: Shared, s: Statement, w': Shared)
    requires Does(w, s, w') && NotCutMidDay(w, s) && TokensGuard(w) && Alone(w) && PagesHold(w)
    ensures PagesHold(w')
  {
    hide Does, PagesAgree, PagesSeen, PagingHolds;
    forall d ensures PagesAgree(w', d) && PagesSeen(w', d) {
      PagesAgreeKeeps(w, s, w', d);
      SeenKeeps(w, s, w', d);
    }
    forall k | k in w'.tasks ensures PagingHolds(w', k.1, w'.tasks[k]) && (w'.tasks[k].Paging? ==> k.1 in w'.tables.daily) {
      PagingKeeps(w, s, w', k);
      if w'.tasks[k].Paging? {
        PagingHasRow(w, s, w', k);
      }
    }
  }

  lemma PagingHasRow(w: Shared, s: Statement, w': Shared, k: (Id, Day))
    requires Does(w, s, w') && PagesHold(w) && k in w'.tasks && w'.tasks[k].Paging?
    ensures k.1 in w'.tables.daily
  {
    hide Recorded, On, Assembled, Paths, Marked, PagesAgree, PagesSeen, PagingHolds;
    assert (k.0, k.1) == k;
    if k in w.tasks && w.tasks[k].Paging? {
      RowStays(w, s, w', k.1);
    }
  }

  lemma {:induction false} PagesTraceHolds(ws: seq<Shared>, steps: seq<Statement>, i: nat)
    requires OneRollupADay(ws, steps) && i < |ws|
    requires PagesHold(ws[0]) && forall j :: 0 <= j < |steps| ==> NotCutMidDay(ws[j], steps[j])
    ensures PagesHold(ws[i])
  {
    if i == 0 {
    } else {
      PagesTraceHolds(ws, steps, i - 1);
      TraceHolds(ws, steps, i - 1);
      assert ws[i - 1] in ws;
      hide Does, TokensGuard, Alone, PagesHold;
      PagesKeep(ws[i - 1], steps[i - 1], ws[i]);
    }
  }

  /** When no rollup is cut off between a day's row and its last page row, the page rows of a clean
      day no rollup is still writing are exactly its pageviews by path, unless a mark is owed; and
      the page reader is exact on every such day, clean, flagged, unrolled or pruned. */
  lemma CleanPagesAreExact(ws: seq<Shared>, steps: seq<Statement>, i: nat, d: Day, p: string)
    requires OneRollupADay(ws, steps) && i < |ws|
    requires PagesHold(ws[0]) && forall j :: 0 <= j < |steps| ==> NotCutMidDay(ws[j], steps[j])
    requires !PagingOn(ws[i], d) && !Owed(ws[i], d)
    ensures Clean(ws[i].tables, d) ==> PagesAre(ws[i].tables, d, On(ws[i].accepted, d))
    ensures ReadViews(ws[i].tables, d, p) == multiset(Paths(On(ws[i].accepted, d)))[p]
  {
    PagesTraceHolds(ws, steps, i);
    TraceHolds(ws, steps, i);
    assert PagesAgree(ws[i], d) && PagesSeen(ws[i], d) && Held(ws[i], d);
    RightPagesRead(ws[i].tables, d, On(ws[i].accepted, d), p);
  }

  // ---- where a rollup may be cut off ----

  /** Every path of the day has its row, with the right count. */
  ghost predicate AllPagesWritten(w: Shared, d: Day) {
    var all := Paths(On(w.accepted, d));
    forall p :: p in all ==> (d, p) in w.tables.pages && w.tables.pages[(d, p)] == multiset(all)[p]
  }

  /** Cutting a rollup off among a clean day's page rows leaves them right exactly when every row it
      meant to write is there already with its count, written just now or left from an earlier roll. */
  lemma CutOffIff(w: Shared, r: Id, d: Day, w': Shared)
    requires Does(w, CutOff(r, d), w') && Alone(w) && PagesHold(w) && Clean(w.tables, d) && !Owed(w, d)
    requires w.tasks[(r, d)].Paging? && w.tasks[(r, d)].views.Some?
    ensures PagesAgree(w', d) <==>
      forall p :: p in w.tasks[(r, d)].views.value ==>
        (d, p) in w.tables.pages && w.tables.pages[(d, p)] == w.tasks[(r, d)].views.value[p]
  {
    hide Recorded, On;
    assert PagingHolds(w, d, w.tasks[(r, d)]);
    CutLeaves(w, r, d, w');
    assert AllPagesWritten(w, d) <==>
      forall p :: p in w.tasks[(r, d)].views.value ==>
        (d, p) in w.tables.pages && w.tables.pages[(d, p)] == w.tasks[(r, d)].views.value[p];
  }

  /** Cut off before it has read the paths: exactly when the rows already there are the day's. On a
      day that has none yet, that is a day without pageviews. */
  lemma CutBeforePathsIff(w: Shared, r: Id, d: Day, w': Shared)
    requires Does(w, CutOff(r, d), w') && Alone(w) && PagesHold(w) && Clean(w.tables, d) && !Owed(w, d)
    requires w.tasks[(r, d)].Paging? && w.tasks[(r, d)].views.None?
    ensures PagesAgree(w', d) <==> AllPagesWritten(w, d)
    ensures (forall p :: (d, p) !in w.tables.pages) ==> (PagesAgree(w', d) <==> Paths(On(w.accepted, d)) == [])
  {
    hide Recorded, On;
    CutLeaves(w, r, d, w');
    var all := Paths(On(w.accepted, d));
    if all != [] {
      assert all[0] in all;
    }
  }

  lemma CutLeaves(w: Shared, r: Id, d: Day, w': Shared)
    requires Does(w, CutOff(r, d), w') && Alone(w) && PagesHold(w) && Clean(w.tables, d) && !Owed(w, d)
    requires w.tasks[(r, d)].Paging?
    ensures PagesAgree(w', d) <==> AllPagesWritten(w, d)
  {
    hide Recorded, On;
    assert PagesSeen(w, d);
    OwedOtherwise(w, CutOff(r, d), w', d);
    assert PagesAre(w'.tables, d, On(w'.accepted, d)) <==> AllPagesWritten(w, d) by {
      PagesAreIff(w, d);
    }
  }

  lemma PagesAreIff(w: Shared, d: Day)
    requires AllPagesWritten(w, d) ==> PagesSeen(w, d)
    ensures PagesAre(w.tables, d, On(w.accepted, d)) <==> AllPagesWritten(w, d)
  {
    hide Recorded, On;
  }

  /** What the page reader makes of a clean day with its raw rows, cut off anywhere: exact if and only
      if it has every row, or none at all. */
  lemma CutOffReadsIff(w: Shared, d: Day)
    requires Clean(w.tables, d) && PagesSeen(w, d) && Whole(w, d)
    ensures (forall p :: ReadViews(w.tables, d, p) == multiset(Paths(On(w.accepted, d)))[p]) <==>
      AllPagesWritten(w, d) || forall p :: (d, p) !in w.tables.pages
  {
    hide Recorded, On;
    var all := Paths(On(w.accepted, d));
    if p :| (d, p) in w.tables.pages {
      assert (d, p).0 == d && UsesPages(w.tables, d);
      forall q ensures ReadViews(w.tables, d, q) == if (d, q) in w.tables.pages then w.tables.pages[(d, q)] else 0 {
      }
    } else {
      assert !UsesPages(w.tables, d) by {
        forall k | k in w.tables.pages ensures k.0 != d {
          assert (k.0, k.1) == k;
        }
      }
    }
    if forall p :: ReadViews(w.tables, d, p) == multiset(all)[p] {
      forall p | p in all && UsesPages(w.tables, d)
        ensures (d, p) in w.tables.pages && w.tables.pages[(d, p)] == multiset(all)[p]
      {
        assert ReadViews(w.tables, d, p) == multiset(all)[p] > 0;
      }
    }
  }
}
