/** Interleavings the guarantees of `RollupRace` do not survive: each breaks one hypothesis. */
module RaceWitnesses {
  import opened Options
  import opened Queries
  import opened Metrics
  import opened Breakdowns
  import opened Rollup
  import opened RollupRuns
  import opened RollupRace

  ghost predicate Leads(w: Shared, steps: seq<Statement>, w': Shared)
    decreases |steps|
  {
    if steps == [] then w == w'
    else exists m :: Does(w, steps[0], m) && Leads(m, steps[1..], w')
  }

  lemma Then(w: Shared, s: Statement, m: Shared, rest: seq<Statement>, w': Shared)
    requires Does(w, s, m) && Leads(m, rest, w')
    ensures Leads(w, [s] + rest, w')
  {
    assert ([s] + rest)[1..] == rest;
  }

  lemma {:induction false} Join(w: Shared, a: seq<Statement>, m: Shared, b: seq<Statement>, w': Shared)
    requires Leads(w, a, m) && Leads(m, b, w')
    ensures Leads(w, a + b, w')
    decreases |a|
  {
    if a == [] {
      assert a + b == b;
    } else {
      var next :| Does(w, a[0], next) && Leads(next, a[1..], m);
      Join(next, a[1..], m, b, w');
      assert (a + b)[1..] == a[1..] + b;
    }
  }

  lemma One(w: Shared, s: Statement, w': Shared)
    requires Does(w, s, w')
    ensures Leads(w, [s], w')
  {
    assert Leads(w', [], w');
    Then(w, s, w', [], w');
    assert [s] + [] == [s];
  }

  // ---- one rollup's reads of a day, undisturbed ----

  function Reads(r: Id, d: Day): seq<Statement> {
    [ReadToken(r, d), ReadPass(r, d, Devices), ReadPass(r, d, Sources), ReadPass(r, d, Countries),
     ReadPass(r, d, Sessions), ReadPass(r, d, Engagements)]
  }

  function All(s: seq<Event>): map<Pass, seq<Event>> {
    map[Devices := s, Sources := s, Countries := s, Sessions := s, Engagements := s]
  }

  function HasRead(w: Shared, r: Id, d: Day, got: map<Pass, seq<Event>>): Shared {
    w.(tasks := w.tasks[(r, d) := Reading(RollupRace.Token(w.tables.daily, d), got)])
  }

  lemma OnePass(w: Shared, r: Id, d: Day, got: map<Pass, seq<Event>>, pass: Pass)
    ensures Leads(HasRead(w, r, d, got), [ReadPass(r, d, pass)], HasRead(w, r, d, got[pass := On(w.tables.events, d)]))
  {
    hide On;
    var w1, w2 := HasRead(w, r, d, got), HasRead(w, r, d, got[pass := On(w.tables.events, d)]);
    assert w2.tasks == w1.tasks[(r, d) := w1.tasks[(r, d)].(got := got[pass := On(w.tables.events, d)])];
    One(w1, ReadPass(r, d, pass), w2);
  }

  lemma AllReads(w: Shared, r: Id, d: Day)
    requires (r, d) !in w.tasks
    ensures Leads(w, Reads(r, d), HasRead(w, r, d, All(On(w.tables.events, d))))
  {
    hide On, Leads, HasRead;
    var s := On(w.tables.events, d);
    var g1 := map[Devices := s];
    var g2 := g1[Sources := s];
    var g3 := g2[Countries := s];
    var g4 := g3[Sessions := s];
    FirstRead(w, r, d);
    OnePass(w, r, d, map[], Devices);
    OnePass(w, r, d, g1, Sources);
    OnePass(w, r, d, g2, Countries);
    OnePass(w, r, d, g3, Sessions);
    OnePass(w, r, d, g4, Engagements);
    assert map[][Devices := s] == g1;
    assert g4[Engagements := s] == All(s);
    var a := [ReadToken(r, d)];
    var b := a + [ReadPass(r, d, Devices)];
    var c := b + [ReadPass(r, d, Sources)];
    var e := c + [ReadPass(r, d, Countries)];
    var f := e + [ReadPass(r, d, Sessions)];
    Join(w, a, HasRead(w, r, d, map[]), [ReadPass(r, d, Devices)], HasRead(w, r, d, g1));
    Join(w, b, HasRead(w, r, d, g1), [ReadPass(r, d, Sources)], HasRead(w, r, d, g2));
    Join(w, c, HasRead(w, r, d, g2), [ReadPass(r, d, Countries)], HasRead(w, r, d, g3));
    Join(w, e, HasRead(w, r, d, g3), [ReadPass(r, d, Sessions)], HasRead(w, r, d, g4));
    Join(w, f, HasRead(w, r, d, g4), [ReadPass(r, d, Engagements)], HasRead(w, r, d, All(s)));
    assert f + [ReadPass(r, d, Engagements)] == Reads(r, d);
  }

  lemma FirstRead(w: Shared, r: Id, d: Day)
    requires (r, d) !in w.tasks
    ensures Leads(w, [ReadToken(r, d)], HasRead(w, r, d, map[]))
  {
    One(w, ReadToken(r, d), HasRead(w, r, d, map[]));
  }

  // ---- the ingest of one event ----

  const INGEST: Id := 9

  predicate View(e: Event, d: Day) {
    e.kind == Pageview && e.day == d
  }

  lemma SelectOne<E, K>(e: E, f: E -> Option<K>)
    requires f(e).Some?
    ensures Select([e], f) == [f(e).value]
  {
    assert [e] + [] == [e];
    SelectCons(e, [], f);
  }

  lemma SelectTwo<E, K>(a: E, b: E, f: E -> Option<K>)
    requires f(a).Some? && f(b).Some?
    ensures Select([a, b], f) == [f(a).value, f(b).value]
  {
    assert [a, b] == [a] + [b];
    SelectAppend([a], [b], f);
    SelectOne(a, f);
    SelectOne(b, f);
    hide Select;
  }

  lemma ViewOf(e: Event, d: Day)
    requires View(e, d)
    ensures Paths([e]) == [e.path]
  {
    SelectOne(e, PathOf());
    hide Select;
  }

  lemma ViewsOf(d: Day, e: Event, late: Event)
    requires View(e, d) && View(late, d)
    ensures On([e], d) == [e] && On([e] + [late], d) == [e, late]
    ensures Recorded([e]).pageviews == 1 && Recorded([e, late]).pageviews == 2 && Recorded([]).pageviews == 0
    ensures Paths([e, late]) == [e.path, late.path]
  {
    assert [e] + [late] == [e, late];
    hide Select;
    SelectOne(e, OnDay(d));
    SelectTwo(e, late, OnDay(d));
    SelectTwo(e, late, PathOf());
    MeasureViews(d, e, late);
    hide Recorded;
  }

  lemma MeasureViews(d: Day, e: Event, late: Event)
    requires View(e, d) && View(late, d)
    ensures Recorded([e]).pageviews == 1 && Recorded([e, late]).pageviews == 2 && Recorded([]).pageviews == 0
  {
    var none: seq<string> := [];
    assert Select([], BucketOf(Device)) == none;
    SelectOne(e, BucketOf(Device));
    SelectTwo(e, late, BucketOf(Device));
    hide Select, SumDuration, SumScroll, Members, Singles;
  }

  function Inserted(w: Shared, late: Event): Shared {
    w.(tables := w.tables.(events := w.tables.events + [late]), accepted := w.accepted + [late],
       owes := OwedAfter(w, INGEST, [late]))
  }

  /** The mark of a finished day. */
  function MarkedPast(w: Shared, d: Day): Shared {
    var counts := if d in w.tables.daily then w.tables.daily[d].counts else EMPTY_DAY;
    w.(tables := w.tables.(daily := w.tables.daily[d := DailyRow(counts, true, Some(w.nextToken))]),
       nextToken := w.nextToken + 1, owes := w.owes[INGEST := {}])
  }

  lemma InsertOne(w: Shared, late: Event)
    ensures Leads(w, [Insert(INGEST, [late])], Inserted(w, late))
  {
    hide Recorded, On;
    One(w, Insert(INGEST, [late]), Inserted(w, late));
  }

  lemma MarkOne(w: Shared, d: Day)
    requires INGEST in w.owes && w.owes[INGEST] == {d} && d < w.today
    ensures Leads(w, [Mark(INGEST, {d})], MarkedPast(w, d))
  {
    hide Recorded, On;
    assert w.owes[INGEST] - {d} == {};
    One(w, Mark(INGEST, {d}), MarkedPast(w, d));
  }

  function Written(w: Shared, r: Id, d: Day, s: seq<Event>, seen: Option<Token>): Shared {
    w.(tables := w.tables.(daily := w.tables.daily[d := Upserted(w.tables.daily, d, Recorded(s), seen)]),
       tasks := w.tasks[(r, d) := Paging(None, {})])
  }

  lemma WriteAll(w: Shared, r: Id, d: Day, s: seq<Event>, seen: Option<Token>)
    requires (r, d) in w.tasks && w.tasks[(r, d)] == Reading(seen, All(s))
    ensures Leads(w, [WriteDaily(r, d)], Written(w, r, d, s, seen))
  {
    hide Recorded, On;
    forall p: Pass ensures p in All(s) && All(s)[p] == s {
      match p
      case Devices =>
      case Sources =>
      case Countries =>
      case Sessions =>
      case Engagements =>
    }
    AssembledSame(All(s), s);
    One(w, WriteDaily(r, d), Written(w, r, d, s, seen));
  }

  function Fresh(events: seq<Event>, today: Day): Shared {
    Shared(Tables(events, map[], map[]), events, 0, today, map[], map[], {})
  }

  // ---- two rollups and a late event ----

  function Overlap(d: Day, late: Event): seq<Statement> {
    Reads(1, d) + [Insert(INGEST, [late])] + [Mark(INGEST, {d})] + Reads(2, d) + [WriteDaily(2, d)] + [WriteDaily(1, d)]
  }

  /** Two rollups of one finished day with a late event between their reads: the second clears the
      flag, and the first then writes its older counts over a clean day, which no mark is owed on
      and no later run will look at. */
  lemma TwoRollupsLeaveStaleCounts(d: Day, e: Event, late: Event) returns (w: Shared, w': Shared)
    requires View(e, d) && View(late, d)
    ensures Settled(w) && d < w.today && Leads(w, Overlap(d, late), w')
    ensures Clean(w'.tables, d) && !Owed(w', d) && !Agrees(w', d)
    ensures w'.tables.daily[d].counts.pageviews == 1 && Recorded(On(w'.accepted, d)).pageviews == 2
  {
    hide Recorded, On, Leads;
    ViewsOf(d, e, late);
    w := Fresh([e], d + 1);
    var w1 := HasRead(w, 1, d, All([e]));
    var w2 := Inserted(w1, late);
    var w3 := MarkedPast(w2, d);
    var w4 := HasRead(w3, 2, d, All([e, late]));
    var w5 := Written(w4, 2, d, [e, late], Some(0));
    w' := Written(w5, 1, d, [e], None);
    AllReads(w, 1, d);
    InsertOne(w1, late);
    MarkOne(w2, d);
    AllReads(w3, 2, d);
    WriteAll(w4, 2, d, [e, late], Some(0));
    WriteAll(w5, 1, d, [e], None);
    var a := Reads(1, d);
    var b := a + [Insert(INGEST, [late])];
    var c := b + [Mark(INGEST, {d})];
    var f := c + Reads(2, d);
    Join(w, a, w1, [Insert(INGEST, [late])], w2);
    Join(w, b, w2, [Mark(INGEST, {d})], w3);
    Join(w, c, w3, Reads(2, d), w4);
    Join(w, f, w4, [WriteDaily(2, d)], w5);
    Join(w, f + [WriteDaily(2, d)], w5, [WriteDaily(1, d)], w');
  }

  // ---- rolling the unfinished day ----

  function RollToday(d: Day, late: Event): seq<Statement> {
    Reads(1, d) + [Insert(INGEST, [late])] + [Mark(INGEST, {d})] + [WriteDaily(1, d)]
  }

  function MarkedToday(w: Shared): Shared {
    w.(owes := w.owes[INGEST := {}])
  }

  lemma MarkTodayOnly(w: Shared, d: Day)
    requires INGEST in w.owes && w.owes[INGEST] == {d} && d == w.today && d !in w.tables.daily
    ensures Leads(w, [Mark(INGEST, {d})], MarkedToday(w))
  {
    hide Recorded, On;
    assert w.owes[INGEST] - {d} == {};
    One(w, Mark(INGEST, {d}), MarkedToday(w));
  }

  /** A single rollup of today can miss an event for good: the mark of today only updates a row,
      and there is none yet. */
  lemma RollingTodayMissesAnEvent(d: Day, e: Event, late: Event) returns (w: Shared, w': Shared)
    requires View(e, d) && View(late, d)
    ensures Settled(w) && d == w.today && d !in w.tables.daily && Leads(w, RollToday(d, late), w')
    ensures Clean(w'.tables, d) && !Owed(w', d) && !Agrees(w', d)
    ensures w'.tables.daily[d].counts.pageviews == 1 && Recorded(On(w'.accepted, d)).pageviews == 2
  {
    hide Recorded, On, Leads;
    ViewsOf(d, e, late);
    w := Fresh([e], d);
    var w1 := HasRead(w, 1, d, All([e]));
    var w2 := Inserted(w1, late);
    var w3 := MarkedToday(w2);
    w' := Written(w3, 1, d, [e], None);
    AllReads(w, 1, d);
    InsertOne(w1, late);
    MarkTodayOnly(w2, d);
    WriteAll(w3, 1, d, [e], None);
    var a := Reads(1, d);
    var b := a + [Insert(INGEST, [late])];
    var c := b + [Mark(INGEST, {d})];
    Join(w, a, w1, [Insert(INGEST, [late])], w2);
    Join(w, b, w2, [Mark(INGEST, {d})], w3);
    Join(w, c, w3, [WriteDaily(1, d)], w');
  }

  // ---- prunes ----

  /** Rolled with one view, its page row written, and past the grace period. */
  function Rolled1(e: Event, d: Day): Shared {
    Fresh([e], d + 10).(tables := Tables([e], map[d := DailyRow(Recorded([e]), false, None)], map[(d, e.path) := 1]))
  }

  lemma Rolled1Settled(e: Event, late: Event, d: Day)
    requires View(e, d) && View(late, d)
    ensures Settled(Rolled1(e, d)) && ReadDay(Rolled1(e, d).tables, d).pageviews == 1
  {
    hide Settled, ReadDay;
    Rolled1Rests(e, d);
    Rolled1Reads(e, late, d);
  }

  lemma Rolled1Rests(e: Event, d: Day)
    requires View(e, d)
    ensures Settled(Rolled1(e, d))
  {
    SelectOne(e, OnDay(d));
    hide Recorded, Select;
    var w := Rolled1(e, d);
    assert On([e], d) == [e];
    hide On;
    forall x ensures Agrees(w, x) && RowHolds(w, x) && Held(w, x) {
      assert Whole(w, x);
    }
  }

  lemma Rolled1Reads(e: Event, late: Event, d: Day)
    requires View(e, d) && View(late, d)
    ensures ReadDay(Rolled1(e, d).tables, d).pageviews == 1
  {
    ViewsOf(d, e, late);
    hide Recorded, On, AsCounts, Paths, Select;
  }

  function Emptied(w: Shared, d: Day): Shared {
    w.(tables := w.tables.(events := []), pruning := w.pruning - {(7, d)})
  }

  lemma DeleteAll(w: Shared, d: Day)
    requires (7, d) in w.pruning && forall x :: x in w.tables.events ==> x.day == d
    ensures Leads(w, [DeleteDay(7, d)], Emptied(w, d))
  {
    hide Recorded, On;
    SelectNothing(w.tables.events, NotOn(d));
    One(w, DeleteDay(7, d), Emptied(w, d));
  }

  function Chosen(w: Shared, d: Day): Shared {
    w.(pruning := w.pruning + {(7, d)})
  }

  lemma Choose(w: Shared, d: Day)
    requires Clean(w.tables, d) && d < w.today - (LATE_EVENT_DAYS + 1)
    ensures Leads(w, [ReadClean(7, d)], Chosen(w, d))
  {
    hide Recorded, On;
    One(w, ReadClean(7, d), Chosen(w, d));
  }

  lemma NoEvents(d: Day)
    ensures On([], d) == [] && Paths([]) == []
  {
  }

  function PruneAcross(d: Day, late: Event): seq<Statement> {
    [ReadClean(7, d)] + [Insert(INGEST, [late])] + [Mark(INGEST, {d})] + [DeleteDay(7, d)]
  }

  /** A prune that read a day as clean before a late event flagged it deletes the very rows the
      flag says to recompute from: the day reads as empty, though two views were accepted. */
  lemma PruneAcrossAnIngestLosesTheDay(d: Day, e: Event, late: Event) returns (w: Shared, w': Shared)
    requires View(e, d) && View(late, d)
    ensures Settled(w) && Leads(w, PruneAcross(d, late), w')
    ensures Dirty(w'.tables, d) && !Raw(w'.tables, d) && ReadDay(w'.tables, d).pageviews == 0
    ensures ReadDay(w.tables, d).pageviews == 1
  {
    hide Leads, Recorded, On, Settled, Paths, Select;
    ViewsOf(d, e, late);
    Rolled1Settled(e, late, d);
    NoEvents(d);
    w := Rolled1(e, d);
    var w1 := Chosen(w, d);
    Choose(w, d);
    var w2 := Inserted(w1, late);
    InsertOne(w1, late);
    var w3 := MarkedPast(w2, d);
    MarkOne(w2, d);
    w' := Emptied(w3, d);
    DeleteAll(w3, d);
    var a := [ReadClean(7, d)];
    var b := a + [Insert(INGEST, [late])];
    var c := b + [Mark(INGEST, {d})];
    Join(w, a, w1, [Insert(INGEST, [late])], w2);
    Join(w, b, w2, [Mark(INGEST, {d})], w3);
    Join(w, c, w3, [DeleteDay(7, d)], w');
  }

  function PruneOver(d: Day): seq<Statement> {
    Reads(1, d) + [WriteDaily(1, d)] + [ReadClean(7, d)] + [DeleteDay(7, d)] + [ReadPaths(1, d)] + [Finish(1, d)]
  }

  /** A prune between a rollup's daily row and its read of the paths, with no ingest at all: the
      rollup finishes, writing no page row, and the day's views by path are gone. */
  lemma PruneOverARollupLosesPages(d: Day, e: Event) returns (w: Shared, w': Shared)
    requires View(e, d)
    ensures Settled(w) && Leads(w, PruneOver(d), w')
    ensures w'.tasks == map[] && Clean(w'.tables, d) && !Owed(w', d)
    ensures ReadViews(w.tables, d, e.path) == 1 && ReadViews(w'.tables, d, e.path) == 0
  {
    hide Leads, Recorded, On, Paths, Select;
    ViewsOf(d, e, e);
    ViewOf(e, d);
    NoEvents(d);
    w := Fresh([e], d + 10);
    var w1 := HasRead(w, 1, d, All([e]));
    AllReads(w, 1, d);
    var w2 := Written(w1, 1, d, [e], None);
    WriteAll(w1, 1, d, [e], None);
    var w3 := Chosen(w2, d);
    Choose(w2, d);
    var w4 := Emptied(w3, d);
    DeleteAll(w3, d);
    var w5 := w4.(tasks := w4.tasks[(1, d) := Paging(Some(multiset{}), {})]);
    One(w4, ReadPaths(1, d), w5);
    w' := w5.(tasks := w5.tasks - {(1, d)});
    One(w5, Finish(1, d), w');
    var a := Reads(1, d);
    var b := a + [WriteDaily(1, d)];
    var c := b + [ReadClean(7, d)];
    var f := c + [DeleteDay(7, d)];
    Join(w, a, w1, [WriteDaily(1, d)], w2);
    Join(w, b, w2, [ReadClean(7, d)], w3);
    Join(w, c, w3, [DeleteDay(7, d)], w4);
    Join(w, f, w4, [ReadPaths(1, d)], w5);
    Join(w, f + [ReadPaths(1, d)], w5, [Finish(1, d)], w');
  }

  function Straggle(d: Day, late: Event): seq<Statement> {
    [ReadClean(7, d)] + [DeleteDay(7, d)] + [Insert(INGEST, [late])] + [Mark(INGEST, {d})]
  }

  /** An ingest whose check for pruned days ran before the prune inserts after it: the flagged day is
      read from the straggler alone, one view of the two accepted. */
  lemma StragglerReplacesAPrunedDay(d: Day, e: Event, late: Event) returns (w: Shared, w': Shared)
    requires View(e, d) && View(late, d)
    ensures Settled(w) && Leads(w, Straggle(d, late), w')
    ensures !Owed(w', d) && ReadDay(w'.tables, d).pageviews == 1 && Recorded(On(w'.accepted, d)).pageviews == 2
  {
    hide Leads, Recorded, On, Settled, Paths, Select;
    ViewsOf(d, e, late);
    ViewsOf(d, late, e);
    Rolled1Settled(e, late, d);
    w := Rolled1(e, d);
    var w1 := Chosen(w, d);
    Choose(w, d);
    var w2 := Emptied(w1, d);
    DeleteAll(w1, d);
    var w3 := Inserted(w2, late);
    InsertOne(w2, late);
    w' := MarkedPast(w3, d);
    MarkOne(w3, d);
    assert w'.tables.events == [late];
    var a := [ReadClean(7, d)];
    var b := a + [DeleteDay(7, d)];
    var c := b + [Insert(INGEST, [late])];
    Join(w, a, w1, [DeleteDay(7, d)], w2);
    Join(w, b, w2, [Insert(INGEST, [late])], w3);
    Join(w, c, w3, [Mark(INGEST, {d})], w');
  }

  function RollAfterPrune(d: Day): seq<Statement> {
    [ReadClean(7, d)] + [DeleteDay(7, d)] + Reads(1, d) + [WriteDaily(1, d)]
  }

  /** A rollup that took a pruned day from an older list of pending days overwrites its aggregate with
      zeros. */
  lemma RollingAPrunedDayZeroesIt(d: Day, e: Event) returns (w: Shared, w': Shared)
    requires View(e, d)
    ensures Settled(w) && Leads(w, RollAfterPrune(d), w')
    ensures Clean(w'.tables, d) && ReadDay(w'.tables, d).pageviews == 0 && Recorded(On(w'.accepted, d)).pageviews == 1
  {
    hide Leads, Recorded, On, Settled, Paths, Select;
    ViewsOf(d, e, e);
    Rolled1Settled(e, e, d);
    NoEvents(d);
    w := Rolled1(e, d);
    var w1 := Chosen(w, d);
    Choose(w, d);
    var w2 := Emptied(w1, d);
    DeleteAll(w1, d);
    var w3 := HasRead(w2, 1, d, All([]));
    AllReads(w2, 1, d);
    w' := Written(w3, 1, d, [], None);
    WriteAll(w3, 1, d, [], None);
    var a := [ReadClean(7, d)];
    var b := a + [DeleteDay(7, d)];
    var c := b + Reads(1, d);
    Join(w, a, w1, [DeleteDay(7, d)], w2);
    Join(w, b, w2, Reads(1, d), w3);
    Join(w, c, w3, [WriteDaily(1, d)], w');
  }

  // ---- a rollup cut off between the day's row and its page rows ----

  function CutShort(d: Day, path: string): seq<Statement> {
    Reads(1, d) + [WriteDaily(1, d)] + [ReadPaths(1, d)] + [WritePage(1, d, path)] + [CutOff(1, d)]
  }

  /** The day stays clean with a page row missing: its path reads as unviewed, and the day is never
      rolled again. */
  lemma CutOffLosesPages(d: Day, e: Event, other: Event) returns (w: Shared, w': Shared)
    requires View(e, d) && View(other, d) && e.path != other.path
    ensures Settled(w) && d < w.today && Leads(w, CutShort(d, e.path), w')
    ensures w'.tasks == map[] && Clean(w'.tables, d) && !Owed(w', d)
    ensures ReadViews(w'.tables, d, other.path) == 0 && multiset(Paths(On(w'.tables.events, d)))[other.path] == 1
    ensures forall through :: d !in PendingSet(w'.tables, through)
  {
    hide Recorded, On, Leads;
    ViewsOf(d, e, other);
    w := Fresh([e, other], d + 1);
    assert [e] + [other] == [e, other];
    var w1 := HasRead(w, 1, d, All([e, other]));
    var w2 := Written(w1, 1, d, [e, other], None);
    AllReads(w, 1, d);
    WriteAll(w1, 1, d, [e, other], None);
    var views := multiset(Paths([e, other]));
    var w3 := w2.(tasks := w2.tasks[(1, d) := Paging(Some(views), {})]);
    One(w2, ReadPaths(1, d), w3);
    var w4 := w3.(tables := w3.tables.(pages := w3.tables.pages[(d, e.path) := views[e.path]]),
                  tasks := w3.tasks[(1, d) := Paging(Some(views), {e.path})]);
    OnePage(w3, d, views, e.path, w4);
    w' := w4.(tasks := w4.tasks - {(1, d)});
    One(w4, CutOff(1, d), w');
    var a := Reads(1, d);
    var b := a + [WriteDaily(1, d)];
    var c := b + [ReadPaths(1, d)];
    var f := c + [WritePage(1, d, e.path)];
    Join(w, a, w1, [WriteDaily(1, d)], w2);
    Join(w, b, w2, [ReadPaths(1, d)], w3);
    Join(w, c, w3, [WritePage(1, d, e.path)], w4);
    Join(w, f, w4, [CutOff(1, d)], w');
    assert (d, e.path) in w'.tables.pages && (d, e.path).0 == d;
    assert d in CleanDays(w'.tables);
  }

  lemma OnePage(w: Shared, d: Day, views: Counts, path: string, w': Shared)
    requires (1, d) in w.tasks && w.tasks[(1, d)] == Paging(Some(views), {}) && path in views
    requires w' == w.(tables := w.tables.(pages := w.tables.pages[(d, path) := views[path]]),
                      tasks := w.tasks[(1, d) := Paging(Some(views), {path})])
    ensures Leads(w, [WritePage(1, d, path)], w')
  {
    hide Recorded, On;
    assert {} + {path} == {path};
    One(w, WritePage(1, d, path), w');
  }
}
