/** The analytics tables and their steps, each step one transaction: ingest, rollup, backfill,
    prune, and the clock moving on. `accepted` remembers every event ever inserted, which the
    tables need not: pruning deletes raw rows once their day's aggregate holds them. */
module Rollup {
  import opened Options
  import opened Queries
  import opened Metrics
  import opened Breakdowns
  import opened Ascending

  type Token = nat

  datatype DailyRow = DailyRow(counts: DayRecord, dirty: bool, token: Option<Token>)

  datatype Tables = Tables(
    events: seq<Event>,
    daily: map<Day, DailyRow>,
    pages: map<(Day, string), nat>)

  datatype World = World(tables: Tables, accepted: seq<Event>, today: Day, nextToken: Token)

  const LATE_EVENT_DAYS := 3

  // ---- what the tables say about a day ----

  predicate Clean(t: Tables, d: Day) {
    d in t.daily && !t.daily[d].dirty
  }

  predicate Dirty(t: Tables, d: Day) {
    d in t.daily && t.daily[d].dirty
  }

  predicate Raw(t: Tables, d: Day) {
    On(t.events, d) != []
  }

  /** Rolled up, and the raw rows are gone. */
  predicate Pruned(t: Tables, d: Day) {
    Clean(t, d) && !Raw(t, d)
  }

  function RawDays(t: Tables): set<Day> {
    set e | e in t.events :: e.day
  }

  function CleanDays(t: Tables): set<Day> {
    set d | d in t.daily && !t.daily[d].dirty
  }

  function Paths(s: seq<Event>): seq<string> {
    Select(s, PathOf())
  }

  // ---- ingest ----

  datatype Submission = Submission(viewId: string, origin: Origin, ts: string, dayIsDate: bool, row: Event)

  predicate WellFormed(e: Submission) {
    && 0 < |e.viewId| <= 64
    && e.row.kind != OtherKind
    && e.origin != OtherOrigin
    && |e.ts| > 0
    && e.dayIsDate
    && |e.row.path| > 0
  }

  function RowOf(): Submission -> Option<Event> {
    (e: Submission) => if WellFormed(e) then Some(e.row) else None
  }

  function NotPruned(t: Tables, today: Day): Event -> Option<Event> {
    (e: Event) => if e.day < today && Pruned(t, e.day) then None else Some(e)
  }

  /** The rows a batch inserts: the well-formed ones, less those of days already pruned. */
  function Kept(t: Tables, today: Day, batch: seq<Submission>): seq<Event> {
    Select(Select(batch, RowOf()), NotPruned(t, today))
  }

  /** Every past day of `days` gets a row, and every day of `days` up to today that has a row is
      flagged with a token nobody has seen; other rows stand. */
  ghost predicate Marked(daily: map<Day, DailyRow>, days: set<Day>, today: Day, nextToken: Token,
                         daily': map<Day, DailyRow>, nextToken': Token)
  {
    && nextToken <= nextToken'
    && (forall d :: d in daily' <==> d in daily || (d in days && d < today))
    && (forall d :: d in daily' ==>
         if d in days && d <= today
         then && daily'[d].dirty
              && daily'[d].token.Some? && nextToken <= daily'[d].token.value < nextToken'
              && daily'[d].counts == (if d in daily then daily[d].counts else EMPTY_DAY)
         else daily'[d] == daily[d])
  }

  function DaysOf(rows: seq<Event>): set<Day> {
    set e | e in rows :: e.day
  }

  // ---- rollup ----

  /** Days that need rolling: the raw tail after the newest clean day, and flagged days that
      still have raw rows. */
  predicate Due(t: Tables, through: Day, d: Day) {
    d <= through && (Dirty(t, d) || forall c :: c in CleanDays(t) ==> c < d)
  }

  function PendingSet(t: Tables, through: Day): set<Day> {
    set d | d in RawDays(t) && Due(t, through, d)
  }

  function Pending(t: Tables, through: Day, maxDays: nat): seq<Day> {
    Take(Sorted(PendingSet(t, through)), maxDays)
  }

  function RolledRow(t: Tables, d: Day): DailyRow {
    DailyRow(Recorded(On(t.events, d)), false, if d in t.daily then t.daily[d].token else None)
  }

  /** The page rows a roll of `days` writes. */
  function Viewed(t: Tables, days: set<Day>): set<(Day, string)> {
    set e | e in t.events && e.day in days && e.kind == Pageview :: (e.day, e.path)
  }

  /** Aggregates of `days` recomputed from raw. A path row is overwritten, never removed. */
  function RolledUp(t: Tables, days: set<Day>): Tables {
    var viewed := Viewed(t, days);
    Tables(t.events,
           map d | d in t.daily.Keys + days :: if d in days then RolledRow(t, d) else t.daily[d],
           map k | k in t.pages.Keys + viewed :: if k in viewed then multiset(Paths(On(t.events, k.0)))[k.1] else t.pages[k])
  }

  /** How many page rows a roll of `days` writes: one per path and day. */
  function PageRows(events: seq<Event>, days: seq<Day>): nat {
    if days == [] then 0
    else PageRows(events, days[..|days| - 1]) + |Members(multiset(Paths(On(events, days[|days| - 1]))))|
  }

  // ---- backfill and prune ----

  /** The days that have raw rows, no aggregate row, and a newer clean day. */
  ghost predicate Unseen(t: Tables, d: Day) {
    Raw(t, d) && d !in t.daily && exists c :: c in CleanDays(t) && d < c
  }

  ghost predicate Flagged(t: Tables, nextToken: Token, t': Tables, nextToken': Token) {
    && t'.events == t.events && t'.pages == t.pages
    && Stubbed(t.daily, (set d | d in RawDays(t) && Unseen(t, d)), nextToken, t'.daily, nextToken')
  }

  /** `daily` with new flag stubs for the days `added`. */
  ghost predicate Stubbed(daily: map<Day, DailyRow>, added: set<Day>, nextToken: Token, daily': map<Day, DailyRow>,
                          nextToken': Token) {
    && nextToken <= nextToken'
    && daily'.Keys == daily.Keys + added
    && (forall d :: d in daily ==> d in daily' && daily'[d] == daily[d])
    && (forall d :: d in daily' && d !in daily ==> IsStub(daily'[d], nextToken, nextToken'))
  }

  predicate IsStub(row: DailyRow, nextToken: Token, nextToken': Token) {
    row.dirty && row.counts == EMPTY_DAY && row.token.Some? && nextToken <= row.token.value < nextToken'
  }

  lemma StubOne(daily: map<Day, DailyRow>, added: set<Day>, nextToken: Token, daily': map<Day, DailyRow>,
                nextToken': Token, d: Day)
    requires Stubbed(daily, added, nextToken, daily', nextToken') && d !in daily
    ensures Stubbed(daily, added + {d}, nextToken, daily'[d := DailyRow(EMPTY_DAY, true, Some(nextToken'))], nextToken' + 1)
  {
  }

  function Survives(t: Tables, cutoff: Day): Event -> Option<Event> {
    (e: Event) => if e.day < cutoff && Clean(t, e.day) then None else Some(e)
  }

  /** Never inside the grace period for late events. */
  function Cutoff(today: Day, keepDays: int): Day {
    today - (if keepDays < LATE_EVENT_DAYS + 1 then LATE_EVENT_DAYS + 1 else keepDays)
  }

  function PrunedTo(t: Tables, cutoff: Day): Tables {
    t.(events := Select(t.events, Survives(t, cutoff)))
  }

  // ---- steps and runs ----

  datatype Step =
    | Ingest(batch: seq<Submission>)
    | Roll(through: Day, maxDays: nat)
    | Backfill
    | Prune(keepDays: int)
    | Tick(to: Day)

  ghost predicate Next(w: World, step: Step, w': World) {
    match step
    case Ingest(batch) =>
      var kept := Kept(w.tables, w.today, batch);
      && w'.accepted == w.accepted + kept
      && w'.tables.events == w.tables.events + kept
      && w'.tables.pages == w.tables.pages
      && w'.today == w.today
      && Marked(w.tables.daily, DaysOf(kept), w.today, w.nextToken, w'.tables.daily, w'.nextToken)
    case Roll(through, maxDays) =>
      && through <= w.today
      && w' == w.(tables := RolledUp(w.tables, Members(multiset(Pending(w.tables, through, maxDays)))))
    case Backfill =>
      && Flagged(w.tables, w.nextToken, w'.tables, w'.nextToken)
      && w'.accepted == w.accepted && w'.today == w.today
    case Prune(keepDays) =>
      w' == w.(tables := PrunedTo(w.tables, Cutoff(w.today, keepDays)))
    case Tick(to) =>
      w.today <= to && w' == w.(today := to)
  }

  function Start(today: Day): World {
    World(Tables([], map[], map[]), [], today, 0)
  }

  // ---- the invariant ----

  /** The page rows of `d` are exactly the pageview counts of `s`. */
  ghost predicate PagesAre(t: Tables, d: Day, s: seq<Event>) {
    && (forall p :: p in Paths(s) ==> (d, p) in t.pages)
    && (forall p :: (d, p) in t.pages ==> t.pages[(d, p)] == multiset(Paths(s))[p] && p in Paths(s))
  }

  ghost predicate DayHolds(w: World, d: Day) {
    var t := w.tables;
    var all := On(w.accepted, d);
    // All accepted rows are still raw, unless the day was pruned.
    && (On(t.events, d) == all || (Pruned(t, d) && d < w.today))
    // A clean aggregate is the aggregate of everything accepted.
    && (Clean(t, d) ==> d <= w.today && all != [] && t.daily[d].counts == Recorded(all) && PagesAre(t, d, all))
    // A page row, stale or not, is of a day with a row and a path seen that day.
    && (forall p :: (d, p) in t.pages ==> d in t.daily && p in Paths(all))
  }

  /** No day is skipped: a raw day without a row is newer than every clean day. */
  ghost predicate NoneSkipped(t: Tables) {
    forall d :: Raw(t, d) && d !in t.daily ==> forall c :: c in CleanDays(t) ==> c < d
  }

  ghost predicate TokensUsed(w: World) {
    forall d :: d in w.tables.daily && w.tables.daily[d].token.Some? ==> w.tables.daily[d].token.value < w.nextToken
  }

  /** What holds even of a store an older version left days skipped in. */
  ghost predicate Sound(w: World) {
    (forall d :: DayHolds(w, d)) && TokensUsed(w)
  }

  ghost predicate Inv(w: World) {
    Sound(w) && NoneSkipped(w.tables)
  }

  ghost predicate NextAt(ws: seq<World>, steps: seq<Step>, i: nat)
    requires i < |steps| && |ws| == |steps| + 1
  {
    Next(ws[i], steps[i], ws[i + 1])
  }

  /** A run from the empty store, or from any sound one. */
  ghost predicate IsRun(ws: seq<World>, steps: seq<Step>) {
    && |ws| == |steps| + 1
    && (ws[0] == Start(ws[0].today) || Sound(ws[0]))
    && forall i :: 0 <= i < |steps| ==> NextAt(ws, steps, i)
  }

  // ---- days of a log ----

  lemma OnAppend(s: seq<Event>, more: seq<Event>, d: Day)
    ensures On(s + more, d) == On(s, d) + On(more, d)
  {
    SelectAppend(s, more, OnDay(d));
  }

  lemma OnMember(s: seq<Event>, d: Day)
    ensures On(s, d) != [] <==> exists e :: e in s && e.day == d
    ensures forall e :: e in On(s, d) ==> e in s && e.day == d
  {
    forall e ensures e in On(s, d) <==> e in s && e.day == d {
      SelectMember(s, OnDay(d), e);
    }
    if e :| e in s && e.day == d {
      assert e in On(s, d);
    }
    if On(s, d) != [] {
      assert On(s, d)[0] in On(s, d);
    }
  }

  lemma RawIsDay(t: Tables, d: Day)
    ensures Raw(t, d) <==> d in RawDays(t)
  {
    OnMember(t.events, d);
  }

  /** The events of `d` kept by a filter that only looks at the day. */
  lemma OnFiltered(s: seq<Event>, keep: Event -> Option<Event>, d: Day, kept: bool)
    requires forall e :: keep(e) == Some(e) || keep(e) == None
    requires forall e: Event :: e.day == d ==> keep(e) == if kept then Some(e) else None
    ensures On(Select(s, keep), d) == if kept then On(s, d) else []
  {
    var both := (e: Event) => if e.day == d && kept then Some(e) else None;
    SelectCompose(s, keep, OnDay(d), both);
    if kept {
      SelectAgree(s, both, OnDay(d));
    } else {
      SelectNothing(s, both);
    }
  }

  lemma {:induction false} SelectNothing<E, K>(s: seq<E>, f: E -> Option<K>)
    requires forall e :: e in s ==> f(e) == None
    ensures Select(s, f) == []
  {
    if s == [] {
    } else {
      assert s[0] in s;
      SelectNothing(s[1..], f);
    }
  }

  lemma KeptOn(t: Tables, today: Day, batch: seq<Submission>, d: Day)
    ensures On(Kept(t, today, batch), d) == if d < today && Pruned(t, d) then [] else On(Select(batch, RowOf()), d)
  {
    OnFiltered(Select(batch, RowOf()), NotPruned(t, today), d, !(d < today && Pruned(t, d)));
  }

  lemma SurvivorsOn(t: Tables, cutoff: Day, d: Day)
    ensures On(PrunedTo(t, cutoff).events, d) == if d < cutoff && Clean(t, d) then [] else On(t.events, d)
  {
    OnFiltered(t.events, Survives(t, cutoff), d, !(d < cutoff && Clean(t, d)));
  }

  // ---- rolling one day more ----

  /** The page rows of `d` after its counts `views` are written over `pages`. */
  ghost predicate PagesWritten(pages: map<(Day, string), nat>, d: Day, views: Counts, pages': map<(Day, string), nat>) {
    && (forall k :: k in pages' <==> k in pages || (k.0 == d && k.1 in views))
    && (forall k :: k in pages' ==> pages'[k] == if k.0 == d && k.1 in views then views[k.1] else pages[k])
  }

  lemma PathsMember(s: seq<Event>, d: Day, p: string)
    ensures p in Paths(On(s, d)) <==> exists e :: e in s && e.day == d && e.kind == Pageview && e.path == p
  {
    SelectMember(On(s, d), PathOf(), p);
    OnMember(s, d);
    forall e | e in s && e.day == d ensures e in On(s, d) {
      SelectMember(s, OnDay(d), e);
    }
  }

  lemma ViewedIs(t: Tables, days: set<Day>, k: (Day, string))
    ensures k in Viewed(t, days) <==> k.0 in days && k.1 in Paths(On(t.events, k.0))
  {
    PathsMember(t.events, k.0, k.1);
    assert k == (k.0, k.1);
  }

  lemma RollOneMoreRow(t: Tables, days: set<Day>, d: Day)
    ensures RolledUp(t, days + {d}).daily == RolledUp(t, days).daily[d := RolledRow(t, d)]
  {
    hide RolledRow, Viewed;
  }

  lemma RollOneMorePage(t: Tables, days: set<Day>, k: (Day, string))
    ensures var p1, p2 := RolledUp(t, days).pages, RolledUp(t, days + {k.0}).pages;
      var views := multiset(Paths(On(t.events, k.0)));
      && (k in p2 <==> k in p1 || k.1 in views)
      && (k in p2 ==> p2[k] == if k.1 in views then views[k.1] else p1[k])
    ensures forall d :: d != k.0 ==>
      var p1, p2 := RolledUp(t, days).pages, RolledUp(t, days + {d}).pages;
      (k in p2 <==> k in p1) && (k in p2 ==> p2[k] == p1[k])
  {
    hide RolledRow;
    ViewedIs(t, days, k);
    ViewedIs(t, days + {k.0}, k);
    forall d | d != k.0 ensures k in Viewed(t, days + {d}) <==> k in Viewed(t, days) {
      ViewedIs(t, days + {d}, k);
    }
    hide Viewed;
  }

  lemma RollOneMorePages(t: Tables, days: set<Day>, d: Day, pages': map<(Day, string), nat>)
    requires PagesWritten(RolledUp(t, days).pages, d, multiset(Paths(On(t.events, d))), pages')
    ensures RolledUp(t, days + {d}).pages == pages'
  {
    var p1, p2 := RolledUp(t, days).pages, RolledUp(t, days + {d}).pages;
    hide RolledUp, Paths, On;
    forall k: (Day, string)
      ensures (k in p2 <==> k in pages') && (k in p2 ==> p2[k] == pages'[k])
    {
      RollOneMorePage(t, days, k);
    }
  }

  /** Writing one more day's row and page rows is rolling one more day. */
  lemma RollOneMore(t: Tables, days: set<Day>, d: Day, pages': map<(Day, string), nat>)
    requires PagesWritten(RolledUp(t, days).pages, d, multiset(Paths(On(t.events, d))), pages')
    ensures RolledUp(t, days + {d}) == Tables(t.events, RolledUp(t, days).daily[d := RolledRow(t, d)], pages')
  {
    RollOneMoreRow(t, days, d);
    RollOneMorePages(t, days, d, pages');
    hide PagesWritten, RolledRow, Viewed;
  }

  lemma RollNothing(t: Tables)
    ensures RolledUp(t, {}) == t
  {
    hide Recorded;
    assert RolledUp(t, {}).daily == t.daily;
    assert RolledUp(t, {}).pages == t.pages;
  }
}
