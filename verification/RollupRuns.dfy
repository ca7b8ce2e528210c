/** What every step keeps, and what therefore holds over every run. */
module RollupRuns {
  import opened Options
  import opened Queries
  import opened Metrics
  import opened Breakdowns
  import opened Totals
  import opened Ascending
  import opened Rollup

  // ---- ingest ----

  /** What an ingest adds to a day, if anything. */
  lemma IngestAdds(w: World, batch: seq<Submission>, w': World, d: Day)
    requires Next(w, Ingest(batch), w')
    ensures var kept := Kept(w.tables, w.today, batch);
      && On(w'.tables.events, d) == On(w.tables.events, d) + On(kept, d)
      && On(w'.accepted, d) == On(w.accepted, d) + On(kept, d)
      && (On(kept, d) == [] <==> d !in DaysOf(kept))
      && (d < w.today && Pruned(w.tables, d) ==> On(kept, d) == [])
  {
    hide On, Kept, Marked, Pruned;
    var kept := Kept(w.tables, w.today, batch);
    OnAppend(w.tables.events, kept, d);
    OnAppend(w.accepted, kept, d);
    OnMember(kept, d);
    KeptOn(w.tables, w.today, batch, d);
  }

  lemma IngestElsewhere(w: World, batch: seq<Submission>, w': World, d: Day)
    requires DayHolds(w, d) && Next(w, Ingest(batch), w') && d !in DaysOf(Kept(w.tables, w.today, batch))
    ensures DayHolds(w', d)
  {
    IngestAdds(w, batch, w', d);
    hide On, Kept, Recorded, Paths, DaysOf;
    assert On(w'.tables.events, d) == On(w.tables.events, d) && On(w'.accepted, d) == On(w.accepted, d);
    assert d in w'.tables.daily <==> d in w.tables.daily;
    assert d in w.tables.daily ==> w'.tables.daily[d] == w.tables.daily[d];
    hide Next;
    SameDayHolds(w, w', d);
  }

  lemma SameDayHolds(w: World, w': World, d: Day)
    requires DayHolds(w, d) && w'.today == w.today && w'.tables.pages == w.tables.pages
    requires On(w'.tables.events, d) == On(w.tables.events, d) && On(w'.accepted, d) == On(w.accepted, d)
    requires d in w'.tables.daily <==> d in w.tables.daily
    requires d in w.tables.daily ==> w'.tables.daily[d] == w.tables.daily[d]
    ensures DayHolds(w', d)
  {
    hide On, Recorded, Paths;
  }

  lemma IngestHere(w: World, batch: seq<Submission>, w': World, d: Day)
    requires DayHolds(w, d) && Next(w, Ingest(batch), w') && d in DaysOf(Kept(w.tables, w.today, batch))
    ensures DayHolds(w', d)
  {
    var kept := Kept(w.tables, w.today, batch);
    IngestAdds(w, batch, w', d);
    SelectAppend(On(w.accepted, d), On(kept, d), PathOf());
    hide On, Kept, Recorded, PagesAre, DaysOf;
    assert On(w'.tables.events, d) == On(w'.accepted, d);
    assert !Clean(w'.tables, d);
  }

  lemma IngestDay(w: World, batch: seq<Submission>, w': World, d: Day)
    requires Sound(w) && Next(w, Ingest(batch), w')
    ensures DayHolds(w', d)
  {
    assert DayHolds(w, d);
    hide Sound, Next, DayHolds, Kept, DaysOf;
    if d in DaysOf(Kept(w.tables, w.today, batch)) {
      IngestHere(w, batch, w', d);
    } else {
      IngestElsewhere(w, batch, w', d);
    }
  }

  lemma IngestKeepsNoneSkipped(w: World, batch: seq<Submission>, w': World, d: Day, c: Day)
    requires Inv(w) && Next(w, Ingest(batch), w')
    requires Raw(w'.tables, d) && d !in w'.tables.daily && c in CleanDays(w'.tables)
    ensures c < d
  {
    hide Recorded, Kept, PagesAre;
    var kept := Kept(w.tables, w.today, batch);
    assert c in CleanDays(w.tables) && d !in w.tables.daily;
    if !Raw(w.tables, d) {
      OnAppend(w.tables.events, kept, d);
      OnMember(kept, d);
      assert d in DaysOf(kept);
      assert DayHolds(w, c);
    }
  }

  lemma IngestKeeps(w: World, batch: seq<Submission>, w': World)
    requires Sound(w) && Next(w, Ingest(batch), w')
    ensures Sound(w') && (NoneSkipped(w.tables) ==> NoneSkipped(w'.tables))
  {
    hide Kept, DayHolds;
    forall d ensures DayHolds(w', d) {
      IngestDay(w, batch, w', d);
    }
    forall d, c | NoneSkipped(w.tables) && Raw(w'.tables, d) && d !in w'.tables.daily && c in CleanDays(w'.tables) ensures c < d {
      IngestKeepsNoneSkipped(w, batch, w', d, c);
    }
  }

  // ---- rollup ----

  lemma PendingIsRaw(t: Tables, through: Day, maxDays: nat, d: Day)
    requires d in Pending(t, through, maxDays)
    ensures Raw(t, d) && Due(t, through, d)
  {
    assert d in Sorted(PendingSet(t, through));
    RawIsDay(t, d);
  }

  function Rolled(t: Tables, through: Day, maxDays: nat): set<Day> {
    Members(multiset(Pending(t, through, maxDays)))
  }

  ghost predicate RolledPage(t: Tables, days: set<Day>, d: Day, p: string, t': Tables) {
    var views := Paths(On(t.events, d));
    && ((d, p) in t'.pages <==> (d, p) in t.pages || (d in days && p in views))
    && ((d, p) in t'.pages ==> t'.pages[(d, p)] == if d in days && p in views then multiset(views)[p] else t.pages[(d, p)])
  }

  lemma RolledPages(t: Tables, days: set<Day>, d: Day, p: string)
    ensures RolledPage(t, days, d, p, RolledUp(t, days))
  {
    PathsMember(t.events, d, p);
  }

  lemma RolledDay(t: Tables, days: set<Day>, d: Day)
    ensures var t' := RolledUp(t, days);
      && t'.events == t.events
      && (d in t'.daily <==> d in t.daily || d in days)
      && (d in t'.daily ==> t'.daily[d] == if d in days then RolledRow(t, d) else t.daily[d])
  {
  }

  lemma RolledDayHolds(w: World, days: set<Day>, w': World, d: Day)
    requires DayHolds(w, d) && d in days && Raw(w.tables, d) && d <= w.today
    requires w' == w.(tables := RolledUp(w.tables, days))
    ensures DayHolds(w', d)
  {
    hide Recorded;
    var all := Paths(On(w.accepted, d));
    forall p: string
      ensures (d, p) in w'.tables.pages <==> p in all
      ensures (d, p) in w'.tables.pages ==> w'.tables.pages[(d, p)] == multiset(all)[p]
    {
      RolledPages(w.tables, days, d, p);
    }
    RolledDay(w.tables, days, d);
    hide RolledUp;
  }

  lemma UnrolledDayHolds(w: World, days: set<Day>, w': World, d: Day)
    requires DayHolds(w, d) && d !in days
    requires w' == w.(tables := RolledUp(w.tables, days))
    ensures DayHolds(w', d)
  {
    hide Recorded;
    forall p: string
      ensures (d, p) in w'.tables.pages <==> (d, p) in w.tables.pages
      ensures (d, p) in w'.tables.pages ==> w'.tables.pages[(d, p)] == w.tables.pages[(d, p)]
    {
      RolledPages(w.tables, days, d, p);
    }
    RolledDay(w.tables, days, d);
    hide RolledUp;
  }

  lemma RollDay(w: World, through: Day, maxDays: nat, w': World, d: Day)
    requires Sound(w) && Next(w, Roll(through, maxDays), w')
    ensures DayHolds(w', d)
  {
    var days := Rolled(w.tables, through, maxDays);
    assert DayHolds(w, d);
    if d in days {
      PendingIsRaw(w.tables, through, maxDays, d);
      RolledDayHolds(w, days, w', d);
    } else {
      UnrolledDayHolds(w, days, w', d);
    }
  }

  /** A raw day left out of a pass is newer than every day in it, unless it is clean already. */
  lemma LeftOutIsNewer(t: Tables, through: Day, maxDays: nat, c: Day, d: Day)
    requires c in Rolled(t, through, maxDays) && d !in Rolled(t, through, maxDays)
    requires d in RawDays(t) && (d <= through ==> Due(t, through, d))
    ensures c < d
  {
    PendingIsRaw(t, through, maxDays, c);
    if d <= through {
      PrefixIsOldest(Sorted(PendingSet(t, through)), maxDays, c, d);
    }
  }

  lemma RollKeepsNoneSkipped(t: Tables, through: Day, maxDays: nat)
    requires NoneSkipped(t)
    ensures NoneSkipped(RolledUp(t, Rolled(t, through, maxDays)))
  {
    var days := Rolled(t, through, maxDays);
    var t' := RolledUp(t, days);
    forall d, c | Raw(t', d) && d !in t'.daily && c in CleanDays(t') ensures c < d {
      assert Raw(t, d) && d !in t.daily && d !in days;
      RawIsDay(t, d);
      if c in days {
        LeftOutIsNewer(t, through, maxDays, c, d);
      } else {
        assert c in CleanDays(t);
      }
    }
  }

  lemma RollKeeps(w: World, through: Day, maxDays: nat, w': World)
    requires Sound(w) && Next(w, Roll(through, maxDays), w')
    ensures Sound(w') && (NoneSkipped(w.tables) ==> NoneSkipped(w'.tables))
  {
    forall d ensures DayHolds(w', d) {
      RollDay(w, through, maxDays, w', d);
    }
    if NoneSkipped(w.tables) {
      RollKeepsNoneSkipped(w.tables, through, maxDays);
    }
  }

  // ---- backfill, prune, clock ----

  /** From any store at all, the backfill leaves no day skipped. */
  lemma BackfillEstablishes(t: Tables, nextToken: Token, t': Tables, nextToken': Token)
    requires Flagged(t, nextToken, t', nextToken')
    ensures NoneSkipped(t')
  {
    forall d, c | Raw(t', d) && d !in t'.daily && c in CleanDays(t') ensures c < d {
      assert c in CleanDays(t) && Raw(t, d) && c != d;
      RawIsDay(t, d);
      assert !Unseen(t, d);
    }
  }

  lemma StubbedNowhere(daily: map<Day, DailyRow>, nextToken: Token, daily': map<Day, DailyRow>, nextToken': Token)
    requires Stubbed(daily, {}, nextToken, daily', nextToken')
    ensures daily' == daily
  {
    hide Recorded;
    assert daily'.Keys == daily.Keys;
    assert forall d :: d in daily.Keys ==> daily'[d] == daily[d];
  }

  /** On a store that skips no day there is nothing to backfill. */
  lemma BackfillIsNoOp(t: Tables, nextToken: Token, t': Tables, nextToken': Token)
    requires NoneSkipped(t) && Flagged(t, nextToken, t', nextToken')
    ensures t' == t
  {
    forall d ensures !Unseen(t, d) {
      if Raw(t, d) && d !in t.daily {
        assert forall c :: c in CleanDays(t) ==> c < d;
      }
    }
    var added := set d | d in RawDays(t) && Unseen(t, d);
    assert added == {};
    assert Stubbed(t.daily, added, nextToken, t'.daily, nextToken');
    StubbedNowhere(t.daily, nextToken, t'.daily, nextToken');
  }

  /** The backfill makes a sound store skip no day, whatever it skipped before. */
  lemma BackfillRepairs(w: World, w': World)
    requires Sound(w) && Next(w, Backfill, w')
    ensures Inv(w')
    ensures w'.tables.events == w.tables.events && forall d :: Clean(w'.tables, d) <==> Clean(w.tables, d)
  {
    hide Recorded;
    forall d ensures DayHolds(w', d) {
      assert DayHolds(w, d);
    }
    BackfillEstablishes(w.tables, w.nextToken, w'.tables, w'.nextToken);
  }

  lemma PruneKeeps(w: World, keepDays: int, w': World)
    requires Sound(w) && Next(w, Prune(keepDays), w')
    ensures Sound(w') && (NoneSkipped(w.tables) ==> NoneSkipped(w'.tables))
  {
    hide Recorded;
    var cutoff := Cutoff(w.today, keepDays);
    forall d ensures DayHolds(w', d) && (Raw(w'.tables, d) ==> Raw(w.tables, d)) {
      assert DayHolds(w, d);
      SurvivorsOn(w.tables, cutoff, d);
    }
    assert CleanDays(w'.tables) == CleanDays(w.tables);
  }

  lemma StepKeeps(w: World, step: Step, w': World)
    requires Sound(w) && Next(w, step, w')
    ensures Sound(w') && (NoneSkipped(w.tables) || step.Backfill? ==> NoneSkipped(w'.tables))
  {
    match step
    case Ingest(batch) => IngestKeeps(w, batch, w');
    case Roll(through, maxDays) => RollKeeps(w, through, maxDays, w');
    case Backfill => BackfillRepairs(w, w');
    case Prune(keepDays) => PruneKeeps(w, keepDays, w');
    case Tick(to) =>
      forall d ensures DayHolds(w', d) {
        assert DayHolds(w, d);
      }
  }

  lemma StartHolds(today: Day)
    ensures Inv(Start(today))
  {
  }

  /** In every state a clean row is made of all accepted events and unclean days keep everything; no day is skipped if none was
      at the start, or once a backfill has run. */
  lemma {:induction false} RunHolds(ws: seq<World>, steps: seq<Step>, i: nat)
    requires IsRun(ws, steps) && i < |ws|
    ensures Sound(ws[i])
    ensures NoneSkipped(ws[0].tables) || (exists k :: 0 <= k < i && steps[k].Backfill?) ==> NoneSkipped(ws[i].tables)
  {
    StartHolds(ws[0].today);
    if i == 0 {
    } else {
      hide Next, Sound, NoneSkipped;
      assert NextAt(ws, steps, i - 1);
      RunHolds(ws, steps, i - 1);
      StepKeeps(ws[i - 1], steps[i - 1], ws[i]);
    }
  }

  // ---- the readers ----

  /** What the dashboard uses for one day: its clean aggregate, else its raw events. */
  function ReadDay(t: Tables, d: Day): DayRecord {
    if Clean(t, d) then ReadBack(t.daily[d].counts) else Recorded(On(t.events, d))
  }

  /** Top pages uses a day's page rows when it has any and its row is not flagged. */
  predicate UsesPages(t: Tables, d: Day) {
    !Dirty(t, d) && exists k :: k in t.pages && k.0 == d
  }

  function ReadViews(t: Tables, d: Day, p: string): nat {
    if UsesPages(t, d) then (if (d, p) in t.pages then t.pages[(d, p)] else 0)
    else multiset(Paths(On(t.events, d)))[p]
  }

  /** Whatever form the day is in, it is the day's accepted events that are shown. */
  lemma ReadDayShows(w: World, d: Day)
    requires Sound(w)
    ensures ReadDay(w.tables, d) == DayShown(On(w.accepted, d), Clean(w.tables, d))
  {
    assert DayHolds(w, d);
    hide Recorded;
  }

  /** A step that accepts nothing for a day leaves what is shown of it as it was exactly when it leaves
      the day clean or unclean as it was, or no bucket of the day is named like an inherited member other
      than `__proto__`. */
  lemma StepShowsIff(w: World, step: Step, w': World, d: Day)
    requires Sound(w) && Next(w, step, w') && On(w'.accepted, d) == On(w.accepted, d)
    ensures ReadDay(w'.tables, d) == ReadDay(w.tables, d) <==>
      (Clean(w'.tables, d) <==> Clean(w.tables, d)) || forall c: Column :: Textless(On(w.accepted, d), c)
  {
    StepKeeps(w, step, w');
    hide Next, Sound, DayShown, ReadDay, Textless, Clean;
    ReadDayShows(w, d);
    ReadDayShows(w', d);
    RollingShowsIff(On(w.accepted, d));
  }

  lemma ReadViewsIsExact(w: World, d: Day, p: string)
    requires Sound(w)
    ensures ReadViews(w.tables, d, p) == multiset(Paths(On(w.accepted, d)))[p]
  {
    assert DayHolds(w, d);
    hide Sound, On, Recorded, PagesAre, Paths, ReadViews;
    RightPagesRead(w.tables, d, On(w.accepted, d), p);
  }

  /** Right page rows are read as they are, and a day without any as its raw events. */
  lemma RightPagesRead(t: Tables, d: Day, all: seq<Event>, p: string)
    requires Clean(t, d) ==> PagesAre(t, d, all)
    requires On(t.events, d) == all || Pruned(t, d)
    requires forall q :: (d, q) in t.pages ==> d in t.daily
    ensures ReadViews(t, d, p) == multiset(Paths(all))[p]
  {
    hide Recorded, On;
    if UsesPages(t, d) {
      var k :| k in t.pages && k.0 == d;
      assert (d, k.1) == k;
    } else if Clean(t, d) {
      assert forall q :: q in Paths(all) ==> (d, q) in t.pages && (d, q).0 == d;
      NoPaths(all, p);
      NoPaths(On(t.events, d), p);
    }
  }

  lemma NoPaths(s: seq<Event>, p: string)
    ensures s == [] || Paths(s) == [] ==> multiset(Paths(s))[p] == 0
  {
  }

  function ReadDays(t: Tables, days: seq<Day>): seq<DayRecord> {
    seq(|days|, j requires 0 <= j < |days| => ReadDay(t, days[j]))
  }

  lemma ReadDaysShow(w: World, days: seq<Day>)
    requires Sound(w)
    ensures ReadDays(w.tables, days) == ShownDays(w.accepted, days, CleanDays(w.tables))
  {
    hide Sound, DayShown, ReadDay, On;
    forall j | 0 <= j < |days| ensures ReadDays(w.tables, days)[j] == ShownDays(w.accepted, days, CleanDays(w.tables))[j] {
      ReadDayShows(w, days[j]);
    }
  }

  /** In every state of every run, what the reader adds up for any list of days has the plain numbers of
      all events ever accepted; and it is their total altogether, whatever is rolled up, flagged or
      pruned, exactly when no bucket of theirs is named like an inherited member. */
  lemma RunReadsExactly(ws: seq<World>, steps: seq<Step>, i: nat, days: seq<Day>)
    requires IsRun(ws, steps) && i < |ws|
    ensures var r, s := RecordTotal(ReadDays(ws[i].tables, days)), ws[i].accepted;
      && r == ShownTotal(s, days, CleanDays(ws[i].tables))
      && SameNumbers(r, RangeTotal(s, days))
      && (r == Exactly(RangeTotal(s, days)) <==> OrdinaryRange(s, days))
      && (Distinct(days) ==> (r == Exactly(WholeRange(s, DaySet(days))) <==> OrdinaryRange(s, days)))
  {
    RunHolds(ws, steps, i);
    var s, clean := ws[i].accepted, CleanDays(ws[i].tables);
    hide Sound, NoneSkipped, IsRun, CleanDays, ReadDays, ShownDays, RecordTotal, RangeTotal, WholeRange, OrdinaryRange, Exactly;
    ReadDaysShow(ws[i], days);
    RangeIsExactIff(s, days, clean);
    RangeConsistentIff(s, days, clean, Device);
  }

  lemma RunReadsPagesExactly(ws: seq<World>, steps: seq<Step>, i: nat, d: Day, p: string)
    requires IsRun(ws, steps) && i < |ws|
    ensures ReadViews(ws[i].tables, d, p) == multiset(Paths(On(ws[i].accepted, d)))[p]
  {
    RunHolds(ws, steps, i);
    ReadViewsIsExact(ws[i], d, p);
  }

  // ---- what pruning may remove ----

  /** A flagged or unrolled day keeps every accepted raw event. */
  lemma UncleanDaysKeepEverything(w: World, d: Day)
    requires Sound(w) && !Clean(w.tables, d)
    ensures On(w.tables.events, d) == On(w.accepted, d)
  {
    assert DayHolds(w, d);
  }

  lemma IngestLeavesPruned(w: World, batch: seq<Submission>, w': World, d: Day)
    requires DayHolds(w, d) && Next(w, Ingest(batch), w') && Pruned(w.tables, d)
    ensures Pruned(w'.tables, d) && w'.tables.daily[d] == w.tables.daily[d]
    ensures On(w'.accepted, d) == On(w.accepted, d)
  {
    hide Recorded;
    var kept := Kept(w.tables, w.today, batch);
    KeptOn(w.tables, w.today, batch, d);
    OnAppend(w.tables.events, kept, d);
    OnAppend(w.accepted, kept, d);
    OnMember(kept, d);
    assert d !in DaysOf(kept);
  }

  lemma OthersLeavePruned(w: World, step: Step, w': World, d: Day)
    requires Next(w, step, w') && !step.Ingest? && Pruned(w.tables, d)
    ensures Pruned(w'.tables, d) && w'.tables.daily[d] == w.tables.daily[d]
    ensures w'.accepted == w.accepted
  {
    hide Recorded;
    match step
    case Roll(through, maxDays) =>
      var days := Rolled(w.tables, through, maxDays);
      if d in days {
        PendingIsRaw(w.tables, through, maxDays, d);
      }
      RolledDay(w.tables, days, d);
      hide RolledUp;
    case Prune(keepDays) =>
      SurvivorsOn(w.tables, Cutoff(w.today, keepDays), d);
    case _ =>
  }

  /** A pruned day stays as it is through any step, whatever stragglers arrive for it. */
  lemma PrunedDayIsFinal(w: World, step: Step, w': World, d: Day)
    requires Sound(w) && Next(w, step, w') && Pruned(w.tables, d)
    ensures Pruned(w'.tables, d) && w'.tables.daily[d] == w.tables.daily[d]
    ensures On(w'.accepted, d) == On(w.accepted, d)
    ensures forall p :: ReadViews(w'.tables, d, p) == ReadViews(w.tables, d, p)
  {
    StepKeeps(w, step, w');
    if step.Ingest? {
      assert DayHolds(w, d);
      IngestLeavesPruned(w, step.batch, w', d);
    } else {
      OthersLeavePruned(w, step, w', d);
    }
    hide Next, ReadViews, Sound, DayHolds;
    forall p ensures ReadViews(w'.tables, d, p) == ReadViews(w.tables, d, p) {
      ReadViewsIsExact(w, d, p);
      ReadViewsIsExact(w', d, p);
    }
  }

  ghost predicate FinalWith(t: Tables, d: Day, row: DailyRow) {
    Pruned(t, d) && t.daily[d] == row
  }

  lemma {:induction false} FinalForGood(ws: seq<World>, steps: seq<Step>, i: nat, j: nat, d: Day, row: DailyRow)
    requires IsRun(ws, steps) && i <= j < |ws| && FinalWith(ws[i].tables, d, row)
    ensures FinalWith(ws[j].tables, d, row)
    decreases j
  {
    if i == j {
    } else {
      hide Next, Sound, FinalWith;
      assert NextAt(ws, steps, j - 1);
      FinalForGood(ws, steps, i, j - 1, d, row);
      RunHolds(ws, steps, j - 1);
      FinalStep(ws[j - 1], steps[j - 1], ws[j], d, row);
    }
  }

  lemma FinalStep(w: World, step: Step, w': World, d: Day, row: DailyRow)
    requires Sound(w) && Next(w, step, w') && FinalWith(w.tables, d, row)
    ensures FinalWith(w'.tables, d, row)
  {
    hide Next, Sound, ReadViews;
    PrunedDayIsFinal(w, step, w', d);
  }

  /** So over the rest of any run. */
  lemma PrunedDayStaysFinal(ws: seq<World>, steps: seq<Step>, i: nat, j: nat, d: Day)
    requires IsRun(ws, steps) && i <= j < |ws| && Pruned(ws[i].tables, d)
    ensures Pruned(ws[j].tables, d) && ws[j].tables.daily[d] == ws[i].tables.daily[d]
  {
    hide Next, Sound, IsRun;
    FinalForGood(ws, steps, i, j, d, ws[i].tables.daily[d]);
  }

  // ---- no day is skipped ----

  /** The raw days up to `through` without a clean aggregate. */
  function Unclean(t: Tables, through: Day): set<Day> {
    set d | d in RawDays(t) && d <= through && !Clean(t, d)
  }

  /** With no cap on days, what is pending is exactly the raw days up to `through` that are not
      clean. */
  lemma PendingIsUnclean(w: World, through: Day)
    requires Inv(w)
    ensures PendingSet(w.tables, through) == Unclean(w.tables, through)
  {
    forall d | d in RawDays(w.tables) && d <= through
      ensures Due(w.tables, through, d) <==> !Clean(w.tables, d)
    {
      RawIsDay(w.tables, d);
      if Clean(w.tables, d) {
        assert d in CleanDays(w.tables);
      }
    }
  }

  lemma CleanAfterPass(t: Tables, days: set<Day>)
    ensures CleanDays(RolledUp(t, days)) == CleanDays(t) + days
    ensures forall d :: d !in days ==> (Dirty(RolledUp(t, days), d) <==> Dirty(t, d))
    ensures forall d :: d in days ==> !Dirty(RolledUp(t, days), d)
  {
    hide Recorded, Viewed;
    var t' := RolledUp(t, days);
    assert forall c :: c in t'.daily <==> c in t.daily || c in days;
  }

  lemma DueAfterPass(t: Tables, through: Day, maxDays: nat, d: Day)
    ensures var days := Rolled(t, through, maxDays);
      d in PendingSet(RolledUp(t, days), through) <==> d in PendingSet(t, through) && d !in days
  {
    var days := Rolled(t, through, maxDays);
    CleanAfterPass(t, days);
    assert RawDays(RolledUp(t, days)) == RawDays(t);
    hide RolledUp, CleanDays, Dirty, RawDays, Rolled;
    if d in days {
      PendingIsRaw(t, through, maxDays, d);
    } else if d in PendingSet(t, through) {
      forall c | c in days ensures c < d {
        LeftOutIsNewer(t, through, maxDays, c, d);
      }
    }
  }

  lemma PassSize(t: Tables, through: Day, maxDays: nat)
    ensures |Rolled(t, through, maxDays)| == (if maxDays <= |PendingSet(t, through)| then maxDays else |PendingSet(t, through)|)
  {
    hide PendingSet;
    DistinctSize(Pending(t, through, maxDays));
  }

  /** A pass clears exactly the oldest `maxDays` pending days, from any store. */
  lemma PassClearsOldest(t: Tables, through: Day, maxDays: nat)
    ensures var t' := RolledUp(t, Rolled(t, through, maxDays));
      && PendingSet(t', through) == PendingSet(t, through) - Rolled(t, through, maxDays)
      && |Rolled(t, through, maxDays)| == (if maxDays <= |PendingSet(t, through)| then maxDays else |PendingSet(t, through)|)
      && forall x, y :: x in Rolled(t, through, maxDays) && y in PendingSet(t', through) ==> x < y
  {
    hide PendingSet, RolledUp;
    var days := Rolled(t, through, maxDays);
    var before, after := PendingSet(t, through), PendingSet(RolledUp(t, days), through);
    forall d ensures d in after <==> d in before - days {
      DueAfterPass(t, through, maxDays, d);
    }
    forall x, y | x in days && y in after ensures x < y {
      PrefixIsOldest(Sorted(before), maxDays, x, y);
    }
    PassSize(t, through, maxDays);
  }

  lemma {:induction false} DistinctSize(s: seq<int>)
    requires IsAscending(s)
    ensures |Members(multiset(s))| == |s|
  {
    if s == [] {
      assert Members(multiset(s)) == {};
    } else {
      var n := |s| - 1;
      DistinctSize(s[..n]);
      assert s == s[..n] + [s[n]];
      assert Members(multiset(s)) == Members(multiset(s[..n])) + {s[n]};
      assert s[n] !in s[..n];
    }
  }
}
