/** When the rollup runs: a task that queues its own next run, and catches up in bounded passes. */
module Schedule {
  import opened Options
  import opened Queries
  import opened Metrics
  import opened Breakdowns
  import opened Ascending
  import opened Rollup
  import opened RollupRuns
  import opened AnalyticsStore
  import opened Readings
  import opened Writes

  const ROLLUP_AT_MS := 600_000  // 00:10 UTC
  const ROLLUP_BATCH_DAYS: nat := 14
  const MAX_PASSES_PER_RUN: nat := 3

  predicate IsRollupInstant(t: int) {
    t % DAY_MS == ROLLUP_AT_MS
  }

  /** The first rollup instant later than `now`. */
  function NextRollupAt(now: nat): nat {
    var today := now / DAY_MS * DAY_MS + ROLLUP_AT_MS;
    if today <= now then today + DAY_MS else today
  }

  /** It is the only such instant within a day after `now`. */
  lemma NextIsUnique(now: nat, t: int)
    ensures t == NextRollupAt(now) <==> IsRollupInstant(t) && now < t <= now + DAY_MS
  {
    var next := NextRollupAt(now);
    var day := now / DAY_MS;
    assert day * DAY_MS <= now < day * DAY_MS + DAY_MS;
    InstantOf(if day * DAY_MS + ROLLUP_AT_MS <= now then day + 1 else day);
    if IsRollupInstant(t) {
      assert t == t / DAY_MS * DAY_MS + ROLLUP_AT_MS;
    }
  }

  lemma InstantOf(day: int)
    ensures IsRollupInstant(day * DAY_MS + ROLLUP_AT_MS)
  {
    var t := day * 86_400_000 + 600_000;
    assert t / 86_400_000 == day;
  }

  /** What a run of due instant `due` measures its successor from: the later of it and the clock. */
  function RunBase(now: nat, due: Option<nat>): nat {
    if due.Some? && now < due.value then due.value else now
  }

  /** A run never queues its own instant again, even fired early, and never one already past. */
  lemma SuccessorIsLater(now: nat, due: Option<nat>)
    ensures now < NextRollupAt(RunBase(now, due))
    ensures due.Some? ==> due.value < NextRollupAt(RunBase(now, due))
  {
    NextIsUnique(RunBase(now, due), NextRollupAt(RunBase(now, due)));
  }

  /** Every run of one instant, early or duplicate, started before the next instant, queues that
      same next instant: the keys coincide and only one task is stored. */
  lemma DuplicatesCollapse(due: nat, now: nat)
    requires IsRollupInstant(due) && now < due + DAY_MS
    ensures NextRollupAt(RunBase(now, Some(due))) == due + DAY_MS
  {
    InstantOf(due / DAY_MS + 1);
    assert due + DAY_MS == (due / DAY_MS + 1) * DAY_MS + ROLLUP_AT_MS;
    NextIsUnique(RunBase(now, Some(due)), due + DAY_MS);
  }

  // ---- the chain of regular runs ----

  /** The regular instants ever queued, and the clock. */
  datatype Chain = Chain(instants: set<nat>, now: nat)

  /** Ingest seeding a run, a queued run firing (early, late, or again), and time passing. */
  datatype ChainStep = Seed | Fire(due: nat) | Wait(ms: nat)

  /** A run may fire early, by less than a day. */
  predicate Fires(c: Chain, s: ChainStep) {
    s.Fire? ==> s.due in c.instants && s.due < c.now + DAY_MS
  }

  function ChainAfter(c: Chain, s: ChainStep): Chain {
    match s
    case Seed => c.(instants := c.instants + {NextRollupAt(c.now)})
    case Fire(due) => c.(instants := c.instants + {NextRollupAt(RunBase(c.now, Some(due)))})
    case Wait(ms) => c.(now := c.now + ms)
  }

  ghost predicate NotForked(c: Chain) {
    forall t :: t in c.instants ==>
      IsRollupInstant(t) && (t <= c.now || t == NextRollupAt(c.now) || t == NextRollupAt(c.now) + DAY_MS)
  }

  lemma ChainStepKeeps(c: Chain, s: ChainStep)
    requires NotForked(c) && Fires(c, s)
    ensures NotForked(ChainAfter(c, s))
  {
    var next, c' := NextRollupAt(c.now), ChainAfter(c, s);
    NextIsUnique(c.now, next);
    NextIsUnique(next, next + DAY_MS);
    NextIsUnique(c'.now, NextRollupAt(c'.now));
    match s
    case Seed =>
    case Fire(due) =>
    case Wait(ms) =>
      if next <= c'.now {
        NextIsUnique(c'.now, next + DAY_MS);
      } else {
        NextIsUnique(c'.now, next);
      }
  }

  ghost predicate IsChain(cs: seq<Chain>, steps: seq<ChainStep>) {
    && |cs| == |steps| + 1 && cs[0].instants == {}
    && forall i :: 0 <= i < |steps| ==> Fires(cs[i], steps[i]) && cs[i + 1] == ChainAfter(cs[i], steps[i])
  }

  /** What a run is to the chain: one that fires ahead of its instant counts from that instant; a late
      run, a catch-up or one with no instant counts from the clock, like a seed. */
  function RunStep(now: nat, due: Option<nat>): ChainStep {
    if due.Some? && now < due.value then Fire(due.value) else Seed
  }

  /** A run of the scheduler, whose early instant is in the queue, leaves the chain unforked. */
  lemma RunNeverForks(c: Chain, due: Option<nat>)
    requires NotForked(c) && (due.Some? && c.now < due.value ==> due.value in c.instants && due.value < c.now + DAY_MS)
    ensures NotForked(ChainAfter(c, RunStep(c.now, due)))
  {
    hide NotForked, ChainAfter;
    ChainStepKeeps(c, RunStep(c.now, due));
  }

  /** However often runs are seeded, fire early, late or twice, at most the next two instants are
      ever queued ahead of the clock: duplicates never start a second chain. */
  lemma {:induction false} ChainNeverForks(cs: seq<Chain>, steps: seq<ChainStep>, i: nat)
    requires IsChain(cs, steps) && i < |cs|
    ensures NotForked(cs[i])
  {
    if i == 0 {
    } else {
      hide NotForked, NextRollupAt, RunBase, IsRollupInstant;
      ChainNeverForks(cs, steps, i - 1);
      ChainStepKeeps(cs[i - 1], steps[i - 1]);
    }
  }

  lemma ChainGrows(cs: seq<Chain>, steps: seq<ChainStep>, s: ChainStep)
    requires IsChain(cs, steps) && Fires(cs[|steps|], s)
    ensures IsChain(cs + [ChainAfter(cs[|steps|], s)], steps + [s])
  {
    hide ChainAfter;
  }

  datatype Key = Regular(at: nat) | CatchUp(at: nat)

  /** The regular instants with a key in the outbox. */
  function Instants(queued: map<Key, nat>): set<nat> {
    set k | k in queued && k.Regular? :: k.at
  }

  // ---- what must be queued, told without the functions above ----

  /** The first ten past midnight UTC later than `base`. */
  ghost predicate IsNext(at: nat, base: nat) {
    at % 86_400_000 == 600_000 && base < at <= base + 86_400_000
  }

  /** One task more, for the instant after `base`, unless it is there: due then, by a clock at `now`. */
  ghost predicate Queues(queued: map<Key, nat>, base: nat, now: nat, queued': map<Key, nat>) {
    exists at: nat :: IsNext(at, base) &&
      queued' == if Regular(at) in queued then queued else queued[Regular(at) := if at >= now then at - now else 0]
  }

  /** A catch-up task more, to run at once. */
  ghost predicate QueuesCatchUp(queued: map<Key, nat>, now: nat, queued': map<Key, nat>) {
    queued' == if CatchUp(now) in queued then queued else queued[CatchUp(now) := 0]
  }

  /** What a run queues, having found `pending` days to roll: nothing for none; the next run, counted from
      its own instant if it came early; and a catch-up besides for 42 days or more. */
  ghost predicate RunQueues(queued: map<Key, nat>, due: Option<nat>, now: nat, pending: nat, queued': map<Key, nat>) {
    var base := if due.Some? && due.value > now then due.value else now;
    if pending == 0 then queued' == queued
    else if pending < 42 then Queues(queued, base, now, queued')
    else exists q :: Queues(queued, base, now, q) && QueuesCatchUp(q, now, queued')
  }

  /** The days before `today` with rows and no clean aggregate. */
  ghost function Unrolled(t: Tables, today: Day): set<Day> {
    set e | e in t.events && e.day < today && !IsClean(t, e.day) :: e.day
  }

  lemma UnrolledIs(t: Tables, today: Day)
    ensures Unrolled(t, today) == Unclean(t, today - 1)
  {
  }

  lemma RunQueued(queued: map<Key, nat>, q: map<Key, nat>, due: Option<nat>, now: nat, pending: nat, queued': map<Key, nat>)
    requires if pending == 0 then q == queued else Queues(queued, RunBase(now, due), now, q)
    requires if pending < 42 then queued' == q else QueuesCatchUp(q, now, queued')
    ensures RunQueues(queued, due, now, pending, queued')
  {
    hide Queues;
  }

  lemma NextIs(base: nat)
    ensures IsNext(NextRollupAt(base), base)
  {
    NextIsUnique(base, NextRollupAt(base));
  }

  lemma RunStepAdds(c: Chain, due: Option<nat>)
    ensures ChainAfter(c, RunStep(c.now, due)).instants == c.instants + {NextRollupAt(RunBase(c.now, due))}
  {
  }

  lemma OneMoreInstant(queued: map<Key, nat>, at: nat, delayMs: nat)
    ensures Instants(queued[Regular(at) := delayMs]) == Instants(queued) + {at}
    ensures Regular(at) in queued ==> Instants(queued) == Instants(queued) + {at}
    ensures Instants(queued[CatchUp(at) := delayMs]) == Instants(queued)
  {
    var more := queued[Regular(at) := delayMs];
    assert Regular(at) in more && Regular(at).Regular?;
    forall t ensures t in Instants(more) <==> t in Instants(queued) + {at} {
      assert t in Instants(more) <==> Regular(t) in more;
      assert t in Instants(queued) <==> Regular(t) in queued;
    }
    var other := queued[CatchUp(at) := delayMs];
    forall t ensures t in Instants(other) <==> t in Instants(queued) {
      assert t in Instants(other) <==> Regular(t) in other;
      assert t in Instants(queued) <==> Regular(t) in queued;
    }
    if Regular(at) in queued {
      assert at in Instants(queued);
    }
  }

  /** What comes to a scheduler: an ingest, which seeds the chain, a run, or time. */
  datatype RunnerEvent =
    | Seeds(batch: seq<Submission>)
    | Runs(due: Option<nat>, keepDays: Option<int>)
    | Waits(ms: nat)

  /** A run ahead of its instant is one of a queued instant, by less than a day. */
  predicate Happens(queued: set<nat>, now: nat, e: RunnerEvent) {
    e.Runs? && e.due.Some? && now < e.due.value ==> e.due.value in queued && e.due.value < now + DAY_MS
  }

  function StepOf(c: Chain, e: RunnerEvent): ChainStep {
    match e
    case Seeds(_) => Seed
    case Runs(due, _) => RunStep(c.now, due)
    case Waits(ms) => Wait(ms)
  }

  lemma StepTaken(c: Chain, e: RunnerEvent, c': Chain)
    requires Happens(c.instants, c.now, e) && c' != c
    requires e.Waits? ==> c'.instants == c.instants && c'.now == c.now + e.ms
    requires e.Seeds? ==> c'.now == c.now && c'.instants == ChainAfter(c, Seed).instants
    requires e.Runs? ==> c'.now == c.now && c'.instants in {c.instants, ChainAfter(c, RunStep(c.now, e.due)).instants}
    ensures Fires(c, StepOf(c, e)) && c' == ChainAfter(c, StepOf(c, e))
  {
  }

  class Runner {
    const store: Store
    var backfilled: bool       // the KV marker of the one-time backfill
    var queued: map<Key, nat>  // the outbox: each key once, with the delay it was stored with

    /** The store is sound, and skips no day once the backfill is marked as done. */
    ghost predicate Ready()
      reads this, store
    {
      store.Repairable() && (backfilled ==> NoneSkipped(store.Now()))
    }

    constructor (store: Store)
      requires store.Repairable()
      ensures this.store == store && !backfilled && queued == map[] && Ready()
    {
      this.store := store;
      backfilled, queued := false, map[];
    }

    /** A repeat of a key is a no-op. */
    method Enqueue(key: Key, delayMs: nat)
      modifies this`queued
      ensures queued == if key in old(queued) then old(queued) else old(queued)[key := delayMs]
    {
      if key !in queued {
        queued := queued[key := delayMs];
      }
    }

    method ScheduleRollup(after: nat, now: nat)
      modifies this`queued
      ensures Regular(NextRollupAt(after)) in queued
      ensures forall k :: k in queued ==> k in old(queued) || k == Regular(NextRollupAt(after))
      ensures forall k :: k in old(queued) ==> k in queued && queued[k] == old(queued)[k]
      ensures Regular(NextRollupAt(after)) !in old(queued) ==>
        queued[Regular(NextRollupAt(after))] == if NextRollupAt(after) >= now then NextRollupAt(after) - now else 0
      ensures Instants(queued) == Instants(old(queued)) + {NextRollupAt(after)}
      ensures Queues(old(queued), after, now, queued)
    {
      NextIs(after);
      var at := NextRollupAt(after);
      OneMoreInstant(queued, at, if at >= now then at - now else 0);
      Enqueue(Regular(at), if at >= now then at - now else 0);
    }

    /** What ingest does: seed the chain. */
    method EnsureRollupScheduled()
      modifies this`queued
      ensures Instants(queued) == ChainAfter(Chain(Instants(old(queued)), store.nowMs), Seed).instants
      ensures Queues(old(queued), store.nowMs, store.nowMs, queued)
    {
      ScheduleRollup(store.nowMs, store.nowMs);
    }

    /** The scheduled run: backfill once, queue the next run if anything is pending, roll in a few
        passes, hand the rest to a catch-up task, prune. From any sound store, days skipped by an older
        version included, it catches up exactly when fewer than three full batches of raw days were
        unclean, and then leaves none unclean up to yesterday. To the chain it is one step. */
    method RunScheduledRollup(due: Option<nat>, keepDays: Option<int>) returns (caughtUp: bool)
      requires Ready()
      modifies this`backfilled, this`queued, store`events, store`daily, store`pages, store`nextToken
      ensures Ready() && store.Valid() && backfilled
      ensures store.accepted == old(store.accepted) && store.nowMs == old(store.nowMs)
      ensures caughtUp <==> |old(Unrolled(store.Now(), store.Today()))| < 42
      ensures caughtUp ==> forall e :: e in old(store.events) && e.day < store.Today() ==> IsClean(store.Now(), e.day)
      ensures forall d :: IsClean(store.Now(), d) ==> RecordTells(store.daily[d].counts, store.accepted, d, d)
      // Raw rows go only if asked, and only of clean days past `keepDays`.
      ensures keepDays.None? ==> store.events == old(store.events)
      ensures keepDays.Some? ==>
        PruneDoes(store.Now().(events := old(store.events)), store.Today(), keepDays.value, store.Now())
      ensures RunQueues(old(queued), due, store.nowMs, |old(Unrolled(store.Now(), store.Today()))|, queued)
      ensures Instants(queued) ==
        if old(Unclean(store.Now(), store.Today() - 1)) == {} then Instants(old(queued))
        else ChainAfter(Chain(Instants(old(queued)), store.nowMs), RunStep(store.nowMs, due)).instants
      ensures forall k :: k in queued ==>
        (k in old(queued) || k == Regular(NextRollupAt(RunBase(store.nowMs, due))) || (k == CatchUp(store.nowMs) && !caughtUp))
    {
      hide Sound, Next, PrunedTo, Recorded, PendingSet, Pending, Cutoff, Unclean, NoneSkipped;
      hide Instants, NextRollupAt, RunStep, ChainAfter, Queues, Unrolled, IsClean, RecordTells, PruneDoes, AreOldestDue;
      UnrolledIs(store.Now(), store.Today());
      ghost var pending, queued0 := Unrolled(store.Now(), store.Today()), queued;
      var through := store.Today() - 1;
      BackfillOnce(through);
      PendingIsUnclean(store.State(), through);
      var first := store.PendingDays(through, ROLLUP_BATCH_DAYS);
      QueueNext(first, through, due);
      RunStepAdds(Chain(Instants(old(queued)), store.nowMs), due);
      ghost var queued1 := queued;
      var more := Passes(through, first);
      if more {
        OneMoreInstant(queued, store.nowMs, 0);
        Enqueue(CatchUp(store.nowMs), 0);
      } else {
        AllRolled(store.State(), through);
      }
      if keepDays.Some? {
        ghost var before := store.State();
        var _ := store.PruneRawEvents(keepDays.value);
        PruneKeepsClean(before, keepDays.value, store.State());
      }
      CleanTells(store.State());
      caughtUp := !more;
      RunQueued(queued0, queued1, due, store.nowMs, |pending|, queued);
    }

    /** Queued first, so that a failing rollup still has a successor. */
    method QueueNext(first: seq<Day>, through: Day, due: Option<nat>)
      requires first == Pending(store.Now(), through, ROLLUP_BATCH_DAYS)
      modifies this`queued
      ensures Instants(queued) ==
        if PendingSet(store.Now(), through) == {} then Instants(old(queued))
        else Instants(old(queued)) + {NextRollupAt(RunBase(store.nowMs, due))}
      ensures if PendingSet(store.Now(), through) == {} then queued == old(queued)
              else Queues(old(queued), RunBase(store.nowMs, due), store.nowMs, queued)
      ensures forall k :: k in queued ==> (k in old(queued) || k == Regular(NextRollupAt(RunBase(store.nowMs, due))))
    {
      if |first| > 0 {
        ScheduleRollup(RunBase(store.nowMs, due), store.nowMs);
      }
    }

    /** Whatever days were skipped, none is afterwards; the unclean raw days are the same. */
    method BackfillOnce(through: Day)
      requires Ready()
      modifies this`backfilled, store`daily, store`nextToken
      ensures store.Valid() && backfilled
      ensures Unclean(store.Now(), through) == old(Unclean(store.Now(), through))
    {
      if !backfilled {
        ghost var before := store.Now();
        hide Sound, NoneSkipped, Unclean, Next, Recorded;
        var _ := store.FlagUnrolledDays();
        UncleanStays(before, store.Now(), through);
        backfilled := true;
      }
    }

    /** One pass over what is pending; the first is handed the days its caller already asked for. */
    method Pass(through: Day, given: Option<seq<Day>>) returns (days: seq<Day>)
      requires store.Valid() && through < store.Today()
      requires given.Some? ==> given.value == Pending(store.Now(), through, ROLLUP_BATCH_DAYS)
      modifies store`daily, store`pages
      ensures store.Valid() && store.nowMs == old(store.nowMs)
      ensures days == Pending(old(store.Now()), through, ROLLUP_BATCH_DAYS)
      ensures PendingSet(store.Now(), through) == old(PendingSet(store.Now(), through)) - DaySet(days)
    {
      hide Sound, NoneSkipped, RolledUp, PendingSet, Pending, PageRows, Recorded;
      ghost var t := store.Now();
      if given.Some? {
        days := given.value;
        var _ := store.RollGiven(through, ROLLUP_BATCH_DAYS, days);
      } else {
        var written;
        days, written := store.RollupPending(through, ROLLUP_BATCH_DAYS);
      }
      PassClearsOldest(t, through, ROLLUP_BATCH_DAYS);
      assert Rolled(t, through, ROLLUP_BATCH_DAYS) == DaySet(days);
    }

    /** At most three passes; `more` when the last one was still a full batch of new days. */
    method Passes(through: Day, first: seq<Day>) returns (more: bool)
      requires store.Valid() && through < store.Today()
      requires first == Pending(store.Now(), through, ROLLUP_BATCH_DAYS)
      modifies store`daily, store`pages
      ensures store.Valid() && store.nowMs == old(store.nowMs)
      ensures more <==> |old(PendingSet(store.Now(), through))| >= MAX_PASSES_PER_RUN * ROLLUP_BATCH_DAYS
      ensures !more ==> PendingSet(store.Now(), through) == {}
      ensures more ==>
        |PendingSet(store.Now(), through)| == |old(PendingSet(store.Now(), through))| - MAX_PASSES_PER_RUN * ROLLUP_BATCH_DAYS
    {
      hide Sound, NoneSkipped, PendingSet;
      ghost var all := PendingSet(store.Now(), through);
      var done: set<Day> := {};
      more := false;
      var i := 0;
      while i < MAX_PASSES_PER_RUN
        invariant 0 <= i <= MAX_PASSES_PER_RUN
        invariant store.Valid() && store.nowMs == old(store.nowMs)
        invariant PendingSet(store.Now(), through) == all - done && done <= all
        invariant i == 0 ==> first == Pending(store.Now(), through, ROLLUP_BATCH_DAYS)
        invariant |done| == i * ROLLUP_BATCH_DAYS && (i > 0 ==> more)
      {
        ghost var t := store.Now();
        var days := Pass(through, if i == 0 then Some(first) else None);
        PassIsNew(t, through, days, all, done);
        var new' := DaySet(days) - done;
        done := done + DaySet(days);
        more := |days| == ROLLUP_BATCH_DAYS && |new'| > 0;
        if !more {
          return;
        }
        i := i + 1;
      }
      SplitSize(all, done);
    }

    static lemma SplitSize(all: set<Day>, done: set<Day>)
      requires done <= all
      ensures |all| == |done| + |all - done|
    {
      assert all == done + (all - done);
    }

    /** The days of a pass are all new, and a short pass was the last one. */
    static lemma PassIsNew(t: Tables, through: Day, days: seq<Day>, all: set<Day>, done: set<Day>)
      requires days == Pending(t, through, ROLLUP_BATCH_DAYS)
      requires PendingSet(t, through) == all - done && done <= all
      ensures DaySet(days) <= all - done && all - (done + DaySet(days)) == (all - done) - DaySet(days)
      ensures |DaySet(days) - done| == |days|
      ensures |done + DaySet(days)| == |done| + |days|
      ensures |days| < ROLLUP_BATCH_DAYS ==> DaySet(days) == all - done && |all| == |done| + |days|
      ensures |days| == ROLLUP_BATCH_DAYS ==> |all| >= |done| + ROLLUP_BATCH_DAYS
    {
      hide PendingSet, Pending, DaySet;
      var new' := DaySet(days);
      PassSizes(t, through, days);
      Grown(all, done, new');
      if |days| < ROLLUP_BATCH_DAYS {
        assert |all - done| == |days|;
      } else {
        SplitSize(all - done, new');
      }
    }

    static lemma Grown(all: set<Day>, done: set<Day>, more: set<Day>)
      requires done <= all && more <= all - done
      ensures all - (done + more) == (all - done) - more
      ensures more - done == more
      ensures |done + more| == |done| + |more|
      ensures |all| == |done| + |all - done|
    {
      SplitSize(all, done);
      assert (done + more) - done == more;
      SplitSize(done + more, done);
    }

    static lemma PassSizes(t: Tables, through: Day, days: seq<Day>)
      requires days == Pending(t, through, ROLLUP_BATCH_DAYS)
      ensures DaySet(days) <= PendingSet(t, through) && |DaySet(days)| == |days|
      ensures |days| < ROLLUP_BATCH_DAYS ==> DaySet(days) == PendingSet(t, through)
      ensures |days| == ROLLUP_BATCH_DAYS ==> ROLLUP_BATCH_DAYS <= |PendingSet(t, through)|
      ensures |days| <= ROLLUP_BATCH_DAYS
    {
      hide PendingSet;
      var order := Sorted(PendingSet(t, through));
      assert forall d :: d in days ==> d in order;
      DistinctSize(days);
      assert Members(multiset(days)) == DaySet(days);
      if |days| < ROLLUP_BATCH_DAYS {
        assert days == order;
      }
    }

    static lemma UncleanStays(t: Tables, t': Tables, through: Day)
      requires t'.events == t.events && forall d :: Clean(t', d) <==> Clean(t, d)
      ensures Unclean(t', through) == Unclean(t, through)
    {
      assert forall d :: d in RawDays(t') <==> d in RawDays(t);
      hide RawDays, Clean;
      forall d ensures d in Unclean(t', through) <==> d in Unclean(t, through) {
      }
    }

    static lemma AllRolled(w: World, through: Day)
      requires Inv(w) && PendingSet(w.tables, through) == {}
      ensures forall e :: e in w.tables.events && e.day <= through ==> IsClean(w.tables, e.day)
    {
      PendingIsUnclean(w, through);
      forall e | e in w.tables.events && e.day <= through ensures IsClean(w.tables, e.day) {
        assert e.day in RawDays(w.tables) && e.day !in PendingSet(w.tables, through);
      }
    }

    static lemma PruneKeepsClean(w: World, keepDays: int, w': World)
      requires Next(w, Prune(keepDays), w')
      ensures w'.today == w.today && w'.tables.daily == w.tables.daily
      ensures forall d :: IsClean(w'.tables, d) <==> IsClean(w.tables, d)
    {
    }

    static lemma CleanTells(w: World)
      requires Sound(w)
      ensures forall d :: IsClean(w.tables, d) ==> RecordTells(w.tables.daily[d].counts, w.accepted, d, d)
    {
      hide RecordTells, ReadBack;
      forall d | IsClean(w.tables, d) ensures RecordTells(w.tables.daily[d].counts, w.accepted, d, d) {
        assert DayHolds(w, d);
        hide Recorded, On;
        DayTells(w.accepted, d, false);
      }
    }

    // ---- a whole life ----

    method Handle(e: RunnerEvent)
      requires Ready() && Happens(Instants(queued), store.nowMs, e)
      modifies this`backfilled, this`queued, store
      ensures Ready()
      ensures e.Waits? ==> store.nowMs == old(store.nowMs) + e.ms && queued == old(queued)
      ensures !e.Waits? ==> store.nowMs == old(store.nowMs)
      ensures e.Seeds? ==> Instants(queued) == ChainAfter(Chain(Instants(old(queued)), store.nowMs), Seed).instants
      ensures e.Runs? ==>
        || Instants(queued) == Instants(old(queued))
        || Instants(queued) == ChainAfter(Chain(Instants(old(queued)), store.nowMs), RunStep(store.nowMs, e.due)).instants
    {
      hide Sound, NoneSkipped, Next, PrunedTo, Instants, NextRollupAt, RunBase, RunStep, ChainAfter, Unclean, Cutoff, Kept;
      match e {
        case Seeds(batch) =>
          var _ := store.IngestEvents(batch);
          EnsureRollupScheduled();
        case Runs(due, keepDays) =>
          var _ := RunScheduledRollup(due, keepDays);
        case Waits(ms) =>
          store.Elapse(ms);
      }
    }

    /** From its creation, whatever ingests, runs and waits come (a run fired ahead of an instant that is not
        queued, or by a day or more, is passed over), the instants queued are a chain, so at most the next
        two are ever ahead of the clock; and the store stays sound. */
    method Live(es: seq<RunnerEvent>) returns (ghost cs: seq<Chain>, ghost steps: seq<ChainStep>)
      requires Ready() && queued == map[]
      modifies this`backfilled, this`queued, store
      ensures IsChain(cs, steps) && cs[|steps|] == Chain(Instants(queued), store.nowMs)
      ensures NotForked(Chain(Instants(queued), store.nowMs))
      ensures Ready()
    {
      cs, steps := [Chain(Instants(queued), store.nowMs)], [];
      for i := 0 to |es|
        invariant Ready() && IsChain(cs, steps) && cs[|steps|] == Chain(Instants(queued), store.nowMs)
      {
        hide Ready, Instants, IsChain, ChainAfter, RunStep;
        if Happens(Instants(queued), store.nowMs, es[i]) {
          ghost var before := cs[|steps|];
          Handle(es[i]);
          ghost var after := Chain(Instants(queued), store.nowMs);
          if after != before {
            ghost var s := StepOf(before, es[i]);
            StepTaken(before, es[i], after);
            ChainGrows(cs, steps, s);
            cs, steps := cs + [after], steps + [s];
          }
        }
      }
      ChainNeverForks(cs, steps, |steps|);
    }
  }
}
