/** Computing days from raw events: grouped passes, one per breakdown, over chunks of days. */
module ComputeDays {
  import opened Options
  import opened Chunks
  import opened Queries
  import opened Metrics
  import opened Breakdowns

  // ---- GROUP BY keys ----

  /** `SELECT day, column ... WHERE kind = 'pageview' AND day IN days` */
  function ViewKey(days: set<Day>, c: Column): Event -> Option<(Day, Option<string>)> {
    (e: Event) => if e.kind == Pageview && e.day in days then Some((e.day, ColumnOf(e, c))) else None
  }

  function KeyBucket(d: Day): ((Day, Option<string>)) -> Option<string> {
    (k: (Day, Option<string>)) => if k.0 == d then Some(Bucket(k.1)) else None
  }

  /** `SELECT day, sessionId ... WHERE kind = 'pageview' AND sessionId IS NOT NULL AND day IN days` */
  function VisitKey(days: set<Day>): Event -> Option<(Day, string)> {
    (e: Event) => if e.kind == Pageview && e.sessionId.Some? && e.day in days then Some((e.day, e.sessionId.value)) else None
  }

  function KeySession(d: Day): ((Day, string)) -> Option<string> {
    (k: (Day, string)) => if k.0 == d then Some(k.1) else None
  }

  function EngagedDay(days: set<Day>): Event -> Option<Day> {
    (e: Event) => if e.kind == Engagement && e.day in days then Some(e.day) else None
  }

  lemma KeyBuckets(s: seq<Event>, days: set<Day>, c: Column, d: Day)
    requires d in days
    ensures Select(Select(s, ViewKey(days, c)), KeyBucket(d)) == Select(On(s, d), BucketOf(c))
  {
    var both := (e: Event) => if e.kind == Pageview && e.day == d then Some(Bucket(ColumnOf(e, c))) else None;
    SelectCompose(s, ViewKey(days, c), KeyBucket(d), both);
    SelectCompose(s, OnDay(d), BucketOf(c), both);
  }

  lemma KeySessions(s: seq<Event>, days: set<Day>, d: Day)
    requires d in days
    ensures Select(Select(s, VisitKey(days)), KeySession(d)) == Select(On(s, d), SessionOf())
  {
    var both := (e: Event) => if e.kind == Pageview && e.day == d then e.sessionId else None;
    SelectCompose(s, VisitKey(days), KeySession(d), both);
    SelectCompose(s, OnDay(d), SessionOf(), both);
  }

  lemma {:induction false} KeySessionCount(keys: seq<(Day, string)>, d: Day, x: string)
    ensures multiset(Select(keys, KeySession(d)))[x] == multiset(keys)[(d, x)]
  {
    if keys == [] {
    } else {
      KeySessionCount(keys[1..], d, x);
      OneMore(keys[0], keys[1..], KeySession(d));
      assert keys == [keys[0]] + keys[1..];
    }
  }

  /** The groups of day `d` among `done`. */
  function OfDay(done: set<(Day, string)>, d: Day): set<(Day, string)> {
    set k | k in done && k.0 == d
  }

  function SingleViews(done: set<(Day, string)>, keys: seq<(Day, string)>, d: Day): set<(Day, string)> {
    set k | k in done && k.0 == d && multiset(keys)[k] == 1
  }

  /** One group per session of the day, and one-view groups are its bounces. */
  lemma SessionGroups(s: seq<Event>, days: set<Day>, d: Day)
    requires d in days
    ensures var keys := Select(s, VisitKey(days));
      && |OfDay(Groups(keys), d)| == Measure(On(s, d)).sessions
      && |SingleViews(Groups(keys), keys, d)| == Measure(On(s, d)).bounces
  {
    var keys := Select(s, VisitKey(days));
    var sids := multiset(Select(On(s, d), SessionOf()));
    KeySessions(s, days, d);
    forall x: string ensures sids[x] == multiset(keys)[(d, x)] {
      KeySessionCount(keys, d, x);
    }
    forall x: string ensures x in sids <==> (d, x) in keys {
      assert (d, x) in multiset(keys) <==> (d, x) in keys;
    }
    PairCount(Members(sids), d, OfDay(Groups(keys), d));
    PairCount(Singles(sids), d, SingleViews(Groups(keys), keys, d));
  }

  // ---- the passes ----

  lemma NewBucket(keys: seq<(Day, Option<string>)>, done: set<(Day, Option<string>)>, key: (Day, Option<string>))
    requires key !in done
    ensures Bucket(key.1) in INHERITED ==> Bucket(key.1) !in Picked(keys, done, KeyBucket(key.0))
  {
    assert "unknown" !in INHERITED;
    hide INHERITED, Picked;
    if Bucket(key.1) in INHERITED {
      OneGroup(keys, done, key.0, Bucket(key.1));
    }
  }

  /** `m` with one breakdown, empty so far, that of `counts`. Pageviews are totalled on the device pass
      only. */
  function WithCounts(m: DayRecord, c: Column, counts: Counts): DayRecord {
    match c
    case Device => m.(byDevice := Tally(counts), pageviews := m.pageviews + |counts|)
    case Source => m.(bySource := Tally(counts))
    case Country => m.(byCountry := Tally(counts))
  }

  function AddGroup(m: DayRecord, c: Column, key: Option<string>, n: nat): DayRecord {
    match c
    case Device => m.(byDevice := AddInto(m.byDevice, key, Number(n)), pageviews := m.pageviews + n)
    case Source => m.(bySource := AddInto(m.bySource, key, Number(n)))
    case Country => m.(byCountry := AddInto(m.byCountry, key, Number(n)))
  }

  lemma AddGroupAdds(m: DayRecord, c: Column, counts: Counts, key: Option<string>, n: nat)
    requires n > 0 && (Bucket(key) in INHERITED ==> Bucket(key) !in counts)
    ensures AddGroup(WithCounts(m, c, counts), c, key, n) == WithCounts(m, c, Plus(counts, Bucket(key), n))
  {
    TallyStep(counts, key, n);
    hide INHERITED, Tally, AddInto;
  }

  /** Only null, empty and "unknown" keys share a bucket: one of an inherited name has one group. */
  lemma {:induction false} OneGroup(keys: seq<(Day, Option<string>)>, done: set<(Day, Option<string>)>, d: Day, k: string)
    requires k in INHERITED && (d, Some(k)) !in done
    ensures k !in Picked(keys, done, KeyBucket(d))
  {
    if keys != [] {
      OneGroup(keys[1..], done, d, k);
      assert k != "unknown";
      hide INHERITED;
      var key := keys[0];
      if key.0 == d && Bucket(key.1) == k {
        assert key == (d, Some(k));
      }
    }
  }

  /** Day `d` of `out` after the groups `done` of a breakdown. */
  ghost predicate BrokenDown(keys: seq<(Day, Option<string>)>, done: set<(Day, Option<string>)>, c: Column, d: Day,
                             before: DayRecord, after: DayRecord) {
    after == WithCounts(before, c, Picked(keys, done, KeyBucket(d)))
  }

  lemma BreakdownStarts(keys: seq<(Day, Option<string>)>, c: Column, d: Day, m: DayRecord)
    requires CellsOf(m, c) == map[]
    ensures BrokenDown(keys, {}, c, d, m, m)
  {
    assert Tally(multiset{}) == map[];
    PickedNone(keys, KeyBucket(d));
  }

  lemma BreakdownStep(keys: seq<(Day, Option<string>)>, done: set<(Day, Option<string>)>, key: (Day, Option<string>),
                      c: Column, d: Day, before: DayRecord, m: DayRecord)
    requires key in keys && key !in done && BrokenDown(keys, done, c, d, before, m)
    ensures BrokenDown(keys, done + {key}, c, d, before, if key.0 == d then AddGroup(m, c, key.1, multiset(keys)[key]) else m)
  {
    GroupStep(keys, done, key, KeyBucket(d));
    if key.0 == d {
      NewBucket(keys, done, key);
      assert key in multiset(keys);
      hide INHERITED, AddGroup, WithCounts, Picked, Bucket;
      AddGroupAdds(before, c, Picked(keys, done, KeyBucket(d)), key.1, multiset(keys)[key]);
    }
  }

  lemma BreakdownEnds(events: seq<Event>, days: set<Day>, c: Column, d: Day, before: DayRecord, m: DayRecord)
    requires d in days
    requires var keys := Select(events, ViewKey(days, c)); BrokenDown(keys, Groups(keys), c, d, before, m)
    ensures m == WithCounts(before, c, multiset(Select(On(events, d), BucketOf(c))))
  {
    var keys := Select(events, ViewKey(days, c));
    PickedAll(keys, Groups(keys), KeyBucket(d));
    KeyBuckets(events, days, c, d);
  }

  method BreakdownPass(events: seq<Event>, days: set<Day>, c: Column, out0: map<Day, DayRecord>)
    returns (out: map<Day, DayRecord>)
    requires forall d :: d in out0 ==> CellsOf(out0[d], c) == map[]
    ensures out.Keys == out0.Keys
    ensures forall d :: d in out && d in days ==> out[d] == WithCounts(out0[d], c, multiset(Select(On(events, d), BucketOf(c))))
  {
    hide BrokenDown, AddGroup, WithCounts;
    var keys := Select(events, ViewKey(days, c));
    var todo := Groups(keys);
    ghost var done := {};
    out := out0;
    forall d | d in out ensures BrokenDown(keys, {}, c, d, out0[d], out[d]) {
      BreakdownStarts(keys, c, d, out[d]);
    }
    while todo != {}
      invariant todo !! done && todo + done == Groups(keys)
      invariant out.Keys == out0.Keys
      invariant forall d :: d in out ==> BrokenDown(keys, done, c, d, out0[d], out[d])
    {
      var key :| key in todo;
      forall d | d in out
        ensures BrokenDown(keys, done + {key}, c, d, out0[d],
                  if key.0 == d then AddGroup(out[d], c, key.1, multiset(keys)[key]) else out[d])
      {
        BreakdownStep(keys, done, key, c, d, out0[d], out[d]);
      }
      if key.0 in out {
        out := out[key.0 := AddGroup(out[key.0], c, key.1, multiset(keys)[key])];
      }
      todo, done := todo - {key}, done + {key};
    }
    assert done == Groups(keys);
    forall d | d in out && d in days
      ensures out[d] == WithCounts(out0[d], c, multiset(Select(On(events, d), BucketOf(c))))
    {
      BreakdownEnds(events, days, c, d, out0[d], out[d]);
    }
  }

  /** Day `d` of `out` after the session groups `done`. */
  ghost predicate Visited(keys: seq<(Day, string)>, done: set<(Day, string)>, d: Day, before: DayRecord, after: DayRecord) {
    after == before.(sessions := before.sessions + |OfDay(done, d)|, bounces := before.bounces + |SingleViews(done, keys, d)|)
  }

  function AddSession(m: DayRecord, views: nat): DayRecord {
    m.(sessions := m.sessions + 1, bounces := if views == 1 then m.bounces + 1 else m.bounces)
  }

  lemma VisitStarts(keys: seq<(Day, string)>, d: Day, m: DayRecord)
    ensures Visited(keys, {}, d, m, m)
  {
    assert OfDay({}, d) == {} && SingleViews({}, keys, d) == {};
  }

  lemma VisitStep(keys: seq<(Day, string)>, done: set<(Day, string)>, key: (Day, string), d: Day, before: DayRecord,
                  m: DayRecord)
    requires key !in done && Visited(keys, done, d, before, m)
    ensures Visited(keys, done + {key}, d, before, if key.0 == d then AddSession(m, multiset(keys)[key]) else m)
  {
    if key.0 != d {
      assert OfDay(done + {key}, d) == OfDay(done, d);
      assert SingleViews(done + {key}, keys, d) == SingleViews(done, keys, d);
    } else {
      assert OfDay(done + {key}, d) == OfDay(done, d) + {key};
      if multiset(keys)[key] == 1 {
        assert SingleViews(done + {key}, keys, d) == SingleViews(done, keys, d) + {key};
      } else {
        assert SingleViews(done + {key}, keys, d) == SingleViews(done, keys, d);
      }
    }
  }

  method SessionPass(events: seq<Event>, days: set<Day>, out0: map<Day, DayRecord>) returns (out: map<Day, DayRecord>)
    ensures out.Keys == out0.Keys
    ensures forall d :: d in out && d in days ==>
      out[d] == out0[d].(sessions := out0[d].sessions + Measure(On(events, d)).sessions,
                         bounces := out0[d].bounces + Measure(On(events, d)).bounces)
  {
    hide Measure, Visited, AddSession;
    var keys := Select(events, VisitKey(days));
    var todo := Groups(keys);
    ghost var done := {};
    out := out0;
    forall d | d in out ensures Visited(keys, {}, d, out0[d], out[d]) {
      VisitStarts(keys, d, out[d]);
    }
    while todo != {}
      invariant todo !! done && todo + done == Groups(keys)
      invariant out.Keys == out0.Keys
      invariant forall d :: d in out ==> Visited(keys, done, d, out0[d], out[d])
    {
      var key :| key in todo;
      forall d | d in out
        ensures Visited(keys, done + {key}, d, out0[d], if key.0 == d then AddSession(out[d], multiset(keys)[key]) else out[d])
      {
        VisitStep(keys, done, key, d, out0[d], out[d]);
      }
      if key.0 in out {
        out := out[key.0 := AddSession(out[key.0], multiset(keys)[key])];
      }
      todo, done := todo - {key}, done + {key};
    }
    assert done == Groups(keys);
    forall d | d in out && d in days
      ensures out[d] == out0[d].(sessions := out0[d].sessions + Measure(On(events, d)).sessions,
                                 bounces := out0[d].bounces + Measure(On(events, d)).bounces)
    {
      VisitEnds(events, days, d, out0[d], out[d]);
    }
  }

  lemma VisitEnds(events: seq<Event>, days: set<Day>, d: Day, before: DayRecord, m: DayRecord)
    requires d in days
    requires var keys := Select(events, VisitKey(days)); Visited(keys, Groups(keys), d, before, m)
    ensures m == before.(sessions := before.sessions + Measure(On(events, d)).sessions,
                         bounces := before.bounces + Measure(On(events, d)).bounces)
  {
    SessionGroups(events, days, d);
  }

  function WithEngagement(m: DayRecord, rows: seq<Event>): DayRecord {
    m.(engagedViews := m.engagedViews + |rows|,
       totalDurationMs := m.totalDurationMs + SumDuration(rows),
       totalScrollDepth := m.totalScrollDepth + SumScroll(rows))
  }

  method EngagementPass(events: seq<Event>, days: set<Day>, out0: map<Day, DayRecord>) returns (out: map<Day, DayRecord>)
    ensures out.Keys == out0.Keys
    ensures forall d :: d in out && d in days ==> out[d] == WithEngagement(out0[d], Select(On(events, d), EngagedOf()))
  {
    var groups := Groups(Select(events, EngagedDay(days)));
    var todo := groups;
    out := out0;
    while todo != {}
      invariant todo <= groups
      invariant out.Keys == out0.Keys
      invariant forall d :: d in out ==>
        out[d] == if d in groups && d !in todo then WithEngagement(out0[d], Select(On(events, d), EngagedOf())) else out0[d]
    {
      var _ := Ascending.Pick(todo);
      var day :| day in todo;
      if day in out {
        out := out[day := WithEngagement(out[day], Select(On(events, day), EngagedOf()))];
      }
      todo := todo - {day};
    }
    forall d | d in out && d in days && d !in groups ensures Select(On(events, d), EngagedOf()) == [] {
      NoEngagement(events, days, d);
    }
  }

  lemma NoEngagement(events: seq<Event>, days: set<Day>, d: Day)
    requires d in days && d !in Groups(Select(events, EngagedDay(days)))
    ensures Select(On(events, d), EngagedOf()) == []
  {
    var rows := Select(On(events, d), EngagedOf());
    if rows != [] {
      SelectMember(On(events, d), EngagedOf(), rows[0]);
      var e :| e in On(events, d) && EngagedOf()(e) == Some(rows[0]);
      SelectMember(events, OnDay(d), e);
      SelectMember(events, EngagedDay(days), d);
    }
  }

  /** What the five passes leave of an empty day. */
  lemma PassesMakeRecord(s: seq<Event>)
    ensures var a := WithCounts(EMPTY_DAY, Device, multiset(Select(s, BucketOf(Device))));
      var b := WithCounts(a, Source, multiset(Select(s, BucketOf(Source))));
      var c := WithCounts(b, Country, multiset(Select(s, BucketOf(Country))));
      var e := c.(sessions := c.sessions + Measure(s).sessions, bounces := c.bounces + Measure(s).bounces);
      WithEngagement(e, Select(s, EngagedOf())) == Recorded(s)
  {
    MultisetSize(Select(s, BucketOf(Device)));
    hide Tally, Select, SumDuration, SumScroll, Members, Singles;
  }

  /** A column's pass leaves the other columns empty. */
  lemma StillEmpty(m: DayRecord, c: Column, counts: Counts, other: Column)
    requires other != c && CellsOf(m, other) == map[]
    ensures CellsOf(WithCounts(m, c, counts), other) == map[]
  {
  }

  method ComputeChunk(events: seq<Event>, days: seq<Day>) returns (out: map<Day, DayRecord>)
    ensures out.Keys == DaySet(days)
    ensures forall d :: d in out ==> out[d] == Recorded(On(events, d))
  {
    hide Measure, Recorded, WithCounts, WithEngagement;
    var inDays := DaySet(days);
    var empty := map d | d in inDays :: EMPTY_DAY;
    if |days| == 0 {
      return empty;
    }
    var devices := BreakdownPass(events, inDays, Device, empty);
    forall d | d in devices ensures CellsOf(devices[d], Source) == map[] && CellsOf(devices[d], Country) == map[] {
      StillEmpty(EMPTY_DAY, Device, multiset(Select(On(events, d), BucketOf(Device))), Source);
      StillEmpty(EMPTY_DAY, Device, multiset(Select(On(events, d), BucketOf(Device))), Country);
    }
    var sources := BreakdownPass(events, inDays, Source, devices);
    forall d | d in sources ensures CellsOf(sources[d], Country) == map[] {
      StillEmpty(devices[d], Source, multiset(Select(On(events, d), BucketOf(Source))), Country);
    }
    var countries := BreakdownPass(events, inDays, Country, sources);
    var sessions := SessionPass(events, inDays, countries);
    out := EngagementPass(events, inDays, sessions);
    forall d | d in out ensures out[d] == Recorded(On(events, d)) {
      PassesMakeRecord(On(events, d));
      assert d in empty && d in devices && d in sources && d in countries && d in sessions;
    }
  }

  /** The separate grouped passes over chunks of days give each day what its events amount to. */
  method Compute(events: seq<Event>, days: seq<Day>) returns (out: map<Day, DayRecord>)
    ensures out.Keys == DaySet(days)
    ensures forall d :: d in out ==> out[d] == Recorded(On(events, d))
  {
    hide Recorded;
    out := map[];
    var chunks := Chunked(days, IN_CHUNK);
    for i := 0 to |chunks|
      invariant out.Keys == DaySet(Flatten(chunks[..i]))
      invariant forall d :: d in out ==> out[d] == Recorded(On(events, d))
    {
      var part := ComputeChunk(events, chunks[i]);
      FlattenTake(chunks, i);
      out := out + part;
    }
    assert chunks[..|chunks|] == chunks;
  }
}
