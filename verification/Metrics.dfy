/** `SELECT f(row) FROM s WHERE f(row) is defined`, the one shape of query every read here uses,
    and `GROUP BY`, which is the multiset of the selected keys. */
module Queries {
  import opened Options

  function Select<E, K>(s: seq<E>, f: E -> Option<K>): seq<K> {
    if s == [] then []
    else match f(s[0])
      case None => Select(s[1..], f)
      case Some(k) => [k] + Select(s[1..], f)
  }

  lemma SelectCons<E, K>(e: E, t: seq<E>, f: E -> Option<K>)
    ensures Select([e] + t, f) == match f(e) case None => Select(t, f) case Some(k) => [k] + Select(t, f)
  {
    assert ([e] + t)[1..] == t;
  }

  lemma {:induction false} SelectAppend<E, K>(s: seq<E>, t: seq<E>, f: E -> Option<K>)
    ensures Select(s + t, f) == Select(s, f) + Select(t, f)
  {
    if s == [] {
      assert s + t == t;
    } else {
      assert (s + t)[1..] == s[1..] + t;
      SelectAppend(s[1..], t, f);
    }
  }

  /** Selecting from a selection is one selection. */
  lemma {:induction false} SelectCompose<E(!new), K, L>(s: seq<E>, f: E -> Option<K>, g: K -> Option<L>, h: E -> Option<L>)
    requires forall e :: h(e) == (match f(e) case None => None case Some(k) => g(k))
    ensures Select(Select(s, f), g) == Select(s, h)
  {
    if s == [] {
    } else {
      SelectCompose(s[1..], f, g, h);
      match f(s[0])
      case None =>
      case Some(k) =>
        assert ([k] + Select(s[1..], f))[1..] == Select(s[1..], f);
    }
  }

  lemma {:induction false} SelectAgree<E, K>(s: seq<E>, f: E -> Option<K>, g: E -> Option<K>)
    requires forall e :: e in s ==> f(e) == g(e)
    ensures Select(s, f) == Select(s, g)
  {
    if s == [] {
    } else {
      SelectAgree(s[1..], f, g);
    }
  }

  lemma {:induction false} SelectMember<E, K>(s: seq<E>, f: E -> Option<K>, k: K)
    ensures k in Select(s, f) <==> exists e :: e in s && f(e) == Some(k)
  {
    if s == [] {
    } else {
      SelectMember(s[1..], f, k);
      assert s == [s[0]] + s[1..];
    }
  }

  function One<B>(b: Option<B>): multiset<B> {
    match b
    case None => multiset{}
    case Some(x) => multiset{x}
  }

  lemma OneMore<E, K>(e: E, t: seq<E>, f: E -> Option<K>)
    ensures multiset(Select([e] + t, f)) == One(f(e)) + multiset(Select(t, f))
  {
    SelectCons(e, t, f);
  }

  /** The distinct keys of a `GROUP BY`; the group of `k` has `multiset(keys)[k]` rows. */
  function Groups<K(==)>(keys: seq<K>): set<K> {
    set k | k in keys
  }

  /** The buckets of the rows whose group is already processed. */
  function Picked<K(==), B>(keys: seq<K>, done: set<K>, f: K -> Option<B>): multiset<B> {
    if keys == [] then multiset{}
    else (if keys[0] in done then One(f(keys[0])) else multiset{}) + Picked(keys[1..], done, f)
  }

  lemma {:induction false} PickedAll<K, B>(keys: seq<K>, done: set<K>, f: K -> Option<B>)
    requires Groups(keys) <= done
    ensures Picked(keys, done, f) == multiset(Select(keys, f))
  {
    if keys == [] {
    } else {
      assert keys[0] in keys;
      PickedAll(keys[1..], done, f);
    }
  }

  lemma {:induction false} PickedNone<K, B>(keys: seq<K>, f: K -> Option<B>)
    ensures Picked(keys, {}, f) == multiset{}
  {
    if keys != [] {
      PickedNone(keys[1..], f);
    }
  }

  /** `m` with `n` more of `x`: what adding a group's count to one bucket does. */
  function Plus<T>(m: multiset<T>, x: T, n: nat): multiset<T> {
    m[x := m[x] + n]
  }

  lemma PlusOver<T>(a: multiset<T>, b: multiset<T>, x: T, n: nat)
    ensures Plus(a + b, x, n) == a + Plus(b, x, n)
    ensures |Plus(b, x, n)| == |b| + n
  {
  }

  /** `before` with the whole count of group `k` added to the bucket it falls in. */
  function Joined<K, B>(before: multiset<B>, k: K, n: nat, f: K -> Option<B>): multiset<B> {
    match f(k)
    case None => before
    case Some(b) => Plus(before, b, n)
  }

  lemma GroupHead<K, B>(head: K, done: set<K>, k: K, f: K -> Option<B>, before: multiset<B>, n: nat)
    requires k !in done
    ensures (if head in done + {k} then One(f(head)) else multiset{}) + Joined(before, k, n, f)
      == Joined((if head in done then One(f(head)) else multiset{}) + before, k, if head == k then n + 1 else n, f)
  {
    if head == k {
    } else if f(k).Some? {
      PlusOver(One(f(head)), before, f(k).value, n);
      hide Plus;
    }
  }

  /** Processing one more group adds its whole count to the bucket it falls in. */
  lemma {:induction false} GroupStep<K, B>(keys: seq<K>, done: set<K>, k: K, f: K -> Option<B>)
    requires k !in done
    ensures Picked(keys, done + {k}, f) == Joined(Picked(keys, done, f), k, multiset(keys)[k], f)
  {
    if keys == [] {
    } else {
      var head, rest := keys[0], keys[1..];
      assert keys == [head] + rest;
      GroupStep(rest, done, k, f);
      GroupHead(head, done, k, f, Picked(rest, done, f), multiset(rest)[k]);
      hide Joined, One;
    }
  }
}

/** Analytics events, and what one day's or one range's events add up to. Rates are never
    stored: every number here is a count or a sum, so days compose. */
module Metrics {
  import opened Options
  import opened Queries
  import opened Ascending

  type Day = int  // days since the epoch, in the order of their YYYY-MM-DD names

  datatype Kind = Pageview | Engagement | OtherKind
  datatype Origin = Server | Beacon | OtherOrigin
  datatype Column = Device | Source | Country

  datatype Event = Event(
    kind: Kind,
    day: Day,
    path: string,
    pageId: Option<string>,
    device: Option<string>,
    source: Option<string>,
    country: Option<string>,
    sessionId: Option<string>,
    durationMs: Option<int>,
    scrollDepth: Option<int>)

  /** What a breakdown counts: how many of each bucket. */
  type Counts = multiset<string>

  datatype DayMetrics = DayMetrics(
    pageviews: nat,
    sessions: nat,
    bounces: nat,
    engagedViews: nat,
    totalDurationMs: int,
    totalScrollDepth: int,
    byDevice: Counts,
    bySource: Counts,
    byCountry: Counts)

  const NO_EVENTS := DayMetrics(0, 0, 0, 0, 0, 0, multiset{}, multiset{}, multiset{})

  /** A null or empty column counts as "unknown". */
  function Bucket(key: Option<string>): string {
    if key.Some? && |key.value| > 0 then key.value else "unknown"
  }

  function ColumnOf(e: Event, c: Column): Option<string> {
    match c
    case Device => e.device
    case Source => e.source
    case Country => e.country
  }

  function OnDay(d: Day): Event -> Option<Event> {
    (e: Event) => if e.day == d then Some(e) else None
  }

  function BucketOf(c: Column): Event -> Option<string> {
    (e: Event) => if e.kind == Pageview then Some(Bucket(ColumnOf(e, c))) else None
  }

  function SessionOf(): Event -> Option<string> {
    (e: Event) => if e.kind == Pageview then e.sessionId else None
  }

  function PathOf(): Event -> Option<string> {
    (e: Event) => if e.kind == Pageview then Some(e.path) else None
  }

  function EngagedOf(): Event -> Option<Event> {
    (e: Event) => if e.kind == Engagement then Some(e) else None
  }

  /** The events of one day, in order. */
  function On(s: seq<Event>, d: Day): seq<Event> {
    Select(s, OnDay(d))
  }

  function OrZero(v: Option<int>): int {
    if v.Some? then v.value else 0
  }

  function SumDuration(s: seq<Event>): int {
    if s == [] then 0 else OrZero(s[0].durationMs) + SumDuration(s[1..])
  }

  function SumScroll(s: seq<Event>): int {
    if s == [] then 0 else OrZero(s[0].scrollDepth) + SumScroll(s[1..])
  }

  function Members<T(==)>(m: multiset<T>): set<T> {
    set x | x in m
  }

  function Singles<T(==)>(m: multiset<T>): set<T> {
    set x | x in m && m[x] == 1
  }

  /** What a set of events amounts to, read off them directly. */
  function Measure(s: seq<Event>): DayMetrics {
    var sids := multiset(Select(s, SessionOf()));
    var engaged := Select(s, EngagedOf());
    DayMetrics(
      |Select(s, BucketOf(Device))|,
      |Members(sids)|,
      |Singles(sids)|,
      |engaged|,
      SumDuration(engaged),
      SumScroll(engaged),
      multiset(Select(s, BucketOf(Device))),
      multiset(Select(s, BucketOf(Source))),
      multiset(Select(s, BucketOf(Country))))
  }

  function Add(a: DayMetrics, b: DayMetrics): DayMetrics {
    DayMetrics(
      a.pageviews + b.pageviews, a.sessions + b.sessions, a.bounces + b.bounces, a.engagedViews + b.engagedViews,
      a.totalDurationMs + b.totalDurationMs, a.totalScrollDepth + b.totalScrollDepth,
      a.byDevice + b.byDevice, a.bySource + b.bySource, a.byCountry + b.byCountry)
  }

  function DaySet(days: seq<Day>): set<Day> {
    set d | d in days
  }

  function Total(ms: seq<DayMetrics>): DayMetrics {
    if ms == [] then NO_EVENTS else Add(Total(ms[..|ms| - 1]), ms[|ms| - 1])
  }

  function Daily(s: seq<Event>, days: seq<Day>): seq<DayMetrics> {
    seq(|days|, i requires 0 <= i < |days| => Measure(On(s, days[i])))
  }

  /** Day by day: the sum the dashboard shows for a list of days. */
  function RangeTotal(s: seq<Event>, days: seq<Day>): DayMetrics {
    Total(Daily(s, days))
  }

  // ---- one day ----

  lemma {:induction false} MemberCount<T>(m: multiset<T>)
    ensures |Members(m)| <= |m|
    ensures |Singles(m)| <= |Members(m)|
    decreases |m|
  {
    if m == multiset{} {
      assert Members(m) == {};
      assert Singles(m) == {};
    } else {
      var x :| x in m;
      var rest := m - multiset{x};
      MemberCount(rest);
      assert Members(m) == Members(rest) + {x};
      SubsetCount(Singles(m), Members(m));
    }
  }

  lemma {:induction false} SubsetCount<T>(a: set<T>, b: set<T>)
    requires a <= b
    ensures |a| <= |b|
    decreases a
  {
    if a == {} {
    } else {
      var x :| x in a;
      SubsetCount(a - {x}, b - {x});
    }
  }

  lemma {:induction false} ViewCounts(s: seq<Event>)
    ensures |Select(s, BucketOf(Source))| == |Select(s, BucketOf(Device))|
    ensures |Select(s, BucketOf(Country))| == |Select(s, BucketOf(Device))|
    ensures |Select(s, PathOf())| == |Select(s, BucketOf(Device))|
    ensures |Select(s, SessionOf())| <= |Select(s, BucketOf(Device))|
  {
    if s == [] {
    } else {
      ViewCounts(s[1..]);
    }
  }

  /** The three breakdowns are breakdowns of the same pageviews, and a bounce is a session is
      at least one pageview. */
  lemma MeasureIsConsistent(s: seq<Event>)
    ensures Consistent(Measure(s))
    ensures |Select(s, PathOf())| == Measure(s).pageviews
  {
    ViewCounts(s);
    MemberCount(multiset(Select(s, SessionOf())));
  }

  ghost predicate Consistent(m: DayMetrics) {
    && |m.byDevice| == |m.bySource| == |m.byCountry| == m.pageviews
    && m.bounces <= m.sessions <= m.pageviews
  }

  lemma {:induction false} TotalIsConsistent(ms: seq<DayMetrics>)
    requires forall m :: m in ms ==> Consistent(m)
    ensures Consistent(Total(ms))
  {
    if ms == [] {
    } else {
      TotalIsConsistent(ms[..|ms| - 1]);
      assert Consistent(ms[|ms| - 1]);
    }
  }

  lemma RangeIsConsistent(s: seq<Event>, days: seq<Day>)
    ensures Consistent(RangeTotal(s, days))
  {
    forall m | m in Daily(s, days) ensures Consistent(m) {
      var i :| 0 <= i < |days| && Daily(s, days)[i] == m;
      MeasureIsConsistent(On(s, days[i]));
    }
    TotalIsConsistent(Daily(s, days));
  }

  // ---- ranges ----

  lemma AddAssociates(a: DayMetrics, b: DayMetrics, c: DayMetrics)
    ensures Add(Add(a, b), c) == Add(a, Add(b, c))
  {
  }

  lemma AddEmpty(a: DayMetrics)
    ensures Add(a, NO_EVENTS) == a
  {
  }

  lemma {:induction false} TotalsAdd(ms: seq<DayMetrics>, more: seq<DayMetrics>)
    ensures Total(ms + more) == Add(Total(ms), Total(more))
  {
    if more == [] {
      assert ms + more == ms;
      AddEmpty(Total(ms));
    } else {
      var n := |more| - 1;
      calc {
        Total(ms + more);
        { assert (ms + more)[..|ms + more| - 1] == ms + more[..n]; }
        Add(Total(ms + more[..n]), more[n]);
        { TotalsAdd(ms, more[..n]); }
        Add(Add(Total(ms), Total(more[..n])), more[n]);
        { AddAssociates(Total(ms), Total(more[..n]), more[n]); }
        Add(Total(ms), Add(Total(more[..n]), more[n]));
        Add(Total(ms), Total(more));
      }
    }
  }

  /** Counts over two lists of days add up to the counts over both. */
  lemma RangesAdd(s: seq<Event>, days: seq<Day>, more: seq<Day>)
    ensures RangeTotal(s, days + more) == Add(RangeTotal(s, days), RangeTotal(s, more))
  {
    hide Add, Measure;
    assert Daily(s, days + more) == Daily(s, days) + Daily(s, more);
    TotalsAdd(Daily(s, days), Daily(s, more));
  }

  // The same totals read off the whole log in one pass per column, with no notion of a day's
  // aggregate: the events whose day is in the set, their buckets, and their (day, session) pairs.

  function InDays(days: set<Day>): Event -> Option<Event> {
    (e: Event) => if e.day in days then Some(e) else None
  }

  function VisitOf(): Event -> Option<(Day, string)> {
    (e: Event) => if e.kind == Pageview && e.sessionId.Some? then Some((e.day, e.sessionId.value)) else None
  }

  function WholeRange(s: seq<Event>, days: set<Day>): DayMetrics {
    var own := Select(s, InDays(days));
    var visits := multiset(Select(own, VisitOf()));
    var engaged := Select(own, EngagedOf());
    DayMetrics(
      |Select(own, BucketOf(Device))|, |Members(visits)|, |Singles(visits)|,
      |engaged|, SumDuration(engaged), SumScroll(engaged),
      multiset(Select(own, BucketOf(Device))), multiset(Select(own, BucketOf(Source))), multiset(Select(own, BucketOf(Country))))
  }

  /** Selecting from the days of a set, one day `d` more, is the two selections together. */
  lemma {:induction false} OneMoreDay<K>(s: seq<Event>, days: set<Day>, d: Day, f: Event -> Option<K>)
    requires d !in days
    ensures multiset(Select(Select(s, InDays(days + {d})), f))
      == multiset(Select(Select(s, InDays(days)), f)) + multiset(Select(On(s, d), f))
  {
    if s == [] {
    } else {
      OneMoreDay(s[1..], days, d, f);
      var e, both, own, new' := s[0], Select(s[1..], InDays(days + {d})), Select(s[1..], InDays(days)), On(s[1..], d);
      if e.day == d {
        assert Select(s, InDays(days + {d})) == [e] + both;
        assert Select(s, InDays(days)) == own;
        assert On(s, d) == [e] + new';
        OneMore(e, both, f);
        OneMore(e, new', f);
      } else if e.day in days {
        assert Select(s, InDays(days + {d})) == [e] + both;
        assert Select(s, InDays(days)) == [e] + own;
        assert On(s, d) == new';
        OneMore(e, both, f);
        OneMore(e, own, f);
      } else {
        assert Select(s, InDays(days + {d})) == both;
        assert Select(s, InDays(days)) == own;
        assert On(s, d) == new';
      }
    }
  }

  lemma EngagedCons(e: Event, t: seq<Event>)
    ensures var all := Select([e] + t, EngagedOf());
      var rest := Select(t, EngagedOf());
      if e.kind == Engagement
      then |all| == |rest| + 1
        && SumDuration(all) == OrZero(e.durationMs) + SumDuration(rest)
        && SumScroll(all) == OrZero(e.scrollDepth) + SumScroll(rest)
      else all == rest
  {
    SelectCons(e, t, EngagedOf());
    if e.kind == Engagement {
      assert ([e] + Select(t, EngagedOf()))[1..] == Select(t, EngagedOf());
    }
  }

  lemma {:induction false} OneMoreDaySums(s: seq<Event>, days: set<Day>, d: Day)
    requires d !in days
    ensures var all := Select(Select(s, InDays(days + {d})), EngagedOf());
      var old' := Select(Select(s, InDays(days)), EngagedOf());
      var new' := Select(On(s, d), EngagedOf());
      && |all| == |old'| + |new'|
      && SumDuration(all) == SumDuration(old') + SumDuration(new')
      && SumScroll(all) == SumScroll(old') + SumScroll(new')
  {
    if s == [] {
    } else {
      OneMoreDaySums(s[1..], days, d);
      var e := s[0];
      if e.day == d {
        EngagedCons(e, Select(s[1..], InDays(days + {d})));
        EngagedCons(e, On(s[1..], d));
      } else if e.day in days {
        EngagedCons(e, Select(s[1..], InDays(days + {d})));
        EngagedCons(e, Select(s[1..], InDays(days)));
      }
    }
  }

  /** On one day, a (day, session) pair is a session. */
  function Tagged(d: Day): string -> Option<(Day, string)> {
    (x: string) => Some((d, x))
  }

  lemma {:induction false} DayVisits(s: seq<Event>, d: Day)
    ensures Select(On(s, d), VisitOf()) == Select(Select(On(s, d), SessionOf()), Tagged(d))
  {
    if s == [] {
    } else {
      DayVisits(s[1..], d);
      var e := s[0];
      SelectCons(e, On(s[1..], d), VisitOf());
      SelectCons(e, On(s[1..], d), SessionOf());
      if e.sessionId.Some? {
        SelectCons(e.sessionId.value, Select(On(s[1..], d), SessionOf()), Tagged(d));
      }
    }
  }

  lemma {:induction false} TaggedCounts(t: seq<string>, d: Day, x: string, d': Day)
    ensures multiset(Select(t, Tagged(d)))[(d', x)] == if d' == d then multiset(t)[x] else 0
  {
    if t == [] {
    } else {
      TaggedCounts(t[1..], d, x, d');
      assert t == [t[0]] + t[1..];
      assert Select(t, Tagged(d)) == [(d, t[0])] + Select(t[1..], Tagged(d));
    }
  }

  /** Pairing every element of a set with one day keeps its size. */
  lemma {:induction false} PairCount(xs: set<string>, d: Day, pairs: set<(Day, string)>)
    requires forall p :: p in pairs <==> p.0 == d && p.1 in xs
    ensures |pairs| == |xs|
    decreases xs
  {
    if xs == {} {
      assert pairs == {};
    } else {
      var x :| x in xs;
      assert (d, x) in pairs;
      PairCount(xs - {x}, d, pairs - {(d, x)});
    }
  }

  lemma TaggedSizes(t: seq<string>, d: Day)
    ensures var tagged := multiset(Select(t, Tagged(d)));
      |Members(tagged)| == |Members(multiset(t))| && |Singles(tagged)| == |Singles(multiset(t))|
  {
    var tagged := multiset(Select(t, Tagged(d)));
    forall p: (Day, string) ensures tagged[p] == if p.0 == d then multiset(t)[p.1] else 0 {
      TaggedCounts(t, d, p.1, p.0);
    }
    PairCount(Members(multiset(t)), d, Members(tagged));
    PairCount(Singles(multiset(t)), d, Singles(tagged));
  }

  lemma DisjointSizes<T>(a: multiset<T>, b: multiset<T>)
    requires forall x :: x in a ==> x !in b
    ensures |Members(a + b)| == |Members(a)| + |Members(b)|
    ensures |Singles(a + b)| == |Singles(a)| + |Singles(b)|
  {
    assert Members(a + b) == Members(a) + Members(b);
    assert Members(a) !! Members(b);
    assert Singles(a + b) == Singles(a) + Singles(b);
    assert Singles(a) !! Singles(b);
  }

  /** Every visit selected from a set of days is on one of them. */
  lemma VisitDays(s: seq<Event>, days: set<Day>, v: (Day, string))
    requires v in Select(Select(s, InDays(days)), VisitOf())
    ensures v.0 in days
  {
    SelectMember(Select(s, InDays(days)), VisitOf(), v);
    var e :| e in Select(s, InDays(days)) && VisitOf()(e) == Some(v);
    SelectMember(s, InDays(days), e);
  }

  /** One more day adds that day's own sessions and bounces. */
  lemma OneMoreDayVisits(s: seq<Event>, days: set<Day>, d: Day)
    requires d !in days
    ensures var all := multiset(Select(Select(s, InDays(days + {d})), VisitOf()));
      var own := multiset(Select(Select(s, InDays(days)), VisitOf()));
      var sids := multiset(Select(On(s, d), SessionOf()));
      && |Members(all)| == |Members(own)| + |Members(sids)|
      && |Singles(all)| == |Singles(own)| + |Singles(sids)|
  {
    var own := multiset(Select(Select(s, InDays(days)), VisitOf()));
    var sids := Select(On(s, d), SessionOf());
    var tagged := multiset(Select(sids, Tagged(d)));
    OneMoreDay(s, days, d, VisitOf());
    DayVisits(s, d);
    forall v | v in own ensures v !in tagged {
      VisitDays(s, days, v);
      TaggedCounts(sids, d, v.1, v.0);
    }
    DisjointSizes(own, tagged);
    TaggedSizes(sids, d);
  }

  lemma OneMoreDayTotal(s: seq<Event>, days: set<Day>, d: Day)
    requires d !in days
    ensures WholeRange(s, days + {d}) == Add(WholeRange(s, days), Measure(On(s, d)))
  {
    OneMoreDay(s, days, d, BucketOf(Device));
    OneMoreDay(s, days, d, BucketOf(Source));
    OneMoreDay(s, days, d, BucketOf(Country));
    OneMoreDaySums(s, days, d);
    OneMoreDayVisits(s, days, d);
    MultisetSize(Select(Select(s, InDays(days + {d})), BucketOf(Device)));
    MultisetSize(Select(Select(s, InDays(days)), BucketOf(Device)));
    MultisetSize(Select(On(s, d), BucketOf(Device)));
  }

  lemma MultisetSize<T>(t: seq<T>)
    ensures |multiset(t)| == |t|
  {
  }

  lemma {:induction false} WholeRangeOfNothing(s: seq<Event>)
    ensures WholeRange(s, {}) == NO_EVENTS
  {
    if s == [] {
      assert Members<(Day, string)>(multiset{}) == {};
      assert Singles<(Day, string)>(multiset{}) == {};
    } else {
      WholeRangeOfNothing(s[1..]);
    }
  }

  /** The day-by-day total of a list of distinct days is what one pass over the whole log says
      about those days. */
  lemma {:induction false} RangeTotalIsWholeRange(s: seq<Event>, days: seq<Day>)
    requires Distinct(days)
    ensures RangeTotal(s, days) == WholeRange(s, DaySet(days))
  {
    hide Measure, Add, WholeRange;
    var n := |days| - 1;
    if days == [] {
      WholeRangeOfNothing(s);
      assert DaySet(days) == {};
    } else {
      RangeTotalIsWholeRange(s, days[..n]);
      OneMoreDayTotal(s, DaySet(days[..n]), days[n]);
      assert DaySet(days) == DaySet(days[..n]) + {days[n]};
      assert Daily(s, days)[..n] == Daily(s, days[..n]);
    }
  }
}
