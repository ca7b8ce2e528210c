/** Top pages: totals per path merged from page rows and raw events, and the ranking. */
module TopPages {
  import opened Options
  import opened Chunks
  import opened Queries
  import opened Metrics
  import opened Ascending
  import opened Rollup
  import opened RollupRuns

  /** How many pageviews of each path a log holds on the given days. */
  function ViewsIn(s: seq<Event>, days: set<Day>): Counts {
    multiset(Paths(Select(s, InDays(days))))
  }

  // ---- splitting by day ----

  lemma ViewsOneMoreDay(s: seq<Event>, days: set<Day>, d: Day)
    requires d !in days
    ensures ViewsIn(s, days + {d}) == ViewsIn(s, days) + multiset(Paths(On(s, d)))
  {
    OneMoreDay(s, days, d, PathOf());
  }

  lemma ViewsOfDay(s: seq<Event>, d: Day)
    ensures ViewsIn(s, {d}) == multiset(Paths(On(s, d)))
  {
    ViewsNowhere(s);
    ViewsOneMoreDay(s, {}, d);
    assert {} + {d} == {d};
  }

  lemma ViewsNowhere(s: seq<Event>)
    ensures ViewsIn(s, {}) == multiset{}
  {
    SelectNothing(s, InDays({}));
  }

  lemma {:induction false} ViewsDisjoint(s: seq<Event>, a: set<Day>, b: set<Day>)
    requires a !! b
    ensures ViewsIn(s, a + b) == ViewsIn(s, a) + ViewsIn(s, b)
    decreases b
  {
    if b == {} {
      assert a + b == a;
      ViewsNowhere(s);
    } else {
      var d := Pick(b);
      ViewsDisjoint(s, a, b - {d});
      assert a + b == a + (b - {d}) + {d} && b == (b - {d}) + {d};
      ViewsOneMoreDay(s, a + (b - {d}), d);
      ViewsOneMoreDay(s, b - {d}, d);
    }
  }

  lemma {:induction false} ViewsAgree(s: seq<Event>, t: seq<Event>, days: set<Day>)
    requires forall d :: d in days ==> multiset(Paths(On(s, d))) == multiset(Paths(On(t, d)))
    ensures ViewsIn(s, days) == ViewsIn(t, days)
    decreases days
  {
    if days == {} {
      ViewsNowhere(s);
      ViewsNowhere(t);
    } else {
      var d := Pick(days);
      ViewsAgree(s, t, days - {d});
      assert days == (days - {d}) + {d};
      ViewsOneMoreDay(s, days - {d}, d);
      ViewsOneMoreDay(t, days - {d}, d);
    }
  }

  // ---- group keys ----

  /** `SELECT path, pageId ... WHERE kind = 'pageview' AND day IN days` */
  function PageKey(days: set<Day>): Event -> Option<(string, Option<string>)> {
    (e: Event) => if e.kind == Pageview && e.day in days then Some((e.path, e.pageId)) else None
  }

  function KeyPath(): ((string, Option<string>)) -> Option<string> {
    (k: (string, Option<string>)) => Some(k.0)
  }

  lemma PageKeys(s: seq<Event>, days: set<Day>)
    ensures multiset(Select(Select(s, PageKey(days)), KeyPath())) == ViewsIn(s, days)
  {
    var both := (e: Event) => if e.kind == Pageview && e.day in days then Some(e.path) else None;
    SelectCompose(s, PageKey(days), KeyPath(), both);
    SelectCompose(s, InDays(days), PathOf(), both);
  }

  /** The page table's own key. */
  function RowKey(days: set<Day>): Event -> Option<(Day, string)> {
    (e: Event) => if e.kind == Pageview && e.day in days then Some((e.day, e.path)) else None
  }

  function RowPath(): ((Day, string)) -> Option<string> {
    (k: (Day, string)) => Some(k.1)
  }

  lemma RowKeys(s: seq<Event>, days: set<Day>)
    ensures multiset(Select(Select(s, RowKey(days)), RowPath())) == ViewsIn(s, days)
  {
    var both := (e: Event) => if e.kind == Pageview && e.day in days then Some(e.path) else None;
    SelectCompose(s, RowKey(days), RowPath(), both);
    SelectCompose(s, InDays(days), PathOf(), both);
  }

  lemma {:induction false} RowKeyCount(s: seq<Event>, days: set<Day>, d: Day, p: string)
    requires d in days
    ensures multiset(Select(s, RowKey(days)))[(d, p)] == multiset(Paths(On(s, d)))[p]
  {
    if s == [] {
    } else {
      RowKeyCount(s[1..], days, d, p);
      assert s == [s[0]] + s[1..];
      OneMore(s[0], s[1..], RowKey(days));
      SelectCons(s[0], s[1..], OnDay(d));
      if s[0].day == d {
        OneMore(s[0], On(s[1..], d), PathOf());
      }
      hide Select;
    }
  }

  /** The groups of one query, added into per-path totals. A path seen with and without a page id
      is two groups; both count. */
  method AddGroups(events: seq<Event>, days: set<Day>, totals0: Counts) returns (totals: Counts)
    ensures totals == totals0 + ViewsIn(events, days)
  {
    hide Plus;
    var keys := Select(events, PageKey(days));
    var todo := Groups(keys);
    ghost var done := {};
    totals := totals0;
    PickedNone(keys, KeyPath());
    while todo != {}
      invariant todo !! done && todo + done == Groups(keys)
      invariant totals == totals0 + Picked(keys, done, KeyPath())
    {
      var key :| key in todo;
      GroupStep(keys, done, key, KeyPath());
      PlusOver(totals0, Picked(keys, done, KeyPath()), key.0, multiset(keys)[key]);
      totals := Plus(totals, key.0, multiset(keys)[key]);
      todo, done := todo - {key}, done + {key};
    }
    assert done == Groups(keys);
    PickedAll(keys, done, KeyPath());
    PageKeys(events, days);
  }

  /** Stored page rows added into per-path totals, when they are the page counts of a log. */
  method AddRows(rows: map<(Day, string), nat>, ghost s: seq<Event>, ghost days: set<Day>) returns (totals: Counts)
    requires forall k :: k in rows <==> k in Select(s, RowKey(days))
    requires forall k :: k in rows ==> rows[k] == multiset(Select(s, RowKey(days)))[k]
    ensures totals == ViewsIn(s, days)
  {
    ghost var keys := Select(s, RowKey(days));
    var todo := rows.Keys;
    ghost var done := {};
    totals := multiset{};
    PickedNone(keys, RowPath());
    while todo != {}
      invariant todo !! done && todo + done == Groups(keys)
      invariant totals == Picked(keys, done, RowPath())
    {
      var key :| key in todo;
      GroupStep(keys, done, key, RowPath());
      totals := Plus(totals, key.1, rows[key]);
      todo, done := todo - {key}, done + {key};
    }
    assert done == Groups(keys);
    PickedAll(keys, done, RowPath());
    RowKeys(s, days);
  }

  // ---- ranking ----

  predicate NonIncreasing(r: seq<(string, nat)>) {
    forall i, j :: 0 <= i < j < |r| ==> r[j].1 <= r[i].1
  }

  /** Each path of `totals` once, with its total. */
  ghost predicate Lists(r: seq<(string, nat)>, totals: Counts) {
    && (forall e :: e in r ==> e.0 in totals && e.1 == totals[e.0])
    && (forall p :: p in totals ==> (p, totals[p]) in r)
    && Distinct(r)
  }

  method Insert(r: seq<(string, nat)>, e: (string, nat)) returns (out: seq<(string, nat)>)
    requires NonIncreasing(r)
    ensures NonIncreasing(out)
    ensures |out| == |r| + 1 && forall x :: x in out <==> x in r || x == e
    ensures Distinct(r) && e !in r ==> Distinct(out)
  {
    var i := |r|;
    while i > 0 && r[i - 1].1 < e.1
      invariant 0 <= i <= |r|
      invariant forall j :: i <= j < |r| ==> r[j].1 < e.1
    {
      i := i - 1;
    }
    out := r[..i] + [e] + r[i..];
    InsertedOrder(r, i, e, out);
    InsertedMembers(r, i, e, out);
  }

  ghost predicate Inserted(r: seq<(string, nat)>, i: nat, e: (string, nat), out: seq<(string, nat)>) {
    && |out| == |r| + 1 && i <= |r| && out[i] == e
    && (forall k :: 0 <= k < i ==> out[k] == r[k])
    && (forall k :: i < k < |out| ==> out[k] == r[k - 1])
  }

  lemma InsertedOrder(r: seq<(string, nat)>, i: nat, e: (string, nat), out: seq<(string, nat)>)
    requires NonIncreasing(r) && Inserted(r, i, e, out)
    requires (forall j :: i <= j < |r| ==> r[j].1 < e.1) && (i > 0 ==> e.1 <= r[i - 1].1)
    ensures NonIncreasing(out)
  {
    forall a, b | 0 <= a < b < |out| ensures out[b].1 <= out[a].1 {
      if a < i && b == i {
        assert r[i - 1].1 <= r[a].1;
      }
    }
  }

  lemma InsertedMembers(r: seq<(string, nat)>, i: nat, e: (string, nat), out: seq<(string, nat)>)
    requires Inserted(r, i, e, out)
    ensures forall x :: x in out <==> x in r || x == e
    ensures Distinct(r) && e !in r ==> Distinct(out)
  {
    forall x | x in r ensures x in out {
      var j :| 0 <= j < |r| && r[j] == x;
      assert out[if j < i then j else j + 1] == x;
    }
    assert out[i] in out;
    if Distinct(r) && e !in r {
      forall a, b | 0 <= a < b < |out| ensures out[a] != out[b] {
        assert a != i && b != i ==> r[if a < i then a else a - 1] != r[if b < i then b else b - 1];
      }
    }
  }

  method Ranked(totals: Counts) returns (r: seq<(string, nat)>)
    ensures NonIncreasing(r) && Lists(r, totals) && |r| == |Members(totals)|
  {
    r := [];
    var todo := Members(totals);
    while todo != {}
      invariant todo <= Members(totals)
      invariant NonIncreasing(r) && Distinct(r)
      invariant forall e :: e in r ==> e.0 in totals && e.0 !in todo && e.1 == totals[e.0]
      invariant forall p :: p in totals && p !in todo ==> (p, totals[p]) in r
      invariant |r| + |todo| == |Members(totals)|
    {
      var p :| p in todo;
      r := Insert(r, (p, totals[p]));
      todo := todo - {p};
    }
  }

  /** `slice(0, limit)`: a negative limit counts from the end. */
  function Sliced<T>(s: seq<T>, limit: int): seq<T> {
    if limit >= 0 then Take(s, limit)
    else if |s| + limit >= 0 then s[..|s| + limit]
    else []
  }

  /** A ranking of `totals`, cut to `limit`: right counts, no repeats, in order, and nothing left
      out that beats anything listed. */
  ghost predicate IsTop(r: seq<(string, nat)>, totals: Counts, limit: int) {
    && (forall e :: e in r ==> e.0 in totals && e.1 == totals[e.0])
    && Distinct(r) && NonIncreasing(r)
    && (limit >= 0 ==> |r| == if limit <= |Members(totals)| then limit else |Members(totals)|)
    && (limit < 0 ==> |r| == if |Members(totals)| + limit >= 0 then |Members(totals)| + limit else 0)
    && forall p, e :: p in totals && (p, totals[p]) !in r && e in r ==> totals[p] <= e.1
  }

  lemma SliceIsTop(r: seq<(string, nat)>, totals: Counts, limit: int)
    requires NonIncreasing(r) && Lists(r, totals) && |r| == |Members(totals)|
    ensures IsTop(Sliced(r, limit), totals, limit)
  {
    var cut := Sliced(r, limit);
    CutOfRanked(r, totals, |cut|);
  }

  lemma CutOfRanked(r: seq<(string, nat)>, totals: Counts, n: nat)
    requires NonIncreasing(r) && Lists(r, totals) && n <= |r|
    ensures NonIncreasing(r[..n]) && Distinct(r[..n])
    ensures forall e :: e in r[..n] ==> e.0 in totals && e.1 == totals[e.0]
    ensures forall p, e :: p in totals && (p, totals[p]) !in r[..n] && e in r[..n] ==> totals[p] <= e.1
  {
    assert forall e :: e in r[..n] ==> e in r;
    forall p, e | p in totals && (p, totals[p]) !in r[..n] && e in r[..n] ensures totals[p] <= e.1 {
      assert (p, totals[p]) in r;
      CutKeepsBest(r, n, (p, totals[p]), e);
    }
  }

  lemma CutKeepsBest(r: seq<(string, nat)>, n: nat, out: (string, nat), kept: (string, nat))
    requires NonIncreasing(r) && n <= |r| && out in r && out !in r[..n] && kept in r[..n]
    ensures out.1 <= kept.1
  {
    var j :| 0 <= j < |r| && r[j] == out;
    var i :| 0 <= i < n && r[..n][i] == kept;
    assert forall k :: 0 <= k < n ==> r[..n][k] == r[k];
    assert n <= j;
  }
}
