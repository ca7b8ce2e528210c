/** A breakdown as the code holds it: a plain object. Every such object already answers for the
    names of the members it inherits, so a bucket of such a name starts not from zero but from the
    member, and what is added to it is text. */
module Breakdowns {
  import opened Options
  import opened Queries
  import opened Ascending
  import opened Metrics

  datatype Cell = Number(n: nat) | Text(text: string)

  type Breakdown = map<string, Cell>

  /** Reading it gives an inherited object; assigning a number or a text to it does nothing. */
  const PROTO := "__proto__"

  const INHERITED := {
    "constructor", "hasOwnProperty", "isPrototypeOf", "propertyIsEnumerable", "toLocaleString", "toString",
    "valueOf", "__defineGetter__", "__defineSetter__", "__lookupGetter__", "__lookupSetter__", PROTO}

  /** An inherited member as text. */
  function MemberText(name: string): string {
    if name == PROTO then "[object Object]"
    else "function " + (if name == "constructor" then "Object" else name) + "() { [native code] }"
  }

  function Decimal(n: nat): string {
    if n < 10 then ["0123456789"[n]] else Decimal(n / 10) + ["0123456789"[n % 10]]
  }

  /** The names under which the first count into an empty breakdown becomes text, or is lost. */
  lemma FirstCount(k: string, n: nat)
    requires k != ""
    ensures AddInto(map[], Some(k), Number(n)) != map[k := Number(n)] <==>
      || k == "constructor" || k == "hasOwnProperty" || k == "isPrototypeOf" || k == "propertyIsEnumerable"
      || k == "toLocaleString" || k == "toString" || k == "valueOf" || k == "__proto__"
      || k == "__defineGetter__" || k == "__defineSetter__" || k == "__lookupGetter__" || k == "__lookupSetter__"
  {
    hide MemberText, Decimal;
    var b := AddInto(map[], Some(k), Number(n));
    if k == PROTO {
      assert k !in b && k in map[k := Number(n)];
    } else {
      assert b == map[k := CellSum(CellAt(map[], k), Number(n))];
      assert b[k] != Number(n) <==> k in INHERITED;
    }
  }

  /** The number a text of digits reads as. */
  ghost function ReadsAs(s: string): int {
    if s == "" then 0 else 10 * ReadsAs(s[..|s| - 1]) + (s[|s| - 1] as int - '0' as int)
  }

  /** It is digits only, without leading zeros, and reads as the number. */
  lemma {:induction false} DecimalReads(n: nat)
    ensures ReadsAs(Decimal(n)) == n && Decimal(n) != ""
    ensures forall c :: c in Decimal(n) ==> '0' <= c <= '9'
    ensures n > 0 ==> Decimal(n)[0] != '0'
  {
    var digits := "0123456789";
    assert forall i :: 0 <= i < 10 ==> digits[i] as int == '0' as int + i;
    if n < 10 {
      assert Decimal(n) == [digits[n]];
    } else {
      DecimalReads(n / 10);
      assert Decimal(n) == Decimal(n / 10) + [digits[n % 10]];
      assert Decimal(n)[..|Decimal(n)| - 1] == Decimal(n / 10);
    }
  }

  function Printed(c: Cell): string {
    match c
    case Number(n) => Decimal(n)
    case Text(t) => t
  }

  /** `a + b`: of two numbers the sum, else one text after the other. */
  function CellSum(a: Cell, b: Cell): Cell {
    if a.Number? && b.Number? then Number(a.n + b.n) else Text(Printed(a) + Printed(b))
  }

  /** `target[k] ?? 0` */
  function CellAt(target: Breakdown, k: string): Cell {
    if k in target then target[k] else if k in INHERITED then Text(MemberText(k)) else Number(0)
  }

  /** `target[k] = c` */
  function Assigned(target: Breakdown, k: string, c: Cell): Breakdown {
    if k == PROTO then target else target[k := c]
  }

  /** Add to one bucket of a breakdown; a null or empty key is "unknown". */
  function AddInto(target: Breakdown, key: Option<string>, c: Cell): Breakdown {
    Assigned(target, Bucket(key), CellSum(CellAt(target, Bucket(key)), c))
  }

  /** A stored breakdown read back: cells that are not numbers are dropped. */
  function AsCounts(b: Breakdown): Breakdown {
    map k | k in b && b[k].Number? && k != PROTO :: b[k]
  }

  /** What is left of counting the buckets `m` into an empty breakdown. */
  function Tally(m: Counts): Breakdown {
    map k | k in m && k != PROTO :: if k in INHERITED then Text(MemberText(k) + Decimal(m[k])) else Number(m[k])
  }

  /** The counts themselves. */
  function Numbers(m: Counts): Breakdown {
    map k | k in m :: Number(m[k])
  }

  /** `more` added to `target` bucket by bucket. */
  function Merged(target: Breakdown, more: Breakdown): Breakdown {
    map k | k in target.Keys + (more.Keys - {PROTO}) ::
      if k in more && k != PROTO then CellSum(CellAt(target, k), more[k]) else target[k]
  }

  // ---- what a breakdown says of the counts it should hold ----

  lemma MergedAt(target: Breakdown, more: Breakdown, k: string)
    ensures k in Merged(target, more) <==> k in target || (k in more && k != PROTO)
    ensures k in more && k != PROTO ==> Merged(target, more)[k] == CellSum(CellAt(target, k), more[k])
    ensures k !in more || k == PROTO ==> CellAt(Merged(target, more), k) == CellAt(target, k)
  {
    hide INHERITED, MemberText, CellSum;
  }

  /** Right for every bucket not named like an inherited member; for those, text or nothing. */
  ghost predicate Plain(b: Breakdown, m: Counts) {
    forall k :: PlainAt(b, m, k)
  }

  ghost predicate PlainAt(b: Breakdown, m: Counts, k: string) {
    if k in INHERITED then k in b ==> k in m && k != PROTO && b[k].Text?
    else (k in b <==> k in m) && (k in b ==> b[k] == Number(m[k]))
  }

  ghost predicate NoneInherited(m: Counts) {
    forall k :: k in m ==> k !in INHERITED
  }

  /** All its cells are counts, and they add up to `n`. */
  ghost predicate SumsTo(b: Breakdown, n: nat) {
    exists m: Counts :: b == Numbers(m) && |m| == n
  }

  lemma TallyIsPlain(m: Counts)
    ensures Plain(Tally(m), m)
  {
    assert PROTO in INHERITED;
    hide INHERITED;
  }

  lemma ReadBackIsPlain(b: Breakdown, m: Counts)
    requires Plain(b, m)
    ensures Plain(AsCounts(b), m)
  {
    assert PROTO in INHERITED;
    hide INHERITED;
    forall k ensures PlainAt(AsCounts(b), m, k) {
      assert PlainAt(b, m, k);
    }
  }

  lemma MergedIsPlain(a: Breakdown, m: Counts, b: Breakdown, n: Counts)
    requires Plain(a, m) && Plain(b, n)
    ensures Plain(Merged(a, b), m + n)
  {
    assert PROTO in INHERITED;
    hide INHERITED;
    forall k ensures PlainAt(Merged(a, b), m + n, k) {
      MergedCell(a, m, b, n, k);
    }
  }

  lemma MergedCell(a: Breakdown, m: Counts, b: Breakdown, n: Counts, k: string)
    requires Plain(a, m) && Plain(b, n)
    ensures PlainAt(Merged(a, b), m + n, k)
  {
    assert PlainAt(a, m, k) && PlainAt(b, n, k) && PROTO in INHERITED;
    hide INHERITED, MemberText, Merged, Decimal, Plain;
    MergedAt(a, b, k);
  }

  lemma NumbersAt(m: Counts, k: string)
    ensures k in Numbers(m) <==> k in m
    ensures k in m ==> Numbers(m)[k] == Number(m[k])
  {
  }

  /** A plain breakdown holds the counts exactly when no bucket is named like an inherited member. */
  lemma PlainIsCountsIff(b: Breakdown, m: Counts)
    requires Plain(b, m)
    ensures b == Numbers(m) <==> NoneInherited(m)
    ensures SumsTo(b, |m|) <==> NoneInherited(m)
  {
    hide INHERITED;
    forall k ensures PlainAt(b, m, k) && (k in Numbers(m) <==> k in m) && (k in m ==> Numbers(m)[k] == Number(m[k])) {
      NumbersAt(m, k);
    }
    hide Numbers;
    if NoneInherited(m) {
      assert b == Numbers(m);
    } else {
      var k :| k in m && k in INHERITED;
      assert PlainAt(b, m, k);
      forall m': Counts ensures !(b == Numbers(m') && |m'| == |m|) {
        if b == Numbers(m') {
          FewerCounts(b, m, m', k);
        }
      }
    }
  }

  lemma FewerCounts(b: Breakdown, m: Counts, m': Counts, k: string)
    requires Plain(b, m) && b == Numbers(m') && k in m && k in INHERITED
    ensures |m'| < |m|
  {
    hide INHERITED, Numbers;
    forall x ensures m'[x] <= m[x] && (x == k ==> x !in m') {
      NumbersAt(m', x);
      assert PlainAt(b, m, x);
    }
    assert m' <= m - multiset{k};
    SubsetSize(m', m - multiset{k});
  }

  lemma {:induction false} SubsetSize<T>(a: multiset<T>, b: multiset<T>)
    requires a <= b
    ensures |a| <= |b|
  {
    assert b == a + (b - a);
  }

  /** Storing a breakdown and reading it back loses exactly the texts. */
  lemma ReadBackIff(m: Counts)
    ensures AsCounts(Tally(m)) == Tally(m) <==> forall k :: k in m && k in INHERITED ==> k == PROTO
  {
    hide INHERITED;
    var t := Tally(m);
    if k :| k in m && k in INHERITED && k != PROTO {
      assert k in t && k !in AsCounts(t);
    } else {
      assert AsCounts(t).Keys == t.Keys;
    }
  }

  /** One more group counted in: a bucket of an inherited name must not have been reached before. */
  lemma TallyStep(m: Counts, key: Option<string>, n: nat)
    requires n > 0 && (Bucket(key) in INHERITED ==> Bucket(key) !in m)
    ensures AddInto(Tally(m), key, Number(n)) == Tally(Plus(m, Bucket(key), n))
  {
    assert PROTO in INHERITED;
    var a, b := AddInto(Tally(m), key, Number(n)), Tally(Plus(m, Bucket(key), n));
    hide INHERITED, MemberText, Decimal;
    forall x ensures (x in a <==> x in b) && (x in b ==> a[x] == b[x]) {
      TallyAt(m, x);
      TallyAt(Plus(m, Bucket(key), n), x);
      hide Tally;
    }
    hide Tally, AddInto;
    assert a == b;
  }

  lemma TallyAt(m: Counts, k: string)
    ensures k in Tally(m) <==> k in m && k != PROTO
    ensures k in Tally(m) ==> Tally(m)[k] == if k in INHERITED then Text(MemberText(k) + Decimal(m[k])) else Number(m[k])
  {
    hide INHERITED, MemberText, Decimal;
  }

  // ---- adding breakdowns up ----

  function MergedAll(bs: seq<Breakdown>): Breakdown {
    if bs == [] then map[] else Merged(MergedAll(bs[..|bs| - 1]), bs[|bs| - 1])
  }

  function Union(ms: seq<Counts>): Counts {
    if ms == [] then multiset{} else Union(ms[..|ms| - 1]) + ms[|ms| - 1]
  }

  ghost predicate AllPlain(bs: seq<Breakdown>, ms: seq<Counts>) {
    |bs| == |ms| && forall i :: 0 <= i < |bs| ==> Plain(bs[i], ms[i])
  }

  lemma {:induction false} MergedAllIsPlain(bs: seq<Breakdown>, ms: seq<Counts>)
    requires AllPlain(bs, ms)
    ensures Plain(MergedAll(bs), Union(ms))
  {
    hide Plain, Merged;
    var n := |bs| - 1;
    if bs == [] {
      TallyIsPlain(multiset{});
      assert Tally(multiset{}) == map[];
    } else {
      MergedAllIsPlain(bs[..n], ms[..n]);
      MergedIsPlain(MergedAll(bs[..n]), Union(ms[..n]), bs[n], ms[n]);
    }
  }

  lemma {:induction false} UnionAppend(ms: seq<Counts>, more: seq<Counts>)
    ensures Union(ms + more) == Union(ms) + Union(more)
  {
    if more == [] {
      assert ms + more == ms;
    } else {
      UnionAppend(ms, more[..|more| - 1]);
      assert (ms + more)[..|ms + more| - 1] == ms + more[..|more| - 1];
    }
  }

  /** In the total, an inherited name is there exactly if some part has text under it. */
  lemma {:induction false} TextComesFrom(bs: seq<Breakdown>, ms: seq<Counts>, k: string)
    requires AllPlain(bs, ms) && k in INHERITED
    ensures k in MergedAll(bs) <==> exists i :: 0 <= i < |bs| && k in bs[i]
  {
    hide INHERITED, Plain;
    var n := |bs| - 1;
    if bs != [] {
      TextComesFrom(bs[..n], ms[..n], k);
      assert Plain(bs[n], ms[n]);
      if k in bs[n] {
        PlainText(bs[n], ms[n], k);
      }
      if i :| 0 <= i < |bs| && k in bs[i] {
        assert i < n ==> bs[..n][i] == bs[i];
      }
    }
  }

  lemma PlainText(b: Breakdown, m: Counts, k: string)
    requires Plain(b, m) && k in INHERITED && k in b
    ensures k != PROTO && k in m && b[k].Text?
  {
    assert PlainAt(b, m, k);
  }

  /** The text `k` gathers over `more`, after what was there before. */
  lemma {:induction false} TextRunsOn(bs: seq<Breakdown>, more: seq<Breakdown>, ms: seq<Counts>, k: string) returns (t: string)
    requires AllPlain(more, ms) && k in INHERITED
    ensures k in MergedAll(more) ==>
      && MergedAll(more)[k] == Text(MemberText(k) + t)
      && k in MergedAll(bs + more) && MergedAll(bs + more)[k] == Text(Printed(CellAt(MergedAll(bs), k)) + t)
    ensures k !in MergedAll(more) ==>
      (k in MergedAll(bs + more) <==> k in MergedAll(bs)) && CellAt(MergedAll(bs + more), k) == CellAt(MergedAll(bs), k)
  {
    hide INHERITED, Plain, MemberText, Merged, Decimal;
    t := "";
    if more == [] {
      assert bs + more == bs;
    } else {
      var n := |more| - 1;
      var before := TextRunsOn(bs, more[..n], ms[..n], k);
      assert (bs + more)[..|bs + more| - 1] == bs + more[..n];
      MergedAt(MergedAll(more[..n]), more[n], k);
      MergedAt(MergedAll(bs + more[..n]), more[n], k);
      t := before;
      if k in more[n] {
        assert Plain(more[n], ms[n]);
        PlainText(more[n], ms[n], k);
        t := TextStep(MergedAll(bs), MergedAll(more[..n]), MergedAll(bs + more[..n]), k, before, more[n][k].text);
      }
    }
  }

  lemma TextStep(bs: Breakdown, more: Breakdown, all: Breakdown, k: string, before: string, own: string) returns (t: string)
    requires k in INHERITED
    requires k in more ==> more[k] == Text(MemberText(k) + before) && k in all && all[k] == Text(Printed(CellAt(bs, k)) + before)
    requires k !in more ==> CellAt(all, k) == CellAt(bs, k)
    ensures CellSum(CellAt(more, k), Text(own)) == Text(MemberText(k) + t)
    ensures CellSum(CellAt(all, k), Text(own)) == Text(Printed(CellAt(bs, k)) + t)
  {
    hide INHERITED, MemberText, Decimal;
    if k in more {
      t := before + own;
      assert (MemberText(k) + before) + own == MemberText(k) + t;
      assert (Printed(CellAt(bs, k)) + before) + own == Printed(CellAt(bs, k)) + t;
    } else {
      t := own;
    }
  }

  /** Adding up in two parts and then together is adding up at once exactly when the later part has no
      text: an inherited member is then counted in only once. */
  lemma MergedAllAddsIff(bs: seq<Breakdown>, ms: seq<Counts>, more: seq<Breakdown>, ns: seq<Counts>)
    requires AllPlain(bs, ms) && AllPlain(more, ns)
    ensures Merged(MergedAll(bs), MergedAll(more)) == MergedAll(bs + more)
      <==> forall k :: k in MergedAll(more) ==> k !in INHERITED
  {
    var b, both, all := MergedAll(more), Merged(MergedAll(bs), MergedAll(more)), MergedAll(bs + more);
    hide INHERITED, MergedAll, Merged;
    forall k
      ensures k in INHERITED && k in b ==> k in both && k in all && both[k] != all[k]
      ensures k !in INHERITED || k !in b ==> (k in both <==> k in all) && (k in both ==> both[k] == all[k])
    {
      if k !in INHERITED {
        CountsAdd(bs, ms, more, ns, k);
      } else if k in b {
        TextTwice(bs, more, ns, k);
      } else {
        TextOnce(bs, more, ns, k);
      }
    }
    hide AllPlain;
    if forall k :: k in b ==> k !in INHERITED {
      assert forall k :: (k in both <==> k in all) && (k in both ==> both[k] == all[k]);
    }
  }

  lemma CountsAdd(bs: seq<Breakdown>, ms: seq<Counts>, more: seq<Breakdown>, ns: seq<Counts>, k: string)
    requires AllPlain(bs, ms) && AllPlain(more, ns) && k !in INHERITED
    ensures var both := Merged(MergedAll(bs), MergedAll(more));
      (k in both <==> k in MergedAll(bs + more)) && (k in both ==> both[k] == MergedAll(bs + more)[k])
  {
    assert AllPlain(bs + more, ms + ns);
    hide INHERITED, MergedAll, Merged, Union, AllPlain, Plain;
    MergedAllIsPlain(bs, ms);
    MergedAllIsPlain(more, ns);
    MergedIsPlain(MergedAll(bs), Union(ms), MergedAll(more), Union(ns));
    MergedAllIsPlain(bs + more, ms + ns);
    UnionAppend(ms, ns);
    SameCounts(Merged(MergedAll(bs), MergedAll(more)), MergedAll(bs + more), Union(ms) + Union(ns), k);
  }

  lemma SameCounts(a: Breakdown, b: Breakdown, m: Counts, k: string)
    requires Plain(a, m) && Plain(b, m) && k !in INHERITED
    ensures (k in a <==> k in b) && (k in a ==> a[k] == b[k])
  {
    assert PlainAt(a, m, k) && PlainAt(b, m, k);
  }

  lemma TextTwice(bs: seq<Breakdown>, more: seq<Breakdown>, ns: seq<Counts>, k: string)
    requires AllPlain(more, ns) && k in INHERITED && k in MergedAll(more)
    ensures var both := Merged(MergedAll(bs), MergedAll(more));
      k in both && k in MergedAll(bs + more) && both[k] != MergedAll(bs + more)[k]
  {
    var a, b := MergedAll(bs), MergedAll(more);
    MergedAllIsPlain(more, ns);
    hide INHERITED, MergedAll, Merged, Union, MemberText, Decimal;
    var t := TextRunsOn(bs, more, ns, k);
    PlainText(b, Union(ns), k);
    MergedAt(a, b, k);
    LongerText(k, Printed(CellAt(a, k)), t);
  }

  lemma TextOnce(bs: seq<Breakdown>, more: seq<Breakdown>, ns: seq<Counts>, k: string)
    requires AllPlain(more, ns) && k in INHERITED && k !in MergedAll(more)
    ensures var both := Merged(MergedAll(bs), MergedAll(more));
      (k in both <==> k in MergedAll(bs + more)) && (k in both ==> both[k] == MergedAll(bs + more)[k])
  {
    hide INHERITED, MergedAll, Merged, MemberText, Decimal;
    var _ := TextRunsOn(bs, more, ns, k);
    MergedAt(MergedAll(bs), MergedAll(more), k);
  }

  lemma LongerText(k: string, before: string, t: string)
    ensures before + (MemberText(k) + t) != before + t
  {
    assert |before + (MemberText(k) + t)| != |before + t|;
  }

  // ---- a day ----

  /** A day's aggregate as it is held, stored and reported. */
  datatype DayRecord = DayRecord(
    pageviews: nat, sessions: nat, bounces: nat, engagedViews: nat, totalDurationMs: int, totalScrollDepth: int,
    byDevice: Breakdown, bySource: Breakdown, byCountry: Breakdown)

  const EMPTY_DAY := DayRecord(0, 0, 0, 0, 0, 0, map[], map[], map[])

  function CellsOf(r: DayRecord, c: Column): Breakdown {
    match c
    case Device => r.byDevice
    case Source => r.bySource
    case Country => r.byCountry
  }

  function CountsOf(m: DayMetrics, c: Column): Counts {
    match c
    case Device => m.byDevice
    case Source => m.bySource
    case Country => m.byCountry
  }

  /** The same numbers, each breakdown as `form` makes it. */
  function Formed(m: DayMetrics, form: Counts -> Breakdown): DayRecord {
    DayRecord(m.pageviews, m.sessions, m.bounces, m.engagedViews, m.totalDurationMs, m.totalScrollDepth,
              form(m.byDevice), form(m.bySource), form(m.byCountry))
  }

  /** What the code makes of a day's events. */
  function Recorded(s: seq<Event>): DayRecord {
    Formed(Measure(s), Tally)
  }

  /** What it should make of them. */
  function Exactly(m: DayMetrics): DayRecord {
    Formed(m, Numbers)
  }

  function ReadBack(r: DayRecord): DayRecord {
    r.(byDevice := AsCounts(r.byDevice), bySource := AsCounts(r.bySource), byCountry := AsCounts(r.byCountry))
  }

  /** What the range reader takes from a day of these events, rolled up or computed on the fly. */
  function DayShown(s: seq<Event>, clean: bool): DayRecord {
    if clean then ReadBack(Recorded(s)) else Recorded(s)
  }

  ghost predicate SameNumbers(r: DayRecord, m: DayMetrics) {
    && r.pageviews == m.pageviews && r.sessions == m.sessions && r.bounces == m.bounces
    && r.engagedViews == m.engagedViews && r.totalDurationMs == m.totalDurationMs
    && r.totalScrollDepth == m.totalScrollDepth
  }

  ghost predicate PlainDay(r: DayRecord, m: DayMetrics) {
    SameNumbers(r, m) && forall c: Column :: Plain(CellsOf(r, c), CountsOf(m, c))
  }

  /** No pageview falls in a bucket of `c` named like an inherited member. */
  predicate Ordinary(s: seq<Event>, c: Column) {
    forall e :: e in s && e.kind == Pageview ==> Bucket(ColumnOf(e, c)) !in INHERITED
  }

  lemma ShownIsPlain(s: seq<Event>, clean: bool)
    ensures PlainDay(DayShown(s, clean), Measure(s))
  {
    hide Measure, Plain, Tally;
    var r, m := DayShown(s, clean), Measure(s);
    forall c: Column ensures Plain(CellsOf(r, c), CountsOf(m, c)) {
      TallyIsPlain(CountsOf(m, c));
      ReadBackIsPlain(Tally(CountsOf(m, c)), CountsOf(m, c));
    }
  }

  lemma PlainDayIsExactIff(r: DayRecord, m: DayMetrics)
    requires PlainDay(r, m)
    ensures r == Exactly(m) <==> forall c: Column :: NoneInherited(CountsOf(m, c))
  {
    hide Plain, NoneInherited;
    forall c: Column ensures CellsOf(r, c) == Numbers(CountsOf(m, c)) <==> NoneInherited(CountsOf(m, c)) {
      PlainIsCountsIff(CellsOf(r, c), CountsOf(m, c));
    }
    if r == Exactly(m) {
      forall c: Column ensures CellsOf(r, c) == Numbers(CountsOf(m, c)) {
      }
    }
    if forall c: Column :: CellsOf(r, c) == Numbers(CountsOf(m, c)) {
      AllColumns(r, m);
    }
  }

  lemma AllColumns(r: DayRecord, m: DayMetrics)
    requires SameNumbers(r, m) && forall c: Column :: CellsOf(r, c) == Numbers(CountsOf(m, c))
    ensures r == Exactly(m)
  {
    hide Numbers;
    assert CellsOf(r, Device) == Numbers(m.byDevice);
    assert CellsOf(r, Source) == Numbers(m.bySource);
    assert CellsOf(r, Country) == Numbers(m.byCountry);
  }

  lemma BucketsOfDay(s: seq<Event>, c: Column, k: string)
    ensures k in CountsOf(Measure(s), c) <==> exists e :: e in s && e.kind == Pageview && Bucket(ColumnOf(e, c)) == k
  {
    SelectMember(s, BucketOf(c), k);
    hide Select, SumDuration, SumScroll, Members, Singles;
    if e :| e in s && e.kind == Pageview && Bucket(ColumnOf(e, c)) == k {
      assert BucketOf(c)(e) == Some(k);
    }
    if e :| e in s && BucketOf(c)(e) == Some(k) {
      assert e.kind == Pageview && Bucket(ColumnOf(e, c)) == k;
    }
  }

  lemma OrdinaryIff(s: seq<Event>, c: Column)
    ensures NoneInherited(CountsOf(Measure(s), c)) <==> Ordinary(s, c)
  {
    hide INHERITED, Measure;
    forall k ensures k in CountsOf(Measure(s), c) <==> exists e :: e in s && e.kind == Pageview && Bucket(ColumnOf(e, c)) == k {
      BucketsOfDay(s, c, k);
    }
  }

  lemma DayIsExactIff(s: seq<Event>, clean: bool)
    ensures DayShown(s, clean) == Exactly(Measure(s)) <==> forall c: Column :: Ordinary(s, c)
  {
    ShownIsPlain(s, clean);
    forall c: Column ensures NoneInherited(CountsOf(Measure(s), c)) <==> Ordinary(s, c) {
      OrdinaryIff(s, c);
    }
    hide Measure, Plain, DayShown, Exactly, Ordinary, NoneInherited;
    PlainDayIsExactIff(DayShown(s, clean), Measure(s));
  }

  /** A day's sessions and bounces are in order always; a breakdown sums to the pageviews, rolled up or
      computed on the fly, exactly when no bucket of its column is named like an inherited member. */
  lemma DayConsistentIff(s: seq<Event>, clean: bool, c: Column)
    ensures var r := DayShown(s, clean);
      && r.bounces <= r.sessions <= r.pageviews
      && (SumsTo(CellsOf(r, c), r.pageviews) <==> Ordinary(s, c))
  {
    MeasureIsConsistent(s);
    ShownIsPlain(s, clean);
    OrdinaryIff(s, c);
    hide Measure, Plain, DayShown, SumsTo, Ordinary, NoneInherited;
    PlainIsCountsIff(CellsOf(DayShown(s, clean), c), CountsOf(Measure(s), c));
  }

  /** No pageview is in a bucket of `c` named like an inherited member other than `__proto__`. */
  predicate Textless(s: seq<Event>, c: Column) {
    forall e :: e in s && e.kind == Pageview && Bucket(ColumnOf(e, c)) in INHERITED ==> Bucket(ColumnOf(e, c)) == PROTO
  }

  /** Rolling a day up leaves what the reader shows of it as it was exactly when no pageview is in a
      bucket of an inherited name other than `__proto__`, whose counts are lost either way. */
  lemma RollingShowsIff(s: seq<Event>)
    ensures DayShown(s, true) == DayShown(s, false) <==> forall c: Column :: Textless(s, c)
  {
    hide INHERITED, Measure, Tally, AsCounts;
    forall c: Column ensures CellsOf(DayShown(s, true), c) == CellsOf(DayShown(s, false), c) <==> Textless(s, c) {
      ReadBackIff(CountsOf(Measure(s), c));
      forall k ensures k in CountsOf(Measure(s), c) <==> exists e :: e in s && e.kind == Pageview && Bucket(ColumnOf(e, c)) == k {
        BucketsOfDay(s, c, k);
      }
    }
    SameCells(s);
    hide Textless, DayShown;
  }

  lemma SameCells(s: seq<Event>)
    ensures DayShown(s, true) == DayShown(s, false) <==>
      forall c: Column :: CellsOf(DayShown(s, true), c) == CellsOf(DayShown(s, false), c)
  {
    hide Measure, Tally, AsCounts;
    var a, b := DayShown(s, true), DayShown(s, false);
    if forall c: Column :: CellsOf(a, c) == CellsOf(b, c) {
      assert CellsOf(a, Device) == CellsOf(b, Device);
      assert CellsOf(a, Source) == CellsOf(b, Source);
      assert CellsOf(a, Country) == CellsOf(b, Country);
    }
  }

  /** One view from `http://constructor/`: a text until the day is rolled up, nothing afterwards. From
      `http://__proto__/` it is nothing at once. */
  lemma SourceNamedConstructor(e: Event)
    requires e.kind == Pageview && e.source in {Some("constructor"), Some(PROTO)}
    ensures DayShown([e], false).pageviews == DayShown([e], true).pageviews == 1
    ensures e.source == Some("constructor") ==>
      DayShown([e], false).bySource == map["constructor" := Text("function Object() { [native code] }1")]
    ensures e.source == Some(PROTO) ==> DayShown([e], false).bySource == map[]
    ensures DayShown([e], true).bySource == map[]
  {
    var k := e.source.value;
    assert k in INHERITED && Bucket(e.source) == k;
    OneView(e);
    hide Measure, INHERITED;
    OneText(k);
  }

  lemma OneView(e: Event)
    requires e.kind == Pageview
    ensures Measure([e]).pageviews == 1 && Measure([e]).bySource == multiset{Bucket(e.source)}
  {
    hide SumDuration, SumScroll, Members, Singles;
    assert [e][1..] == [];
    assert Select([e], BucketOf(Source)) == [Bucket(e.source)];
    assert Select([e], BucketOf(Device)) == [Bucket(e.device)];
  }

  lemma OneText(k: string)
    requires k in INHERITED
    ensures Tally(multiset{k}) == if k == PROTO then map[] else map[k := Text(MemberText(k) + "1")]
    ensures AsCounts(Tally(multiset{k})) == map[]
    ensures MemberText("constructor") + "1" == "function Object() { [native code] }1"
  {
    assert Decimal(1) == "1";
    hide INHERITED, Decimal;
    assert MemberText("constructor") == "function Object() { [native code] }";
    hide MemberText;
    assert Tally(multiset{k}).Keys == if k == PROTO then {} else {k};
  }
}
