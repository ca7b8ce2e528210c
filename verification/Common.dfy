/** An optional value: a nullable column or an absent argument. */
module Options {
  datatype Option<+T> = None | Some(value: T)
}

/** Splitting a list so that one statement never binds too many values. */
module Chunks {
  const IN_CHUNK := 90

  function Flatten<T>(chunks: seq<seq<T>>): seq<T> {
    if chunks == [] then [] else chunks[0] + Flatten(chunks[1..])
  }

  lemma {:induction false} FlattenSnoc<T>(chunks: seq<seq<T>>, last: seq<T>)
    ensures Flatten(chunks + [last]) == Flatten(chunks) + last
  {
    if chunks == [] {
    } else {
      assert (chunks + [last])[1..] == chunks[1..] + [last];
      FlattenSnoc(chunks[1..], last);
    }
  }

  /** The first `i + 1` chunks hold chunk `i` after the first `i`. */
  lemma FlattenTake<T>(chunks: seq<seq<T>>, i: nat)
    requires i < |chunks|
    ensures Flatten(chunks[..i + 1]) == Flatten(chunks[..i]) + chunks[i]
  {
    assert chunks[..i + 1] == chunks[..i] + [chunks[i]];
    FlattenSnoc(chunks[..i], chunks[i]);
  }

  lemma {:induction false} FlattenSplit<T>(chunks: seq<seq<T>>, i: nat)
    requires i <= |chunks|
    ensures Flatten(chunks) == Flatten(chunks[..i]) + Flatten(chunks[i..])
  {
    if i == 0 {
      assert chunks[i..] == chunks;
    } else {
      FlattenSplit(chunks, i - 1);
      FlattenTake(chunks, i - 1);
      assert chunks[i - 1..][1..] == chunks[i..];
    }
  }

  /** Nothing lost, repeated or reordered, and no chunk empty or over the cap. */
  method Chunked<T>(items: seq<T>, size: nat) returns (out: seq<seq<T>>)
    requires size > 0
    ensures Flatten(out) == items
    ensures forall c :: c in out ==> 0 < |c| <= size
    ensures forall i :: 0 <= i < |out| - 1 ==> |out[i]| == size
  {
    out := [];
    var i := 0;
    while i < |items|
      invariant 0 <= i
      invariant Flatten(out) == items[..if i <= |items| then i else |items|]
      invariant forall c :: c in out ==> 0 < |c| <= size
      invariant i < |items| ==> forall k :: 0 <= k < |out| ==> |out[k]| == size
      invariant forall k :: 0 <= k < |out| - 1 ==> |out[k]| == size
    {
      var end := if i + size <= |items| then i + size else |items|;
      FlattenSnoc(out, items[i..end]);
      assert items[..i] + items[i..end] == items[..end];
      out := out + [items[i..end]];
      i := i + size;
    }
    assert items[..|items|] == items;
  }
}

/** Sets of day numbers in ascending order. */
module Ascending {
  import opened Options

  predicate IsAscending(s: seq<int>) {
    forall i, j :: 0 <= i < j < |s| ==> s[i] < s[j]
  }

  /** A witness that a set is not empty. */
  lemma Pick<T>(s: set<T>) returns (x: T)
    requires s != {}
    ensures x in s
  {
    x :| x in s;
  }

  lemma {:induction false} MinExists(s: set<int>) returns (m: int)
    requires s != {}
    ensures m in s && forall x :: x in s ==> m <= x
  {
    m := Pick(s);
    if s != {m} {
      var least := MinExists(s - {m});
      assert forall x :: x in s ==> x == m || x in s - {m};
      m := if m <= least then m else least;
    }
  }

  function Min(s: set<int>): (m: int)
    requires s != {}
    ensures m in s && forall x :: x in s ==> m <= x
  {
    assert exists m :: m in s && forall x :: x in s ==> m <= x by {
      var _ := MinExists(s);
    }
    var m :| m in s && forall x :: x in s ==> m <= x;
    m
  }

  function Sorted(s: set<int>): (r: seq<int>)
    ensures |r| == |s|
    ensures forall x :: x in r <==> x in s
    ensures IsAscending(r)
  {
    if s == {} then [] else
      var m := Min(s);
      [m] + Sorted(s - {m})
  }

  /** The newest of a set of days, if there is one. */
  function Newest(s: set<int>): (m: Option<int>)
    ensures m.None? <==> s == {}
    ensures m.Some? ==> m.value in s && forall x :: x in s ==> x <= m.value
  {
    if s == {} then None else
      var r := Sorted(s);
      assert forall x :: x in s ==> x in r;
      Some(r[|r| - 1])
  }

  function Take<T>(s: seq<T>, n: nat): seq<T> {
    if n <= |s| then s[..n] else s
  }

  predicate Distinct<T(==)>(s: seq<T>) {
    forall i, j :: 0 <= i < j < |s| ==> s[i] != s[j]
  }

  /** A prefix of an ascending list takes every smaller element first. */
  lemma PrefixIsOldest(r: seq<int>, n: nat, x: int, y: int)
    requires IsAscending(r)
    requires x in Take(r, n) && y in r && y !in Take(r, n)
    ensures x < y
  {
    var i :| 0 <= i < |r| && r[i] == y;
    var j :| 0 <= j < |Take(r, n)| && Take(r, n)[j] == x;
    assert forall k :: 0 <= k < |Take(r, n)| ==> Take(r, n)[k] == r[k];
    assert i >= |Take(r, n)|;
  }
}
