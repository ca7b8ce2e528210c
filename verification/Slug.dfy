/** The slug field's normalizer: the same whether typed key by key or pasted whole. Decomposition,
    dropping of marks and lower-casing are one map from a character to a string, which leaves the
    slug alphabet alone. */
module Slug {
  const MAX_SLUG := 80

  predicate Word(c: char) {
    'a' <= c <= 'z' || '0' <= c <= '9'
  }

  predicate SlugChar(c: char) {
    Word(c) || c == '-'
  }

  ghost predicate KeepsSlugs(fold: char -> string) {
    forall c :: SlugChar(c) ==> fold(c) == [c]
  }

  function Folded(s: string, fold: char -> string): string {
    if s == "" then "" else fold(s[0]) + Folded(s[1..], fold)
  }

  function SkipOthers(s: string): (r: string)
    ensures |r| <= |s|
  {
    if s != "" && !SlugChar(s[0]) then SkipOthers(s[1..]) else s
  }

  /** Every run of characters outside the alphabet becomes one hyphen. */
  function Dashed(s: string): string
    decreases |s|
  {
    if s == "" then ""
    else if SlugChar(s[0]) then [s[0]] + Dashed(s[1..])
    else "-" + Dashed(SkipOthers(s[1..]))
  }

  /** Every run of hyphens becomes one. */
  function Squeezed(s: string): string {
    if s == "" then ""
    else if |s| > 1 && s[0] == '-' && s[1] == '-' then Squeezed(s[1..])
    else [s[0]] + Squeezed(s[1..])
  }

  function TrimLeft(s: string): string {
    if s != "" && s[0] == '-' then TrimLeft(s[1..]) else s
  }

  function TrimRight(s: string): string {
    if s != "" && s[|s| - 1] == '-' then TrimRight(s[..|s| - 1]) else s
  }

  function Cap(s: string): string {
    if |s| <= MAX_SLUG then s else s[..MAX_SLUG]
  }

  /** Per-keystroke normalization: everything but the trailing trim. */
  function SlugifyInput(s: string, fold: char -> string): string {
    Cap(TrimLeft(Squeezed(Dashed(Folded(s, fold)))))
  }

  function Slugify(s: string, fold: char -> string): string {
    TrimRight(SlugifyInput(s, fold))
  }

  // ---- the same in one pass ----

  /** One pass over the folded text; `gap` says a hyphen here would be a leading or a second one. */
  function Norm(s: string, gap: bool): string {
    if s == "" then ""
    else if Word(s[0]) then [s[0]] + Norm(s[1..], false)
    else if gap then Norm(s[1..], true)
    else "-" + Norm(s[1..], true)
  }

  lemma {:induction false} SkipKeepsNorm(s: string)
    ensures Norm(SkipOthers(s), true) == Norm(s, true)
  {
    if s != "" && !SlugChar(s[0]) {
      SkipKeepsNorm(s[1..]);
    }
  }

  lemma {:induction false} SqueezedIsNorm(s: string)
    ensures Squeezed(Dashed(s)) == Norm(s, false)
    decreases |s|
  {
    if s == "" {
    } else {
      var rest := if SlugChar(s[0]) then s[1..] else SkipOthers(s[1..]);
      var tail := Dashed(rest);
      SqueezedIsNorm(rest);
      assert ([s[0]] + tail)[1..] == tail && ("-" + tail)[1..] == tail;
      SkipKeepsNorm(s[1..]);
    }
  }

  lemma {:induction false} TrimmedIsNorm(s: string)
    ensures TrimLeft(Norm(s, false)) == Norm(s, true)
    ensures Norm(s, true) != "" ==> Word(Norm(s, true)[0])
  {
    if s == "" {
    } else {
      TrimmedIsNorm(s[1..]);
      if !Word(s[0]) {
        assert ("-" + Norm(s[1..], true))[1..] == Norm(s[1..], true);
      }
    }
  }

  /** The pipeline of replacements is the one pass, capped. */
  lemma InputIsNorm(s: string, fold: char -> string)
    ensures SlugifyInput(s, fold) == Cap(Norm(Folded(s, fold), true))
  {
    SqueezedIsNorm(Folded(s, fold));
    TrimmedIsNorm(Folded(s, fold));
  }

  // ---- normal forms ----

  /** Slug characters, no two hyphens together. */
  predicate Spaced(s: string) {
    && (forall i :: 0 <= i < |s| ==> SlugChar(s[i]))
    && (forall i :: 0 < i < |s| ==> s[i - 1] != '-' || s[i] != '-')
  }

  /** Words joined by single hyphens, with perhaps one at the end. */
  predicate Normal(s: string) {
    Spaced(s) && (s != "" ==> s[0] != '-')
  }

  lemma SpacedCons(c: char, rest: string)
    ensures Spaced([c] + rest) <==> SlugChar(c) && Spaced(rest) && (rest != "" ==> c != '-' || rest[0] != '-')
  {
    var s := [c] + rest;
    assert s[0] == c && forall i :: 0 <= i < |rest| ==> s[i + 1] == rest[i];
    if SlugChar(c) && Spaced(rest) && (rest != "" ==> c != '-' || rest[0] != '-') {
      forall i | 0 <= i < |s| ensures SlugChar(s[i]) {
        assert i > 0 ==> s[i] == rest[i - 1];
      }
      forall i | 0 < i < |s| ensures s[i - 1] != '-' || s[i] != '-' {
        assert s[i] == rest[i - 1] && (i > 1 ==> s[i - 1] == rest[i - 2]);
      }
    }
    if Spaced(s) {
      forall i | 0 <= i < |rest| ensures SlugChar(rest[i]) {
        assert SlugChar(s[i + 1]);
      }
      forall i | 0 < i < |rest| ensures rest[i - 1] != '-' || rest[i] != '-' {
        assert s[i + 1 - 1] != '-' || s[i + 1] != '-';
      }
      assert rest != "" ==> s[1 - 1] != '-' || s[1] != '-';
    }
  }

  lemma {:induction false} NormIsNormal(s: string, gap: bool)
    ensures Spaced(Norm(s, gap)) && (gap ==> Normal(Norm(s, gap)))
  {
    if s == "" {
    } else {
      NormIsNormal(s[1..], !Word(s[0]));
      SpacedCons(if Word(s[0]) then s[0] else '-', Norm(s[1..], !Word(s[0])));
    }
  }

  lemma {:induction false} NormalIsFixed(s: string, gap: bool)
    requires Spaced(s) && (gap ==> Normal(s))
    ensures Norm(s, gap) == s
  {
    if s == "" {
    } else {
      assert s == [s[0]] + s[1..];
      SpacedCons(s[0], s[1..]);
      NormalIsFixed(s[1..], !Word(s[0]));
    }
  }

  lemma PrefixIsNormal(s: string, n: nat)
    requires Normal(s) && n <= |s|
    ensures Normal(s[..n])
  {
  }

  // ---- text arriving in pieces ----

  /** Whether the pass stands at a gap after `s`. */
  function GapAfter(s: string, gap: bool): bool {
    if s == "" then gap else !Word(s[|s| - 1])
  }

  lemma GapOfRest(s: string, gap: bool)
    requires s != ""
    ensures GapAfter(s[1..], !Word(s[0])) == GapAfter(s, gap)
  {
    if s[1..] == "" {
      assert s == [s[0]];
    }
  }

  lemma {:induction false} NormAppend(a: string, b: string, gap: bool)
    ensures Norm(a + b, gap) == Norm(a, gap) + Norm(b, GapAfter(a, gap))
  {
    if a == "" {
      assert a + b == b;
    } else {
      var c, rest := a[0], a[1..];
      var head := if Word(c) then [c] else if gap then "" else "-";
      assert (a + b)[1..] == rest + b;
      NormAppend(rest, b, !Word(c));
      GapOfRest(a, gap);
      var x, y := Norm(rest, !Word(c)), Norm(b, GapAfter(a, gap));
      assert Norm(a + b, gap) == head + (x + y) && Norm(a, gap) == head + x;
      hide Norm;
      assert head + (x + y) == (head + x) + y;
    }
  }

  /** Normalizing leaves the pass where the text left it. */
  lemma {:induction false} NormKeepsGap(s: string, gap: bool)
    ensures GapAfter(Norm(s, gap), gap) == GapAfter(s, gap)
  {
    if s == "" {
    } else {
      NormKeepsGap(s[1..], !Word(s[0]));
      if s[1..] == "" {
        assert s == [s[0]];
      }
    }
  }

  lemma {:induction false} FoldedAppend(a: string, b: string, fold: char -> string)
    ensures Folded(a + b, fold) == Folded(a, fold) + Folded(b, fold)
  {
    if a == "" {
      assert a + b == b;
    } else {
      assert (a + b)[1..] == a[1..] + b;
      FoldedAppend(a[1..], b, fold);
    }
  }

  lemma {:induction false} FoldedSlug(s: string, fold: char -> string)
    requires KeepsSlugs(fold) && forall i :: 0 <= i < |s| ==> SlugChar(s[i])
    ensures Folded(s, fold) == s
  {
    if s == "" {
    } else {
      FoldedSlug(s[1..], fold);
    }
  }

  lemma InputIsNormal(s: string, fold: char -> string)
    ensures Normal(SlugifyInput(s, fold)) && |SlugifyInput(s, fold)| <= 80
    ensures forall c :: c in SlugifyInput(s, fold) ==> 'a' <= c <= 'z' || '0' <= c <= '9' || c == '-'
  {
    InputIsNorm(s, fold);
    NormIsNormal(Folded(s, fold), true);
  }

  // ---- words and the gaps between them ----

  ghost predicate Letters(s: string) {
    forall i :: 0 <= i < |s| ==> 'a' <= s[i] <= 'z' || '0' <= s[i] <= '9'
  }

  ghost predicate NoLetters(s: string) {
    forall i :: 0 <= i < |s| ==> !('a' <= s[i] <= 'z' || '0' <= s[i] <= '9')
  }

  /** Words, each with the gap after it: none is empty but perhaps the last gap. */
  ghost predicate AreWords(pieces: seq<(string, string)>) {
    forall i :: 0 <= i < |pieces| ==>
      && pieces[i].0 != "" && Letters(pieces[i].0) && NoLetters(pieces[i].1)
      && (pieces[i].1 == "" ==> i == |pieces| - 1)
  }

  ghost function Spelled(pieces: seq<(string, string)>): string {
    if pieces == [] then "" else pieces[0].0 + (pieces[0].1 + Spelled(pieces[1..]))
  }

  /** The words with one hyphen for each gap. */
  ghost function Hyphened(pieces: seq<(string, string)>): string {
    if pieces == [] then "" else pieces[0].0 + ((if pieces[0].1 == "" then "" else "-") + Hyphened(pieces[1..]))
  }

  lemma {:induction false} NormLetters(s: string, gap: bool)
    requires Letters(s)
    ensures Norm(s, gap) == s
    ensures s != "" ==> !GapAfter(s, gap)
  {
    if s != "" {
      NormLetters(s[1..], false);
      assert s == [s[0]] + s[1..];
    }
  }

  lemma {:induction false} NormGap(s: string, gap: bool)
    requires NoLetters(s)
    ensures Norm(s, gap) == if s == "" || gap then "" else "-"
    ensures s != "" ==> GapAfter(s, gap)
  {
    if s != "" {
      NormGap(s[1..], true);
    }
  }

  lemma {:induction false} NormWords(pieces: seq<(string, string)>)
    requires AreWords(pieces)
    ensures Norm(Spelled(pieces), true) == Hyphened(pieces)
  {
    if pieces != [] {
      var word, gap, rest := pieces[0].0, pieces[0].1, Spelled(pieces[1..]);
      assert AreWords(pieces[1..]);
      NormWords(pieces[1..]);
      NormLetters(word, true);
      NormGap(gap, false);
      NormAppend(word, gap + rest, true);
      NormAppend(gap, rest, false);
      if gap == "" {
        assert pieces[1..] == [];
      }
    }
  }

  /** Every text is words and gaps, after a gap that may be empty. */
  lemma {:induction false} Spelling(s: string) returns (lead: string, pieces: seq<(string, string)>)
    ensures NoLetters(lead) && AreWords(pieces) && s == lead + Spelled(pieces)
  {
    if s == "" {
      lead, pieces := "", [];
    } else {
      var lead1, rest := Spelling(s[1..]);
      assert s == [s[0]] + (lead1 + Spelled(rest));
      if !Word(s[0]) {
        lead, pieces := [s[0]] + lead1, rest;
        assert s == lead + Spelled(pieces);
      } else if lead1 == "" && rest != [] {
        var first := ([s[0]] + rest[0].0, rest[0].1);
        lead, pieces := "", [first] + rest[1..];
        Prepended(s[0], rest);
      } else {
        lead, pieces := "", [([s[0]], lead1)] + rest;
        assert pieces[1..] == rest;
      }
    }
  }

  lemma Prepended(c: char, rest: seq<(string, string)>)
    requires rest != [] && Word(c) && AreWords(rest)
    ensures var pieces := [([c] + rest[0].0, rest[0].1)] + rest[1..];
      AreWords(pieces) && Spelled(pieces) == [c] + Spelled(rest)
  {
    var pieces := [([c] + rest[0].0, rest[0].1)] + rest[1..];
    assert pieces[1..] == rest[1..];
    var more := rest[0].1 + Spelled(rest[1..]);
    assert ([c] + rest[0].0) + more == [c] + (rest[0].0 + more);
  }

  /** The slug of a text is its words, as folded, with one hyphen for each gap after a word; of that the
      first 80 characters. `slugify` drops the hyphen it may end in. */
  lemma SlugIsWords(s: string, fold: char -> string, lead: string, pieces: seq<(string, string)>)
    requires Folded(s, fold) == lead + Spelled(pieces) && NoLetters(lead) && AreWords(pieces)
    ensures var all := Hyphened(pieces);
      SlugifyInput(s, fold) == if |all| <= 80 then all else all[..80]
    ensures var input, slug := SlugifyInput(s, fold), Slugify(s, fold);
      && (input == slug || input == slug + "-") && (slug != "" ==> slug[|slug| - 1] != '-')
  {
    InputIsNorm(s, fold);
    NormAppend(lead, Spelled(pieces), true);
    NormGap(lead, true);
    NormWords(pieces);
    InputIsNormal(s, fold);
    OneTrim(SlugifyInput(s, fold));
  }

  lemma OneTrim(s: string)
    requires Normal(s)
    ensures var t := TrimRight(s);
      && (s == t || s == t + "-") && (t != "" ==> t[|t| - 1] != '-')
  {
    TrimIsPrefix(s);
    if s != "" && s[|s| - 1] == '-' {
      var rest := s[..|s| - 1];
      assert s == rest + "-";
      var last := |s| - 1;
      assert rest != "" ==> s[last - 1] != '-';
      TrimIsPrefix(rest);
    }
  }

  /** Normalizing what is there and then what is added is normalizing it all at once, also past the
      length cap. */
  lemma InputAppend(a: string, b: string, fold: char -> string)
    requires KeepsSlugs(fold)
    ensures SlugifyInput(SlugifyInput(a, fold) + b, fold) == SlugifyInput(a + b, fold)
  {
    var folded, more := Folded(a, fold), Folded(b, fold);
    var whole, kept := Norm(folded, true), SlugifyInput(a, fold);
    InputIsNorm(a, fold);
    InputIsNormal(a, fold);
    FoldedSlug(kept, fold);
    FoldedAppend(kept, b, fold);
    FoldedAppend(a, b, fold);
    InputIsNorm(kept + b, fold);
    InputIsNorm(a + b, fold);
    NormalIsFixed(kept, true);
    NormAppend(kept, more, true);
    NormAppend(folded, more, true);
    if |whole| <= MAX_SLUG {
      NormKeepsGap(folded, true);
    } else {
      CapOfLonger(whole, Norm(more, GapAfter(folded, true)), Norm(more, GapAfter(kept, true)));
    }
  }

  lemma CapOfLonger(s: string, t: string, u: string)
    requires |s| >= MAX_SLUG
    ensures Cap(s + t) == Cap(Cap(s) + u) == s[..MAX_SLUG]
  {
  }

  function Joined(pieces: seq<string>): string {
    if pieces == [] then "" else Joined(pieces[..|pieces| - 1]) + pieces[|pieces| - 1]
  }

  /** The controlled field: each piece, a keystroke or a paste, is normalized as it arrives. */
  function Typed(pieces: seq<string>, fold: char -> string): string {
    if pieces == [] then "" else SlugifyInput(Typed(pieces[..|pieces| - 1], fold) + pieces[|pieces| - 1], fold)
  }

  /** However the text arrives, key by key or pasted in pieces, the field ends up the same. */
  lemma {:induction false} TypedIsPasted(pieces: seq<string>, fold: char -> string)
    requires KeepsSlugs(fold)
    ensures Typed(pieces, fold) == SlugifyInput(Joined(pieces), fold)
  {
    if pieces == [] {
    } else {
      var n := |pieces| - 1;
      TypedIsPasted(pieces[..n], fold);
      InputAppend(Joined(pieces[..n]), pieces[n], fold);
    }
  }

  // ---- the finished slug ----

  lemma {:induction false} TrimIsPrefix(s: string)
    ensures |TrimRight(s)| <= |s| && TrimRight(s) == s[..|TrimRight(s)|]
    ensures TrimRight(s) != "" ==> TrimRight(s)[|TrimRight(s)| - 1] != '-'
    ensures (s == "" || s[|s| - 1] != '-') ==> TrimRight(s) == s
  {
    if s != "" && s[|s| - 1] == '-' {
      TrimIsPrefix(s[..|s| - 1]);
    }
  }

  /** What the per-keystroke normalizer leaves alone: exactly the normal forms within the cap. */
  lemma InputFixedIff(s: string, fold: char -> string)
    requires KeepsSlugs(fold)
    ensures SlugifyInput(s, fold) == s <==> Normal(s) && |s| <= MAX_SLUG
  {
    InputIsNormal(s, fold);
    if Normal(s) && |s| <= MAX_SLUG {
      FoldedSlug(s, fold);
      NormalIsFixed(s, true);
      InputIsNorm(s, fold);
    }
  }

  /** What `slugify` leaves alone: those that do not end in a hyphen. */
  lemma SlugFixedIff(s: string, fold: char -> string)
    requires KeepsSlugs(fold)
    ensures Slugify(s, fold) == s <==> Normal(s) && |s| <= MAX_SLUG && (s == "" || s[|s| - 1] != '-')
  {
    InputFixedIff(s, fold);
    InputIsNormal(s, fold);
    TrimIsPrefix(SlugifyInput(s, fold));
    if Slugify(s, fold) == s {
      PrefixIsNormal(SlugifyInput(s, fold), |s|);
    }
  }

  /** The slug a field ends with on blur is the slug of the whole text, and finishing it again, or
      generating it again, changes nothing. */
  lemma SlugifyIsIdempotent(s: string, fold: char -> string)
    requires KeepsSlugs(fold)
    ensures Slugify(Slugify(s, fold), fold) == Slugify(s, fold)
    ensures Slugify(SlugifyInput(s, fold), fold) == Slugify(s, fold)
  {
    var input := SlugifyInput(s, fold);
    InputIsNormal(s, fold);
    InputFixedIff(input, fold);
    TrimIsPrefix(input);
    PrefixIsNormal(input, |TrimRight(input)|);
    SlugFixedIff(TrimRight(input), fold);
  }
}
