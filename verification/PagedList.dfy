/** A paged list: the reducer that drops answers to an older query, and the request discipline of
    the hook around it. */
module PagedList {
  datatype Phase = Loading | Ready | Failed

  datatype State<T> = State(rows: seq<T>, phase: Phase, hasMore: bool, offset: nat, loading: bool, gen: nat)

  datatype Action<!T> =
    | Reset(gen: nat, keepRows: bool)
    | Request(gen: nat)
    | Loaded(gen: nat, offset: nat, rows: seq<T>, pageSize: nat)
    | Failure(gen: nat)
    | Patch(update: seq<T> -> seq<T>)

  function Initial<T>(): State<T> {
    State([], Loading, false, 0, true, 0)
  }

  function Reduce<T>(s: State<T>, a: Action<T>): State<T> {
    match a
    case Reset(gen, keepRows) => State(if keepRows then s.rows else [], Loading, false, 0, true, gen)
    case Request(gen) => if gen != s.gen then s else s.(loading := true)
    case Loaded(gen, offset, rows, pageSize) =>
      if gen != s.gen then s
      else s.(rows := if offset == 0 then rows else s.rows + rows, phase := Ready,
              hasMore := |rows| == pageSize, offset := offset + |rows|, loading := false)
    case Failure(gen) =>
      if gen != s.gen then s
      else if s.phase == Ready then s.(loading := false)
      else s.(rows := [], hasMore := false, offset := 0, loading := false, phase := Failed)
    case Patch(update) => s.(rows := update(s.rows))
  }

  function Fold<T>(s: State<T>, actions: seq<Action<T>>): State<T>
    decreases |actions|
  {
    if actions == [] then s else Fold(Reduce(s, actions[0]), actions[1..])
  }

  // ---- stale answers ----

  /** About an older (or another) query than the one whose generation is `gen`. */
  predicate Stale<T>(a: Action<T>, gen: nat) {
    (a.Request? || a.Loaded? || a.Failure?) && a.gen != gen
  }

  function GenAfter<T>(gen: nat, a: Action<T>): nat {
    if a.Reset? then a.gen else gen
  }

  function EraseStale<T>(gen: nat, actions: seq<Action<T>>): seq<Action<T>>
    decreases |actions|
  {
    if actions == [] then []
    else if Stale(actions[0], gen) then EraseStale(gen, actions[1..])
    else [actions[0]] + EraseStale(GenAfter(gen, actions[0]), actions[1..])
  }

  /** Erasing every action that answers an older query, wherever it falls, leaves the final state as
      it was. */
  lemma {:induction false} StaleActionsAreInvisible<T>(s: State<T>, actions: seq<Action<T>>)
    ensures Fold(s, EraseStale(s.gen, actions)) == Fold(s, actions)
    decreases |actions|
  {
    if actions == [] {
    } else {
      var a, rest := actions[0], actions[1..];
      StaleActionsAreInvisible(Reduce(s, a), rest);
      if !Stale(a, s.gen) {
        assert ([a] + EraseStale(GenAfter(s.gen, a), rest))[1..] == EraseStale(GenAfter(s.gen, a), rest);
      }
    }
  }

  /** So two traces that differ only in late answers end alike. */
  lemma OnlyFreshActionsCount<T>(s: State<T>, a: seq<Action<T>>, b: seq<Action<T>>)
    requires EraseStale(s.gen, a) == EraseStale(s.gen, b)
    ensures Fold(s, a) == Fold(s, b)
  {
    StaleActionsAreInvisible(s, a);
    StaleActionsAreInvisible(s, b);
  }

  // ---- one answer ----

  function Page<T>(list: seq<T>, offset: nat, limit: nat): seq<T> {
    if offset >= |list| then [] else if offset + limit <= |list| then list[offset..offset + limit] else list[offset..]
  }

  /** The rows on screen are the first `offset` rows of the query's list. */
  ghost predicate IsPrefix<T>(s: State<T>, list: seq<T>) {
    s.offset <= |list| && s.rows == list[..s.offset]
  }

  /** An answer to the current query keeps a right list right exactly when it is a first page or
      starts where the rows on screen end. */
  lemma LoadedKeepsPrefixIff<T>(s: State<T>, list: seq<T>, offset: nat, limit: nat)
    requires IsPrefix(s, list)
    ensures IsPrefix(Reduce(s, Loaded(s.gen, offset, Page(list, offset, limit), limit)), list)
      <==> offset == 0 || offset == s.offset
  {
    var page := Page(list, offset, limit);
    if offset == 0 {
      assert page == list[..|page|];
    } else if offset == s.offset {
      assert list[..offset] + page == list[..offset + |page|];
    } else {
      assert |s.rows + page| == s.offset + |page|;
    }
  }

  // ---- the hook ----

  /** The hook's own generation counter, what the reducer holds, and the requests not yet answered. */
  datatype Hook<T> = Hook(gen: nat, list: State<T>, inFlight: multiset<(nat, nat)>)

  datatype Step =
    | NewQuery(keepRows: bool)
    | LoadMore
    | Reload
    | Answered(request: (nat, nat))
    | Broke(request: (nat, nat))

  function Load<T>(h: Hook<T>, offset: nat): Hook<T> {
    h.(list := Reduce(h.list, Request(h.gen)), inFlight := h.inFlight + multiset{(h.gen, offset)})
  }

  predicate Enabled<T>(h: Hook<T>, s: Step) {
    (s.Answered? || s.Broke?) ==> s.request in h.inFlight
  }

  /** `lists(g)` is what the server holds for query `g`. */
  function After<T>(h: Hook<T>, lists: nat -> seq<T>, pageSize: nat, s: Step): Hook<T> {
    match s
    case NewQuery(keepRows) =>
      Load(Hook(h.gen + 1, Reduce(h.list, Reset(h.gen + 1, keepRows)), h.inFlight), 0)
    case LoadMore => Load(h, h.list.offset)
    case Reload => Load(h, 0)
    case Answered(r) =>
      h.(list := Reduce(h.list, Loaded(r.0, r.1, Page(lists(r.0), r.1, pageSize), pageSize)),
         inFlight := h.inFlight - multiset{r})
    case Broke(r) =>
      h.(list := Reduce(h.list, Failure(r.0)), inFlight := h.inFlight - multiset{r})
  }

  /** The controls are disabled while a request of the current query is out. */
  predicate Polite<T>(h: Hook<T>, s: Step) {
    (s.LoadMore? || s.Reload?) ==> !h.list.loading
  }

  ghost predicate StepsAt<T>(hs: seq<Hook<T>>, lists: nat -> seq<T>, pageSize: nat, steps: seq<Step>, i: nat)
    requires i < |steps| && |hs| == |steps| + 1
  {
    Enabled(hs[i], steps[i]) && hs[i + 1] == After(hs[i], lists, pageSize, steps[i])
  }

  /** A run from the mount, which starts the first query. */
  ghost predicate IsRun<T>(hs: seq<Hook<T>>, lists: nat -> seq<T>, pageSize: nat, steps: seq<Step>) {
    && |hs| == |steps| + 1
    && hs[0] == Hook(0, Initial(), multiset{})
    && (|steps| > 0 ==> steps[0].NewQuery?)
    && forall i :: 0 <= i < |steps| ==> StepsAt(hs, lists, pageSize, steps, i)
  }

  /** What the screen shows after each step. A new query keeps the old rows only if asked to, claims none
      of them, and is loading. Asking again changes nothing but the spinner. The answer to the current
      query replaces the rows or adds to them, stops the spinner, and says there is more exactly if the
      list reaches a full page past where it was asked. A failure leaves a ready list as it is; a list
      that was not ready is dropped. What concerns an older query changes nothing. */
  lemma StepShows<T>(h: Hook<T>, lists: nat -> seq<T>, pageSize: nat, s: Step)
    requires Enabled(h, s) && h.list.gen == h.gen && pageSize > 0
    ensures var h' := After(h, lists, pageSize, s);
      var old', new' := h.list, h'.list;
      && new'.gen == h'.gen == (if s.NewQuery? then h.gen + 1 else h.gen)
      && (s.NewQuery? ==>
           && new'.rows == (if s.keepRows then old'.rows else []) && new'.phase == Loading && new'.loading
           && !new'.hasMore && new'.offset == 0 && h'.inFlight == h.inFlight + multiset{(h'.gen, 0)})
      && (s.LoadMore? || s.Reload? ==>
           && new'.loading && new'.rows == old'.rows && new'.phase == old'.phase && new'.hasMore == old'.hasMore
           && new'.offset == old'.offset
           && h'.inFlight == h.inFlight + multiset{(h.gen, if s.Reload? then 0 else old'.offset)})
      && (s.Answered? || s.Broke? ==> h'.inFlight == h.inFlight - multiset{s.request})
      && ((s.Answered? || s.Broke?) && s.request.0 != h.gen ==> new' == old')
      && (s.Answered? && s.request.0 == h.gen ==>
           var list, at := lists(h.gen), s.request.1;
           && new'.phase == Ready && !new'.loading
           && new'.offset == (if |list| < at then at else if |list| < at + pageSize then |list| else at + pageSize)
           && new'.rows == (if at == 0 then [] else old'.rows) + (if |list| < at then [] else list[at..new'.offset])
           && (new'.hasMore <==> at + pageSize <= |list|))
      && (s.Broke? && s.request.0 == h.gen ==>
           && !new'.loading
           && if old'.phase == Ready then new'.(loading := old'.loading) == old'
              else new'.rows == [] && new'.phase == Failed && !new'.hasMore && new'.offset == 0)
  {
    if s.Answered? && s.request.0 == h.gen && s.request.1 == 0 {
      var page := Page(lists(h.gen), 0, pageSize);
      assert [] + page == page;
    }
  }

  /** A local edit touches the rows alone. */
  lemma PatchShows<T>(s: State<T>, update: seq<T> -> seq<T>)
    ensures var s' := Reduce(s, Patch(update));
      s'.rows == update(s.rows) && s' == s.(rows := s'.rows)
  {
  }

  /** The request of the current query that is out, if any, asks for a first page or for what comes
      next, and it is the only one. */
  ghost predicate OneOut<T>(h: Hook<T>) {
    && h.list.gen == h.gen
    && (forall r :: r in h.inFlight ==> r.0 <= h.gen)
    && (h.list.loading <==> exists r :: r in h.inFlight && r.0 == h.gen)
    && (forall r :: r in h.inFlight && r.0 == h.gen ==> r.1 in {0, h.list.offset} && h.inFlight[r] == 1)
    && (forall r, q :: r in h.inFlight && q in h.inFlight && r.0 == h.gen && q.0 == h.gen ==> r == q)
  }

  /** A ready list is a prefix of the query's list, and all of it once it says there is no more; a
      list that never arrived claims no offset. */
  ghost predicate Right<T>(h: Hook<T>, list: seq<T>) {
    && (h.list.phase == Ready ==> IsPrefix(h.list, list) && (!h.list.hasMore ==> h.list.rows == list))
    && (h.list.phase != Ready ==> h.list.offset == 0)
  }

  /** Asking when nothing of the current query is out. */
  lemma LoadKeeps<T>(h: Hook<T>, offset: nat)
    requires h.list.gen == h.gen && offset in {0, h.list.offset}
    requires forall r :: r in h.inFlight ==> r.0 < h.gen
    ensures OneOut(Load(h, offset))
  {
    var asked := (h.gen, offset);
    var h' := Load(h, offset);
    assert asked in h'.inFlight && asked.0 == h'.gen;
    assert forall r :: r in h'.inFlight ==> r == asked || r in h.inFlight;
  }

  /** A request leaving: the current query's only one, or an older one. */
  lemma SettleKeeps<T>(h: Hook<T>, r: (nat, nat), list: State<T>)
    requires OneOut(h) && r in h.inFlight && list.gen == h.gen
    requires if r.0 == h.gen then !list.loading else list == h.list
    ensures OneOut(h.(list := list, inFlight := h.inFlight - multiset{r}))
  {
    var left := h.inFlight - multiset{r};
    assert forall q :: q in left ==> q in h.inFlight;
    if r.0 != h.gen && h.list.loading {
      var q :| q in h.inFlight && q.0 == h.gen;
      assert q in left && q.0 == h.gen;
    }
  }

  lemma OneOutKeeps<T>(h: Hook<T>, lists: nat -> seq<T>, pageSize: nat, s: Step)
    requires Enabled(h, s) && Polite(h, s) && (OneOut(h) || s.NewQuery?)
    requires forall r :: r in h.inFlight ==> r.0 <= h.gen
    ensures OneOut(After(h, lists, pageSize, s))
  {
    match s
    case NewQuery(keepRows) =>
      LoadKeeps(Hook(h.gen + 1, Reduce(h.list, Reset(h.gen + 1, keepRows)), h.inFlight), 0);
    case LoadMore => LoadKeeps(h, h.list.offset);
    case Reload => LoadKeeps(h, 0);
    case Answered(r) => SettleKeeps(h, r, After(h, lists, pageSize, s).list);
    case Broke(r) => SettleKeeps(h, r, After(h, lists, pageSize, s).list);
  }

  lemma RightKeeps<T>(h: Hook<T>, lists: nat -> seq<T>, pageSize: nat, s: Step)
    requires Enabled(h, s) && OneOut(h) && Right(h, lists(h.gen))
    ensures Right(After(h, lists, pageSize, s), lists(After(h, lists, pageSize, s).gen))
  {
    if s.Answered? && s.request.0 == h.gen {
      var list, offset := lists(h.gen), s.request.1;
      var page := Page(list, offset, pageSize);
      if h.list.phase == Ready {
        LoadedKeepsPrefixIff(h.list, list, offset, pageSize);
      } else {
        assert page == list[..|page|];
      }
    }
  }

  lemma {:induction false} RunHolds<T>(hs: seq<Hook<T>>, lists: nat -> seq<T>, pageSize: nat, steps: seq<Step>, i: nat)
    requires IsRun(hs, lists, pageSize, steps) && 0 < i < |hs|
    requires forall k :: 0 <= k < |steps| ==> Polite(hs[k], steps[k])
    ensures OneOut(hs[i]) && Right(hs[i], lists(hs[i].gen))
  {
    assert StepsAt(hs, lists, pageSize, steps, i - 1);
    OneOutKeeps(hs[i - 1], lists, pageSize, steps[i - 1]) by {
      if i > 1 {
        RunHolds(hs, lists, pageSize, steps, i - 1);
      }
    }
    if i > 1 {
      RunHolds(hs, lists, pageSize, steps, i - 1);
      RightKeeps(hs[i - 1], lists, pageSize, steps[i - 1]);
    }
  }

  /** With one request out at a time per query, however late or in whatever order the answers to
      older queries come, a ready list shows exactly the first `offset` rows of its own query, and
      all of them once it says there is no more. */
  lemma ReadyListIsRight<T>(hs: seq<Hook<T>>, lists: nat -> seq<T>, pageSize: nat, steps: seq<Step>, i: nat)
    requires IsRun(hs, lists, pageSize, steps) && i < |hs|
    requires forall k :: 0 <= k < |steps| ==> Polite(hs[k], steps[k])
    requires hs[i].list.phase == Ready
    ensures var list := lists(hs[i].gen);
      && hs[i].list.offset <= |list| && hs[i].list.rows == list[..hs[i].list.offset]
      && (!hs[i].list.hasMore ==> hs[i].list.rows == list)
  {
    if i > 0 {
      RunHolds(hs, lists, pageSize, steps, i);
    }
  }

  /** Without that discipline two requests for the same next page append it twice. */
  lemma TwoLoadMoresRepeatAPage<T>(h: Hook<T>, lists: nat -> seq<T>, pageSize: nat)
    requires h.list.gen == h.gen && h.list.phase == Ready && IsPrefix(h.list, lists(h.gen))
    requires 0 < h.list.offset && h.list.offset + pageSize <= |lists(h.gen)| && pageSize > 0
    ensures var r := (h.gen, h.list.offset);
      var twice := After(After(h, lists, pageSize, LoadMore), lists, pageSize, LoadMore);
      var one := After(twice, lists, pageSize, Answered(r));
      && Enabled(twice, Answered(r)) && Enabled(one, Answered(r))
      && IsPrefix(one.list, lists(h.gen))
      && !IsPrefix(After(one, lists, pageSize, Answered(r)).list, lists(h.gen))
  {
    var r := (h.gen, h.list.offset);
    var twice := After(After(h, lists, pageSize, LoadMore), lists, pageSize, LoadMore);
    var one := After(twice, lists, pageSize, Answered(r));
    LoadedKeepsPrefixIff(twice.list, lists(h.gen), r.1, pageSize);
    LoadedKeepsPrefixIff(one.list, lists(h.gen), r.1, pageSize);
  }
}
