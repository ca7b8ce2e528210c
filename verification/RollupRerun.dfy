/** Why no lease is needed: rolling the same finished day twice, or many times at once, writes the
    same rows, as long as nothing arrives for the day meanwhile. */
module RollupRerun {
  import opened Options
  import opened Queries
  import opened Metrics
  import opened Breakdowns
  import opened Ascending
  import opened Rollup
  import opened RollupRuns
  import opened RollupRace

  /** Nothing is inserted on `d`, nothing marks it, and its raw rows stay. */
  ghost predicate Undisturbed(s: Statement, d: Day) {
    match s
    case Insert(_, rows) => d !in DaysOf(rows)
    case Mark(_, days) => d !in days
    case DeleteDay(_, day) => day != d
    case _ => true
  }

  /** A stretch of a trace, begun with no rollup on `d`. */
  ghost predicate IsSpan(ws: seq<Shared>, steps: seq<Statement>, d: Day) {
    && |ws| == |steps| + 1
    && (forall r :: (r, d) !in ws[0].tasks)
    && forall i :: 0 <= i < |steps| ==> Does(ws[i], steps[i], ws[i + 1]) && Undisturbed(steps[i], d)
  }

  ghost predicate Wrote(steps: seq<Statement>, d: Day) {
    exists s :: s in steps && s.WriteDaily? && s.day == d
  }

  ghost predicate Finished(steps: seq<Statement>, d: Day) {
    exists s :: s in steps && s.Finish? && s.day == d
  }

  function Views(t: Tables, d: Day): Counts {
    multiset(Paths(On(t.events, d)))
  }

  ghost predicate RowSpan(t0: Tables, t: Tables, d: Day, wrote: bool) {
    && (wrote ==> d in t.daily && t.daily[d] == RolledRow(t0, d))
    && (!wrote ==> (d in t.daily <==> d in t0.daily) && (d in t0.daily ==> t.daily[d] == t0.daily[d]))
  }

  ghost predicate PageSpan(t0: Tables, t: Tables, d: Day, p: string, finished: bool) {
    if p in Views(t0, d)
    then finished ==> (d, p) in t.pages && t.pages[(d, p)] == Views(t0, d)[p]
    else ((d, p) in t.pages <==> (d, p) in t0.pages) && ((d, p) in t0.pages ==> t.pages[(d, p)] == t0.pages[(d, p)])
  }

  ghost predicate TaskSpan(t0: Tables, t: Tables, d: Day, task: Task, wrote: bool) {
    match task
    case Reading(seen, got) =>
      seen == RollupRace.Token(t0.daily, d) && forall pass :: pass in got ==> got[pass] == On(t0.events, d)
    case Paging(views, written) =>
      wrote && (views.Some? ==>
        views.value == Views(t0, d) && forall p :: p in written ==> (d, p) in t.pages && t.pages[(d, p)] == Views(t0, d)[p])
  }

  ghost predicate Span(t0: Tables, w: Shared, d: Day, wrote: bool, finished: bool) {
    && On(w.tables.events, d) == On(t0.events, d)
    && RowSpan(t0, w.tables, d, wrote)
    && (finished ==> wrote)
    && (forall p :: PageSpan(t0, w.tables, d, p, finished))
    && (forall r :: (r, d) in w.tasks ==> TaskSpan(t0, w.tables, d, w.tasks[(r, d)], wrote))
  }

  lemma SpanEvents(w: Shared, s: Statement, w': Shared, d: Day)
    requires Does(w, s, w') && Undisturbed(s, d)
    ensures On(w'.tables.events, d) == On(w.tables.events, d)
  {
    if s.Insert? {
      OnAppend(w.tables.events, s.rows, d);
      OnMember(s.rows, d);
    } else if s.DeleteDay? {
      OnFiltered(w.tables.events, NotOn(s.day), d, true);
    } else {
      EventsStay(w, s, w');
    }
  }

  lemma SpanRow(t0: Tables, w: Shared, s: Statement, w': Shared, d: Day, wrote: bool, finished: bool)
    requires Does(w, s, w') && Undisturbed(s, d) && Span(t0, w, d, wrote, finished)
    ensures RowSpan(t0, w'.tables, d, wrote || (s.WriteDaily? && s.day == d))
  {
    hide Recorded, On, Paths, Assembled;
    if s.WriteDaily? && s.day == d {
      assert TaskSpan(t0, w.tables, d, w.tasks[(s.id, d)], wrote);
      AssembledSame(w.tasks[(s.id, d)].got, On(t0.events, d));
    }
  }

  lemma SpanPage(t0: Tables, w: Shared, s: Statement, w': Shared, d: Day, p: string, wrote: bool, finished: bool)
    requires Does(w, s, w') && Undisturbed(s, d) && Span(t0, w, d, wrote, finished)
    ensures PageSpan(t0, w'.tables, d, p, finished || (s.Finish? && s.day == d))
  {
    hide Recorded, On, Paths, Assembled, Marked;
    assert PageSpan(t0, w.tables, d, p, finished);
    if (s.WritePage? || s.Finish?) && s.day == d {
      assert TaskSpan(t0, w.tables, d, w.tasks[(s.id, d)], wrote);
    }
  }

  lemma SpanTask(t0: Tables, w: Shared, s: Statement, w': Shared, d: Day, r: Id, wrote: bool, finished: bool)
    requires Does(w, s, w') && Undisturbed(s, d) && Span(t0, w, d, wrote, finished)
    requires (r, d) in w'.tasks && On(w'.tables.events, d) == On(t0.events, d)
    ensures TaskSpan(t0, w'.tables, d, w'.tasks[(r, d)], wrote || (s.WriteDaily? && s.day == d))
  {
    hide Recorded, On, Paths, Assembled, Marked;
    if (r, d) in w.tasks {
      assert TaskSpan(t0, w.tables, d, w.tasks[(r, d)], wrote);
    }
    if s.WritePage? && s.day == d {
      assert TaskSpan(t0, w.tables, d, w.tasks[(s.id, d)], wrote);
    }
  }

  lemma SpanStep(t0: Tables, w: Shared, s: Statement, w': Shared, d: Day, wrote: bool, finished: bool)
    requires Does(w, s, w') && Undisturbed(s, d) && Span(t0, w, d, wrote, finished)
    ensures Span(t0, w', d, wrote || (s.WriteDaily? && s.day == d), finished || (s.Finish? && s.day == d))
  {
    hide Does, RowSpan, PageSpan, TaskSpan, Undisturbed;
    var finished' := finished || (s.Finish? && s.day == d);
    SpanEvents(w, s, w', d);
    SpanRow(t0, w, s, w', d, wrote, finished);
    forall p ensures PageSpan(t0, w'.tables, d, p, finished') {
      SpanPage(t0, w, s, w', d, p, wrote, finished);
    }
    forall r | (r, d) in w'.tasks
      ensures TaskSpan(t0, w'.tables, d, w'.tasks[(r, d)], wrote || (s.WriteDaily? && s.day == d))
    {
      SpanTask(t0, w, s, w', d, r, wrote, finished);
    }
    if s.Finish? && s.day == d {
      FinishFollowsWrite(t0, w, s, w', d, wrote, finished);
    }
  }

  lemma FinishFollowsWrite(t0: Tables, w: Shared, s: Statement, w': Shared, d: Day, wrote: bool, finished: bool)
    requires Does(w, s, w') && Span(t0, w, d, wrote, finished) && s.Finish? && s.day == d
    ensures wrote
  {
    assert TaskSpan(t0, w.tables, d, w.tasks[(s.id, d)], wrote);
  }

  lemma {:induction false} SpanHolds(ws: seq<Shared>, steps: seq<Statement>, d: Day)
    requires IsSpan(ws, steps, d)
    ensures Span(ws[0].tables, ws[|steps|], d, Wrote(steps, d), Finished(steps, d))
    decreases |steps|
  {
    hide Does, TaskSpan;
    var n := |steps|;
    if n == 0 {
    } else {
      var before, s := steps[..n - 1], steps[n - 1];
      SpanHolds(ws[..n], before, d);
      SpanStep(ws[0].tables, ws[n - 1], s, ws[n], d, Wrote(before, d), Finished(before, d));
      assert steps == before + [s];
      assert Wrote(steps, d) <==> Wrote(before, d) || (s.WriteDaily? && s.day == d);
      assert Finished(steps, d) <==> Finished(before, d) || (s.Finish? && s.day == d);
    }
  }

  /** Any number of rollups of a day, interleaved in any way with nothing arriving for the day
      between the first read and the last write, leave the rows that one atomic roll leaves: its
      aggregate as soon as one has written it, and its page rows once one has finished. */
  lemma RerunsAreOneRoll(ws: seq<Shared>, steps: seq<Statement>, d: Day)
    requires IsSpan(ws, steps, d)
    ensures var t, t' := ws[0].tables, ws[|steps|].tables;
      && (Wrote(steps, d) ==> d in t'.daily && t'.daily[d] == RolledUp(t, {d}).daily[d] && Clean(t', d))
      && (Finished(steps, d) ==> Wrote(steps, d) && forall p :: RolledPage(t, {d}, d, p, t'))
  {
    SpanHolds(ws, steps, d);
    hide Does, TaskSpan, IsSpan;
    var t, t' := ws[0].tables, ws[|steps|].tables;
    if Finished(steps, d) {
      forall p ensures RolledPage(t, {d}, d, p, t') {
        assert PageSpan(t, t', d, p, true);
      }
    }
    RolledDay(t, {d}, d);
    hide RolledUp, Recorded;
  }
}
