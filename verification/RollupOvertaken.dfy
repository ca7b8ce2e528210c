/** With several rollups about: the only way a write leaves stale counts on a clean day is that
    another rollup overtook it across a mark. */
module RollupOvertaken {
  import opened Options
  import opened Metrics
  import opened Breakdowns
  import opened Rollup
  import opened RollupRace

  ghost predicate DoesAt(ws: seq<Shared>, steps: seq<Statement>, i: nat)
    requires i < |steps| && |ws| == |steps| + 1
  {
    Does(ws[i], steps[i], ws[i + 1]) && Orderly(ws[i], steps[i])
  }

  /** Any number of rollups a day. */
  ghost predicate IsOrderly(ws: seq<Shared>, steps: seq<Statement>) {
    && |ws| == |steps| + 1 && Settled(ws[0])
    && forall i :: 0 <= i < |steps| ==> DoesAt(ws, steps, i)
  }

  lemma {:induction false} GuardHolds(ws: seq<Shared>, steps: seq<Statement>, i: nat)
    requires IsOrderly(ws, steps) && i < |ws|
    ensures TokensGuard(ws[i])
  {
    if i == 0 {
    } else {
      hide Does, Orderly, TokensGuard, Settled;
      GuardHolds(ws, steps, i - 1);
      assert DoesAt(ws, steps, i - 1);
      GuardKeeps(ws[i - 1], steps[i - 1], ws[i]);
    }
  }

  // ---- when a rollup read its token ----

  function TokenAt(w: Shared, d: Day): Option<Token> {
    RollupRace.Token(w.tables.daily, d)
  }

  ghost predicate Reads(w: Shared, r: Id, d: Day, seen: Option<Token>) {
    (r, d) in w.tasks && w.tasks[(r, d)].Reading? && w.tasks[(r, d)].seen == seen
  }

  /** From its read at `k` to `j` the rollup has been reading, with the token of `k`. */
  ghost predicate ReadingSince(ws: seq<Shared>, steps: seq<Statement>, r: Id, d: Day, k: nat, j: nat, seen: Option<Token>)
    requires |ws| == |steps| + 1 && j < |ws|
  {
    && k < j && steps[k] == ReadToken(r, d) && TokenAt(ws[k], d) == seen
    && forall x :: k < x <= j ==> Reads(ws[x], r, d, seen)
  }

  lemma ReadsStep(w: Shared, s: Statement, w': Shared, r: Id, d: Day, seen: Option<Token>)
    requires Does(w, s, w') && Reads(w', r, d, seen)
    ensures (s == ReadToken(r, d) && TokenAt(w, d) == seen) || Reads(w, r, d, seen)
    ensures s != WriteDaily(r, d)
  {
    hide Recorded, On, Paths, Assembled, Marked;
  }

  lemma {:induction false} ReadAt(ws: seq<Shared>, steps: seq<Statement>, r: Id, d: Day, j: nat, seen: Option<Token>) returns (k: nat)
    requires IsOrderly(ws, steps) && j < |ws| && Reads(ws[j], r, d, seen)
    ensures ReadingSince(ws, steps, r, d, k, j, seen)
    decreases j
  {
    if j == 0 {
      assert false;
    } else {
      hide Does, Reads, Orderly;
      assert DoesAt(ws, steps, j - 1);
      ReadsStep(ws[j - 1], steps[j - 1], ws[j], r, d, seen);
      if steps[j - 1] == ReadToken(r, d) && TokenAt(ws[j - 1], d) == seen {
        k := j - 1;
      } else {
        k := ReadAt(ws, steps, r, d, j - 1, seen);
      }
    }
  }

  // ---- when the token moved, and when the flag was cleared ----

  lemma TokenStep(w: Shared, s: Statement, w': Shared, d: Day)
    requires Does(w, s, w')
    ensures TokenAt(w', d) == TokenAt(w, d) || Moves(w, s, w', d)
    ensures w.nextToken <= w'.nextToken
  {
    hide Recorded, On, Paths, Assembled;
  }

  ghost predicate Moves(w: Shared, s: Statement, w': Shared, d: Day) {
    && s.Mark? && d in s.days && Dirty(w'.tables, d)
    && TokenAt(w', d).Some? && w.nextToken <= TokenAt(w', d).value
  }

  /** The last time the token moved. */
  lemma {:induction false} MovedAt(ws: seq<Shared>, steps: seq<Statement>, d: Day, k: nat, j: nat) returns (a: nat)
    requires IsOrderly(ws, steps) && k < j < |ws| && TokenAt(ws[k], d) != TokenAt(ws[j], d)
    ensures k <= a < j && Moves(ws[a], steps[a], ws[a + 1], d)
    ensures forall x :: a < x <= j ==> TokenAt(ws[x], d) == TokenAt(ws[j], d)
    decreases j
  {
    hide Does, Moves, TokenAt, Orderly;
    assert DoesAt(ws, steps, j - 1);
    TokenStep(ws[j - 1], steps[j - 1], ws[j], d);
    if TokenAt(ws[j - 1], d) != TokenAt(ws[j], d) {
      a := j - 1;
    } else {
      a := MovedAt(ws, steps, d, k, j - 1);
    }
  }

  lemma CleanStep(w: Shared, s: Statement, w': Shared, d: Day)
    requires Does(w, s, w') && Dirty(w.tables, d) && Clean(w'.tables, d)
    ensures s.WriteDaily? && s.day == d && Reads(w, s.id, d, TokenAt(w, d))
  {
    hide Recorded, On, Paths, Assembled;
  }

  lemma DirtyStep(w: Shared, s: Statement, w': Shared, d: Day)
    requires Does(w, s, w') && Dirty(w.tables, d)
    ensures Dirty(w'.tables, d) || Clean(w'.tables, d)
  {
    hide Recorded, On, Paths, Assembled;
  }

  /** Some write cleared the flag in between. */
  lemma {:induction false} ClearedAt(ws: seq<Shared>, steps: seq<Statement>, d: Day, a: nat, j: nat) returns (c: nat)
    requires IsOrderly(ws, steps) && a < j < |ws| && Dirty(ws[a].tables, d) && Clean(ws[j].tables, d)
    ensures a <= c < j && steps[c].WriteDaily? && steps[c].day == d && Reads(ws[c], steps[c].id, d, TokenAt(ws[c], d))
    decreases j - a
  {
    hide Does, Reads, TokenAt, Orderly;
    assert DoesAt(ws, steps, a);
    DirtyStep(ws[a], steps[a], ws[a + 1], d);
    if Clean(ws[a + 1].tables, d) {
      CleanStep(ws[a], steps[a], ws[a + 1], d);
      c := a;
    } else {
      c := ClearedAt(ws, steps, d, a + 1, j);
    }
  }

  lemma {:induction false} TokensGrow(ws: seq<Shared>, steps: seq<Statement>, i: nat, j: nat, d: Day)
    requires IsOrderly(ws, steps) && i <= j < |ws|
    ensures ws[i].nextToken <= ws[j].nextToken
    decreases j
  {
    if i == j {
    } else {
      hide Does, Moves, TokenAt, Orderly;
      TokensGrow(ws, steps, i, j - 1, d);
      assert DoesAt(ws, steps, j - 1);
      TokenStep(ws[j - 1], steps[j - 1], ws[j], d);
    }
  }

  /** After `r` read the token of `d`, an ingest marked the day, and after that another rollup both
      read the new token and wrote. */
  ghost predicate Overtaken(steps: seq<Statement>, r: Id, d: Day, j: nat, k: nat, a: nat, b: nat, c: nat) {
    && k < a < b < c < j <= |steps|
    && steps[k] == ReadToken(r, d)
    && steps[a].Mark? && d in steps[a].days
    && steps[b].ReadToken? && steps[b].day == d && steps[b].id != r
    && steps[c] == WriteDaily(steps[b].id, d)
  }

  /** A write that takes its day out of agreement was overtaken by another rollup across a mark: so
      rollups one after the other, or none begun after a mark while an older one is unfinished, never
      leave stale counts. */
  lemma StaleWriteWasOvertaken(ws: seq<Shared>, steps: seq<Statement>, j: nat, r: Id, d: Day)
    returns (k: nat, a: nat, b: nat, c: nat)
    requires IsOrderly(ws, steps) && j < |steps| && steps[j] == WriteDaily(r, d) && !Agrees(ws[j + 1], d)
    ensures Overtaken(steps, r, d, j, k, a, b, c)
  {
    hide Orderly, Recorded, On;
    var w, t := StaleWrite(ws, steps, j, r, d);
    hide Does, Agrees, Settled, Moves, TokensGuard;
    k := ReadAt(ws, steps, r, d, j, t.seen);
    a := MovedAt(ws, steps, d, k, j);
    ReadIsNoMove(ws, steps, r, d, k, a);
    MovedIsDirty(ws, steps, d, a);
    c := ClearedAt(ws, steps, d, a + 1, j);
    var q := steps[c].id;
    NotItself(ws, steps, r, d, k, j, t.seen, c);
    b := ReadAt(ws, steps, q, d, c, TokenAt(ws[c], d));
    ReadAfterMove(ws, steps, d, a, b, c);
  }

  lemma StaleWrite(ws: seq<Shared>, steps: seq<Statement>, j: nat, r: Id, d: Day) returns (w: Shared, t: Task)
    requires IsOrderly(ws, steps) && j < |steps| && steps[j] == WriteDaily(r, d) && !Agrees(ws[j + 1], d)
    ensures t.Reading?
    ensures w == ws[j] && Reads(w, r, d, t.seen) && t.seen != TokenAt(w, d) && Clean(w.tables, d)
  {
    hide Recorded, On, Orderly, Assembled;
    w := ws[j];
    assert DoesAt(ws, steps, j);
    t := w.tasks[(r, d)];
    GuardHolds(ws, steps, j);
    WriteAgreesIff(w, r, d, ws[j + 1]);
  }

  lemma ReadIsNoMove(ws: seq<Shared>, steps: seq<Statement>, r: Id, d: Day, k: nat, a: nat)
    requires |ws| == |steps| + 1 && k <= a < |steps| && steps[k] == ReadToken(r, d)
    requires Moves(ws[a], steps[a], ws[a + 1], d)
    ensures k < a && steps[a].Mark? && d in steps[a].days
  {
  }

  lemma MovedIsDirty(ws: seq<Shared>, steps: seq<Statement>, d: Day, a: nat)
    requires |ws| == |steps| + 1 && a < |steps| && Moves(ws[a], steps[a], ws[a + 1], d)
    ensures Dirty(ws[a + 1].tables, d)
  {
  }

  lemma NotItself(ws: seq<Shared>, steps: seq<Statement>, r: Id, d: Day, k: nat, j: nat, seen: Option<Token>, c: nat)
    requires IsOrderly(ws, steps) && j < |ws| && ReadingSince(ws, steps, r, d, k, j, seen)
    requires k < c < j && steps[c].WriteDaily? && steps[c].day == d
    ensures steps[c].id != r
  {
    hide Does, Orderly;
    assert DoesAt(ws, steps, c);
    assert Reads(ws[c + 1], r, d, seen);
    ReadsStep(ws[c], steps[c], ws[c + 1], r, d, seen);
  }

  /** The token read at `b` is the fresh one of the mark at `a`. */
  lemma ReadAfterMove(ws: seq<Shared>, steps: seq<Statement>, d: Day, a: nat, b: nat, c: nat)
    requires IsOrderly(ws, steps) && a < c < |steps| && b < c && steps[b].ReadToken?
    requires Moves(ws[a], steps[a], ws[a + 1], d)
    requires TokenAt(ws[c], d) == TokenAt(ws[a + 1], d) == TokenAt(ws[b], d)
    ensures a < b
  {
    hide Does, Orderly, Recorded, On;
    if b < a {
      GuardHolds(ws, steps, b);
      assert RowHolds(ws[b], d);
      TokensGrow(ws, steps, b, a, d);
      assert false;
    }
  }
}
