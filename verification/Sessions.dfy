/** When a session stops working: the credential epoch on the account's row, the revocation
    entries the Worker consults, and the table and store a session is tied to. Instants are epoch
    milliseconds; `iat`, `exp` and the epoch are whole seconds. */
module Sessions {
  import opened Options

  datatype Row = Row(active: bool, createdAt: Option<nat>, changedAt: Option<nat>)

  /** Whether a token issued at `iat` predates the row or its credentials. */
  predicate IssuedBefore(iat: Option<int>, row: Row) {
    if row.changedAt.None? && row.createdAt.None? then false
    else if iat.None? then true
    else if row.changedAt.Some? && iat.value < row.changedAt.value then true
    else row.createdAt.Some? && iat.value * 1000 + 1000 <= row.createdAt.value
  }

  predicate Accepted(row: Option<Row>, iat: Option<int>) {
    row.Some? && row.value.active && !IssuedBefore(iat, row.value)
  }

  function IatOf(mintedAtMs: nat): int {
    mintedAtMs / 1000
  }

  /** The second of slack amounts to comparing whole seconds: a token is refused for predating its
      row exactly when it was minted in an earlier second. */
  lemma SlackIsWholeSeconds(mintedAtMs: nat, createdAt: nat, active: bool)
    ensures IssuedBefore(Some(IatOf(mintedAtMs)), Row(active, Some(createdAt), None)) <==> mintedAtMs / 1000 < createdAt / 1000
  {
    var second := createdAt / 1000;
    assert second * 1000 <= createdAt < second * 1000 + 1000;
  }

  /** Never refused when minted after its row; always when minted a second or more before it. */
  lemma SlackBounds(mintedAtMs: nat, createdAt: nat, active: bool)
    ensures createdAt <= mintedAtMs ==> !IssuedBefore(Some(IatOf(mintedAtMs)), Row(active, Some(createdAt), None))
    ensures mintedAtMs + 1000 <= createdAt ==> IssuedBefore(Some(IatOf(mintedAtMs)), Row(active, Some(createdAt), None))
  {
    SlackIsWholeSeconds(mintedAtMs, createdAt, active);
    assert mintedAtMs / 1000 * 1000 <= mintedAtMs < mintedAtMs / 1000 * 1000 + 1000;
    assert createdAt / 1000 * 1000 <= createdAt < createdAt / 1000 * 1000 + 1000;
  }

  // ---- runs over one username ----

  datatype World = World(row: Option<Row>, now: nat)

  /** Statements. A change of password or a reset is the password, then the retirement; a deletion is
      `SetActive(false)`, the emptied slot, then the retirement. A handler may stop after any. */
  datatype Step =
    | Create
    | WritePassword(session: Option<Option<int>>)  // by a session, which must then be accepted, or not
    | Retire
    | SetActive(active: bool)
    | Refresh(iat: Option<int>)                    // a refresh that succeeds
    | Later(ms: nat)

  predicate Enabled(w: World, s: Step) {
    match s
    case Create => w.row.None?
    case Refresh(iat) => Accepted(w.row, iat)
    case WritePassword(session) => w.row.Some? && (session.Some? ==> Accepted(w.row, session.value))
    case Later(_) => true
    case _ => w.row.Some?
  }

  function After(w: World, s: Step): World
    requires Enabled(w, s)
  {
    match s
    case Create => w.(row := Some(Row(true, Some(w.now), None)))
    case WritePassword(_) => w
    case Retire => w.(row := Some(Retired(w.row.value, w.now)))
    case SetActive(active) => w.(row := Some(w.row.value.(active := active)))
    case Refresh(_) => w
    case Later(ms) => w.(now := w.now + ms)
  }

  /** A credential change is recorded: everything issued before this second is retired. */
  function Retired(row: Row, nowMs: nat): Row {
    row.(changedAt := Some(nowMs / 1000))
  }

  ghost predicate StepsAt(ws: seq<World>, steps: seq<Step>, i: nat)
    requires i < |steps| && |ws| == |steps| + 1
  {
    Enabled(ws[i], steps[i]) && ws[i + 1] == After(ws[i], steps[i])
  }

  ghost predicate IsRun(ws: seq<World>, steps: seq<Step>) {
    |ws| == |steps| + 1 && forall i :: 0 <= i < |steps| ==> StepsAt(ws, steps, i)
  }

  ghost predicate EpochAtLeast(w: World, t: nat) {
    && w.row.Some? && w.row.value.changedAt.Some?
    && t <= w.row.value.changedAt.value && t <= w.now / 1000
  }

  lemma {:induction false} EpochGrows(ws: seq<World>, steps: seq<Step>, i: nat, j: nat)
    requires IsRun(ws, steps) && i < j < |ws| && steps[i].Retire?
    ensures EpochAtLeast(ws[j], ws[i].now / 1000)
    decreases j
  {
    assert StepsAt(ws, steps, j - 1);
    if i + 1 == j {
    } else {
      EpochGrows(ws, steps, i, j - 1);
    }
  }

  /** The session a successful step presents, if it presents one. */
  function Presented(s: Step): Option<Option<int>> {
    match s
    case Refresh(iat) => Some(iat)
    case WritePassword(session) => session
    case _ => None
  }

  /** After a credential change is recorded at second `t`, every later refresh or password change that
      succeeds presents a token issued at `t` or after, for the rest of the run: reactivating a deleted
      account, or anything else, revives no earlier session. */
  lemma EarlierSessionsStayDead(ws: seq<World>, steps: seq<Step>, i: nat, j: nat)
    requires IsRun(ws, steps) && i < j < |steps| && steps[i].Retire? && Presented(steps[j]).Some?
    ensures var iat := Presented(steps[j]).value; iat.Some? && ws[i].now / 1000 <= iat.value
  {
    EpochGrows(ws, steps, i, j);
    assert StepsAt(ws, steps, j);
  }

  /** A session issued in an earlier second than its row was created in, under a name used before, never
      refreshes; one with no issue time refreshes never either. */
  lemma {:induction false} NoneFromBeforeTheRow(ws: seq<World>, steps: seq<Step>, i: nat, j: nat)
    requires IsRun(ws, steps) && i < j < |steps| && steps[i].Create? && Presented(steps[j]).Some?
    ensures var iat := Presented(steps[j]).value; iat.Some? && ws[i].now / 1000 <= iat.value
  {
    assert StepsAt(ws, steps, i);
    CreatedStays(ws, steps, i, j, ws[i].now);
    assert StepsAt(ws, steps, j);
    assert ws[i].now / 1000 * 1000 <= ws[i].now;
  }

  lemma {:induction false} CreatedStays(ws: seq<World>, steps: seq<Step>, i: nat, j: nat, at: nat)
    requires IsRun(ws, steps) && i < j < |ws| && steps[i].Create? && at == ws[i].now
    ensures ws[j].row.Some? && ws[j].row.value.createdAt == Some(at)
    decreases j
  {
    assert StepsAt(ws, steps, j - 1);
    if i + 1 < j {
      CreatedStays(ws, steps, i, j - 1, at);
    }
  }

  /** Exactly what retires a session from one state to a later one: a recorded change in a later second
      than its own. A handler cut off between its password and the record retires nothing. */
  lemma {:induction false} SessionRetiredIff(ws: seq<World>, steps: seq<Step>, i: nat, j: nat, iat: int)
    requires IsRun(ws, steps) && i <= j < |ws| && ws[i].row.Some? && PastEpoch(ws[i])
    ensures ws[j].row.Some? && PastEpoch(ws[j])
    ensures IssuedBefore(Some(iat), ws[j].row.value) <==>
      IssuedBefore(Some(iat), ws[i].row.value) || exists k :: i <= k < j && RetiresAt(ws, steps, k, iat)
    decreases j
  {
    if i == j {
    } else {
      SessionRetiredIff(ws, steps, i, j - 1, iat);
      assert StepsAt(ws, steps, j - 1);
      RetiredStep(ws[j - 1], steps[j - 1], iat);
      assert RetiresAt(ws, steps, j - 1, iat) <==> steps[j - 1].Retire? && iat < ws[j - 1].now / 1000;
      hide Enabled, After, IssuedBefore, PastEpoch, RetiresAt;
      if k :| i <= k < j - 1 && RetiresAt(ws, steps, k, iat) {
        assert i <= k < j && RetiresAt(ws, steps, k, iat);
      }
      if k :| i <= k < j && RetiresAt(ws, steps, k, iat) {
        assert k < j - 1 || RetiresAt(ws, steps, j - 1, iat);
      }
    }
  }

  ghost predicate RetiresAt(ws: seq<World>, steps: seq<Step>, k: int, iat: int)
    requires |ws| == |steps| + 1
  {
    0 <= k < |steps| && steps[k].Retire? && iat < ws[k].now / 1000
  }

  lemma RetiredStep(w: World, s: Step, iat: int)
    requires Enabled(w, s) && w.row.Some? && PastEpoch(w)
    ensures After(w, s).row.Some? && PastEpoch(After(w, s))
    ensures IssuedBefore(Some(iat), After(w, s).row.value) <==>
      IssuedBefore(Some(iat), w.row.value) || (s.Retire? && iat < w.now / 1000)
  {
    if s.Retire? {
      RetiringIs(w.row.value, w.now, iat);
    } else if s.Later? {
      assert w.now / 1000 <= (w.now + s.ms) / 1000;
    }
  }

  /** Recording a change refuses, besides what was refused, exactly what was issued in earlier seconds. */
  lemma RetiringIs(row: Row, nowMs: nat, iat: int)
    requires row.changedAt.Some? ==> row.changedAt.value <= nowMs / 1000
    ensures IssuedBefore(Some(iat), Retired(row, nowMs)) <==> IssuedBefore(Some(iat), row) || iat < nowMs / 1000
  {
  }

  ghost predicate PastEpoch(w: World) {
    w.row.Some? ==>
      && (w.row.value.changedAt.Some? ==> w.row.value.changedAt.value <= w.now / 1000)
      && (w.row.value.createdAt.Some? ==> w.row.value.createdAt.value <= w.now)
  }

  lemma {:induction false} EpochIsPast(ws: seq<World>, steps: seq<Step>, i: nat)
    requires IsRun(ws, steps) && PastEpoch(ws[0]) && i < |ws|
    ensures PastEpoch(ws[i])
  {
    if i == 0 {
    } else {
      EpochIsPast(ws, steps, i - 1);
      assert StepsAt(ws, steps, i - 1);
    }
  }

  /** A token minted now, by a login or by the change itself, is accepted at once while the account
      is active: a credential change never locks its owner out. */
  lemma FreshSessionWorks(ws: seq<World>, steps: seq<Step>, i: nat)
    requires IsRun(ws, steps) && PastEpoch(ws[0]) && i < |ws|
    requires ws[i].row.Some? && ws[i].row.value.active
    ensures Accepted(ws[i].row, Some(IatOf(ws[i].now)))
  {
    EpochIsPast(ws, steps, i);
    if ws[i].row.value.createdAt.Some? {
      SlackBounds(ws[i].now, ws[i].row.value.createdAt.value, true);
    }
  }

  // ---- how long sessions and revocations live ----

  const DEFAULT_SESSION_TTL_SECONDS: nat := 3600

  const MIN_KV_TTL_SECONDS: nat := 60

  /** A positive number, truncated; anything below one truncates to zero and still counts. */
  function Positive(v: Option<real>): Option<nat> {
    if v.Some? && v.value > 0.0 then Some(v.value.Floor) else None
  }

  function SessionTtlOf(env: Option<real>, configured: Option<nat>): nat {
    if configured.Some? then configured.value
    else if Positive(env).Some? then Positive(env).value
    else DEFAULT_SESSION_TTL_SECONDS
  }

  /** How long a revocation entry is kept. */
  function EntryTtl(seconds: nat): nat {
    if seconds < MIN_KV_TTL_SECONDS then MIN_KV_TTL_SECONDS else seconds
  }

  /** It stands for the lifetime asked for, but a minute at least, and then no longer. */
  lemma EntryStandsIff(writtenAtMs: nat, ttl: nat, atMs: nat)
    ensures EntryStands(writtenAtMs, ttl, atMs) <==> atMs < writtenAtMs + 60_000 || atMs < writtenAtMs + ttl * 1000
  {
  }

  datatype Session = Session(mintedAtMs: nat, ttl: nat)

  predicate Unexpired(s: Session, atMs: nat) {
    atMs / 1000 < s.mintedAtMs / 1000 + s.ttl
  }

  predicate EntryStands(writtenAtMs: nat, ttl: nat, atMs: nat) {
    atMs < writtenAtMs + EntryTtl(ttl) * 1000
  }

  /** An entry sized for a lifetime outlives every session of at most that lifetime minted before
      it was written. */
  lemma EntryOutlives(s: Session, writtenAtMs: nat, ttl: nat, atMs: nat)
    requires s.mintedAtMs <= writtenAtMs && s.ttl <= ttl && Unexpired(s, atMs)
    ensures EntryStands(writtenAtMs, ttl, atMs)
  {
    assert atMs < atMs / 1000 * 1000 + 1000;
    assert s.mintedAtMs / 1000 * 1000 <= s.mintedAtMs;
    assert atMs / 1000 + 1 <= s.mintedAtMs / 1000 + ttl;
  }

  /** The factories of one isolate, under a fixed environment value. */
  class Isolate {
    const env: Option<real>
    var longestDeclared: nat
    ghost var declared: set<nat>        // what factories were given
    ghost var sessions: set<Session>    // every session any of them minted

    ghost predicate Valid()
      reads this
    {
      && (forall ttl :: ttl in declared ==> ttl <= longestDeclared)
      && (forall s :: s in sessions ==> s.ttl <= MaxSessionTtl())
    }

    function MaxSessionTtl(): (r: nat)
      reads this
    {
      var own := SessionTtlOf(env, None);
      if own < longestDeclared then longestDeclared else own
    }

    constructor (env: Option<real>)
      ensures Valid() && longestDeclared == 0 && sessions == {} && this.env == env
    {
      this.env := env;
      longestDeclared, declared, sessions := 0, {}, {};
    }

    /** A factory is built with an explicit lifetime, or with none; one that is not positive is
        refused. */
    method DeclareSessionTtl(seconds: Option<real>) returns (ok: bool, ttl: Option<nat>)
      requires Valid()
      modifies this`longestDeclared, this`declared
      ensures Valid() && old(longestDeclared) <= longestDeclared
      ensures ok <==> seconds.None? || seconds.value > 0.0
      // The whole seconds of it, or none if none was given.
      ensures ok && seconds.Some? ==> ttl.Some? && ttl.value as real <= seconds.value < ttl.value as real + 1.0
      ensures !ok || seconds.None? ==> ttl.None?
      ensures longestDeclared == if ttl.Some? && old(longestDeclared) < ttl.value then ttl.value else old(longestDeclared)
      ensures ttl.Some? ==> ttl.value in declared && ttl.value <= longestDeclared
      ensures old(declared) <= declared
    {
      ttl := Positive(seconds);
      ok := seconds.None? || ttl.Some?;
      if ttl.Some? {
        longestDeclared := if longestDeclared < ttl.value then ttl.value else longestDeclared;
        declared := declared + {ttl.value};
      }
    }

    method Mint(configured: Option<nat>, nowMs: nat) returns (s: Session)
      requires Valid() && (configured.Some? ==> configured.value in declared)
      modifies this`sessions
      ensures Valid() && sessions == old(sessions) + {s}
      // The factory's lifetime if it has one, else the whole seconds of the environment's if that is
      // positive, else an hour.
      ensures s.mintedAtMs == nowMs
      ensures configured.Some? ==> s.ttl == configured.value
      ensures configured.None? && env.Some? && env.value > 0.0 ==> s.ttl as real <= env.value < s.ttl as real + 1.0
      ensures configured.None? && !(env.Some? && env.value > 0.0) ==> s.ttl == 3600
    {
      s := Session(nowMs, SessionTtlOf(env, configured));
      sessions := sessions + {s};
    }

    /** Revoke: the entry written stands as long as any session minted so far could be honoured, so
        the Worker, which refuses a session whose `iat` is before `notBefore` while an entry stands,
        never honours one from an earlier second again. */
    method Revoke(nowMs: nat) returns (notBefore: int, ttl: nat)
      requires Valid() && forall s :: s in sessions ==> s.mintedAtMs <= nowMs
      ensures notBefore == nowMs / 1000 && ttl == MaxSessionTtl()
      // As long as the longest declared or default lifetime, and no longer.
      ensures longestDeclared <= ttl && (ttl == longestDeclared || ttl == SessionTtlOf(env, None))
      ensures forall s, atMs: nat :: s in sessions && atMs / 1000 < s.mintedAtMs / 1000 + s.ttl ==> EntryStands(nowMs, ttl, atMs)
      ensures forall s, atMs: nat ::
        s in sessions && s.mintedAtMs / 1000 < nowMs / 1000 && atMs / 1000 < s.mintedAtMs / 1000 + s.ttl ==>
        RefusedByWorker(Some((notBefore, nowMs, ttl)), s.mintedAtMs / 1000, atMs)
      ensures forall iat, atMs: nat :: nowMs / 1000 <= iat ==> !RefusedByWorker(Some((notBefore, nowMs, ttl)), iat, atMs)
    {
      notBefore, ttl := nowMs / 1000, MaxSessionTtl();
      forall s, atMs: nat | s in sessions && Unexpired(s, atMs) ensures EntryStands(nowMs, ttl, atMs) {
        EntryOutlives(s, nowMs, ttl, atMs);
      }
    }
  }

  /** The per-request check: an entry that still stands refuses every earlier `iat`. */
  predicate RefusedByWorker(entry: Option<(int, nat, nat)>, iat: int, atMs: nat) {
    entry.Some? && EntryStands(entry.value.1, entry.value.2, atMs) && iat < entry.value.0
  }

  // ---- which table and store a session is from ----

  const DEFAULT_USERS_TABLE := "auth_users"

  const DEFAULT_STORE := "do"

  datatype Claims = Claims(usersTable: Option<string>, store: Option<string>)

  function TableClaim(table: string, store: Option<string>): Claims {
    Claims(if table != DEFAULT_USERS_TABLE then Some(table) else None,
           if store.Some? && store.value != DEFAULT_STORE then store else None)
  }

  function OrElse(v: Option<string>, d: string): string {
    if v.Some? then v.value else d
  }

  predicate SessionIsFrom(c: Claims, table: string, store: Option<string>) {
    OrElse(c.usersTable, DEFAULT_USERS_TABLE) == table && OrElse(c.store, DEFAULT_STORE) == OrElse(store, DEFAULT_STORE)
  }

  /** A session is honoured exactly by the table and the store it was minted from, where leaving the
      store out means `do`. One from before the claims existed is from `auth_users` on `do`; so a session
      from there needs none. */
  lemma SessionIsFromItsOwnTable(table: string, store: Option<string>, table2: string, store2: Option<string>)
    ensures SessionIsFrom(TableClaim(table, store), table2, store2) <==>
      table == table2 && (store == store2 || {store, store2} == {None, Some("do")})
    ensures SessionIsFrom(Claims(None, None), table2, store2) <==> table2 == "auth_users" && store2 in {None, Some("do")}
    ensures TableClaim("auth_users", store) == Claims(None, if store in {None, Some("do")} then None else store)
  {
    if OrElse(store, DEFAULT_STORE) == OrElse(store2, DEFAULT_STORE) && store != store2 {
      assert {store, store2} == {None, Some("do")};
    }
    if {store, store2} == {None, Some("do")} {
      assert store in {None, Some("do")} && store2 in {None, Some("do")};
    }
  }
}
