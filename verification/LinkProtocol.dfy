/** One-time emailed tokens: requests write a pending row, any number of drainers mint, send and
    mark it, anyone may redeem, and every statement commits alone. A digest is an injective image
    of its secret and never equals a pending hash. */
module LinkProtocol {
  import opened Options

  type RequestId = nat
  type Secret = nat  // a raw token; each mint makes one nobody has seen

  datatype Hash = Pending(id: RequestId) | Digest(secret: Secret)

  /** What a new request supersedes: all earlier ones of one purpose for one address or account. */
  datatype Key = Key(purpose: string, subject: string)

  datatype Row = Row(hash: Hash, key: Key, expiresAt: nat, consumedAt: Option<nat>, sentAt: Option<nat>)

  /** How far one run of a send task has come: it has read the row, claimed it with a fresh secret,
      or sent the email. A run that fails simply stops. */
  datatype Drainer =
    | Holding(id: RequestId, hash: Hash)
    | Minted(id: RequestId, secret: Secret)
    | Delivered(id: RequestId, secret: Secret)

  datatype World = World(
    rows: map<RequestId, Row>,
    drainers: map<nat, Drainer>,
    nextId: RequestId,
    nextSecret: Secret,
    now: nat,
    newest: map<Key, RequestId>,           // the last request made for each key
    mintedFor: map<Secret, RequestId>,     // the request each secret answers
    emailed: set<Secret>,                  // secrets that have left by email
    mailed: map<RequestId, Secret>,        // the last one emailed for each request
    wins: multiset<RequestId>)             // the requests redemptions have succeeded on

  datatype Step =
    | Request(key: Key, expiresAt: nat)    // delete and insert as one transaction
    | InsertRow(key: Key, expiresAt: nat)  // the insert alone
    | DeleteKey(key: Key)                  // a request's delete, or the clean-up after a redemption
    | DropRow(id: RequestId)               // a send task that finds its request moot
    | ReadRow(run: nat, id: RequestId)
    | Mint(run: nat, expiresAt: nat)
    | Send(run: nat)
    | MarkSent(run: nat)
    | Stop(run: nat)
    | Redeem(secret: Secret, purpose: string)
    | Later(ms: nat)

  predicate Enabled(w: World, s: Step) {
    match s
    case ReadRow(d, id) => d !in w.drainers && id < w.nextId
    case Mint(d, _) => d in w.drainers && w.drainers[d].Holding?
    case Send(d) => d in w.drainers && w.drainers[d].Minted?
    case MarkSent(d) => d in w.drainers && w.drainers[d].Delivered?
    case Stop(d) => d in w.drainers
    case _ => true
  }

  function Without(rows: map<RequestId, Row>, key: Key): map<RequestId, Row> {
    map id | id in rows && rows[id].key != key :: rows[id]
  }

  /** The rows a redemption's one conditional statement matches. */
  predicate Live(row: Row, secret: Secret, now: nat) {
    row.hash == Digest(secret) && row.consumedAt.None? && now <= row.expiresAt
  }

  function Matching(w: World, secret: Secret, purpose: string): set<RequestId> {
    set id | id in w.rows && Live(w.rows[id], secret, w.now) && w.rows[id].key.purpose == purpose
  }

  function Inserted(w: World, rows: map<RequestId, Row>, key: Key, expiresAt: nat): World {
    w.(rows := rows[w.nextId := Row(Pending(w.nextId), key, expiresAt, None, None)],
       newest := w.newest[key := w.nextId], nextId := w.nextId + 1)
  }

  /** `UPDATE ... WHERE requestId = ? AND tokenHash = ? AND sentAt IS NULL` */
  predicate Claims(w: World, id: RequestId, hash: Hash) {
    id in w.rows && w.rows[id].hash == hash && w.rows[id].sentAt.None?
  }

  function After(w: World, s: Step): World
    requires Enabled(w, s)
  {
    match s
    case Request(key, expiresAt) => Inserted(w, Without(w.rows, key), key, expiresAt)
    case InsertRow(key, expiresAt) => Inserted(w, w.rows, key, expiresAt)
    case DeleteKey(key) => w.(rows := Without(w.rows, key))
    case DropRow(id) => w.(rows := w.rows - {id})
    case ReadRow(d, id) =>
      if id in w.rows && w.rows[id].sentAt.None?
      then w.(drainers := w.drainers[d := Holding(id, w.rows[id].hash)])
      else w
    case Mint(d, expiresAt) =>
      var held := w.drainers[d];
      if Claims(w, held.id, held.hash)
      then w.(rows := w.rows[held.id := w.rows[held.id].(hash := Digest(w.nextSecret), expiresAt := expiresAt)],
              drainers := w.drainers[d := Minted(held.id, w.nextSecret)],
              mintedFor := w.mintedFor[w.nextSecret := held.id], nextSecret := w.nextSecret + 1)
      else w.(drainers := w.drainers - {d})
    case Send(d) =>
      var m := w.drainers[d];
      w.(drainers := w.drainers[d := Delivered(m.id, m.secret)],
         emailed := w.emailed + {m.secret}, mailed := w.mailed[m.id := m.secret])
    case MarkSent(d) =>
      var id := w.drainers[d].id;
      w.(rows := if id in w.rows then w.rows[id := w.rows[id].(sentAt := Some(w.now))] else w.rows,
         drainers := w.drainers - {d})
    case Stop(d) => w.(drainers := w.drainers - {d})
    case Redeem(secret, purpose) =>
      var hit := Matching(w, secret, purpose);
      w.(rows := map id | id in w.rows :: if id in hit then w.rows[id].(consumedAt := Some(w.now)) else w.rows[id],
         wins := w.wins + multiset(hit))
    case Later(ms) => w.(now := w.now + ms)
  }

  function Start(now: nat): World {
    World(map[], map[], 0, 0, now, map[], map[], {}, map[], multiset{})
  }

  ghost predicate Steps(w: World, s: Step, w': World) {
    Enabled(w, s) && w' == After(w, s)
  }

  ghost predicate StepsAt(ws: seq<World>, steps: seq<Step>, i: nat)
    requires i < |steps| && |ws| == |steps| + 1
  {
    Steps(ws[i], steps[i], ws[i + 1])
  }

  ghost predicate IsRun(ws: seq<World>, steps: seq<Step>) {
    && |ws| == |steps| + 1
    && ws[0] == Start(ws[0].now)
    && forall i :: 0 <= i < |steps| ==> StepsAt(ws, steps, i)
  }

  // ---- every interleaving ----

  predicate Answers(w: World, secret: Secret, id: RequestId) {
    secret in w.mintedFor && w.mintedFor[secret] == id
  }

  ghost predicate RowHolds(w: World, id: RequestId)
    requires id in w.rows
  {
    && id < w.nextId
    && w.rows[id].key in w.newest
    && w.wins[id] == (if w.rows[id].consumedAt.Some? then 1 else 0)
    && match w.rows[id].hash
       case Pending(p) => p == id
       case Digest(s) => Answers(w, s, id)
  }

  ghost predicate DrainerHolds(w: World, d: Drainer) {
    && d.id < w.nextId
    && (d.Holding? && d.hash.Digest? ==> Answers(w, d.hash.secret, d.id))
    && (!d.Holding? ==> Answers(w, d.secret, d.id))
  }

  ghost predicate Inv(w: World) {
    && (forall id :: id in w.rows ==> RowHolds(w, id))
    && (forall id :: w.wins[id] <= 1 && (w.wins[id] == 1 ==> id < w.nextId))
    && (forall d :: d in w.drainers ==> DrainerHolds(w, w.drainers[d]))
    && (forall s :: s in w.mintedFor ==> s < w.nextSecret)
  }

  /** No two rows ever hold the same hash, so a redemption matches at most one. */
  lemma OneMatch(w: World, secret: Secret, purpose: string, a: RequestId, b: RequestId)
    requires Inv(w) && a in Matching(w, secret, purpose) && b in Matching(w, secret, purpose)
    ensures a == b && Answers(w, secret, a) && w.wins[a] == 0
  {
    assert RowHolds(w, a) && RowHolds(w, b);
  }

  lemma RedeemKeeps(w: World, secret: Secret, purpose: string, id: RequestId)
    requires Inv(w) && id in w.rows
    ensures RowHolds(After(w, Redeem(secret, purpose)), id)
    ensures w.wins[id] == 0 || id !in Matching(w, secret, purpose)
  {
    assert RowHolds(w, id);
    if id in Matching(w, secret, purpose) {
      OneMatch(w, secret, purpose, id, id);
    }
  }

  lemma MintKeeps(w: World, d: nat, expiresAt: nat, id: RequestId)
    requires Inv(w) && Enabled(w, Mint(d, expiresAt)) && id in w.rows
    ensures RowHolds(After(w, Mint(d, expiresAt)), id)
  {
    assert RowHolds(w, id) && DrainerHolds(w, w.drainers[d]);
  }

  lemma RowKeeps(w: World, s: Step, id: RequestId)
    requires Inv(w) && Enabled(w, s) && id in After(w, s).rows
    ensures RowHolds(After(w, s), id)
  {
    if s.Redeem? {
      RedeemKeeps(w, s.secret, s.purpose, id);
    } else if s.Mint? {
      MintKeeps(w, s.run, s.expiresAt, id);
    } else if s.Request? || s.InsertRow? {
      InsertKeeps(w, s, id);
    } else {
      hide Matching, Claims, DrainerHolds;
      assert RowHolds(w, id);
    }
  }

  lemma InsertKeeps(w: World, s: Step, id: RequestId)
    requires Inv(w) && Enabled(w, s) && (s.Request? || s.InsertRow?) && id in After(w, s).rows
    ensures RowHolds(After(w, s), id)
  {
    hide Matching, Claims, DrainerHolds;
    if id != w.nextId {
      assert RowHolds(w, id);
    }
  }

  lemma StepKeeps(w: World, s: Step)
    requires Inv(w) && Enabled(w, s)
    ensures Inv(After(w, s))
  {
    var w' := After(w, s);
    forall id | id in w'.rows ensures RowHolds(w', id) {
      RowKeeps(w, s, id);
    }
    forall id ensures w'.wins[id] <= 1 && (w'.wins[id] == 1 ==> id < w'.nextId) {
      if s.Redeem? && id in Matching(w, s.secret, s.purpose) {
        OneMatch(w, s.secret, s.purpose, id, id);
        assert RowHolds(w, id);
      }
    }
    forall d | d in w'.drainers ensures DrainerHolds(w', w'.drainers[d]) {
      DrainerKeeps(w, s, d);
    }
  }

  lemma DrainerKeeps(w: World, s: Step, d: nat)
    requires Inv(w) && Enabled(w, s) && d in After(w, s).drainers
    ensures DrainerHolds(After(w, s), After(w, s).drainers[d])
  {
    hide Matching, Without;
    hide RowHolds, DrainerHolds;
    if s.ReadRow? {
      ReadKeeps(w, s.run, s.id, d);
    } else {
      MoverKeeps(w, s, d);
    }
  }

  lemma MoverKeeps(w: World, s: Step, d: nat)
    requires Enabled(w, s) && !s.ReadRow? && d in w.drainers && DrainerHolds(w, w.drainers[d]) && d in After(w, s).drainers
    requires forall secret :: secret in w.mintedFor ==> secret < w.nextSecret
    ensures DrainerHolds(After(w, s), After(w, s).drainers[d])
  {
    hide Matching, Without;
  }

  lemma ReadKeeps(w: World, run: nat, id: RequestId, d: nat)
    requires Inv(w) && Enabled(w, ReadRow(run, id)) && d in After(w, ReadRow(run, id)).drainers
    ensures DrainerHolds(After(w, ReadRow(run, id)), After(w, ReadRow(run, id)).drainers[d])
  {
    if d in w.drainers {
      assert DrainerHolds(w, w.drainers[d]);
    }
    if id in w.rows {
      assert RowHolds(w, id);
    }
  }

  lemma {:induction false} RunHolds(ws: seq<World>, steps: seq<Step>, i: nat)
    requires IsRun(ws, steps) && i < |ws|
    ensures Inv(ws[i])
  {
    if i == 0 {
    } else {
      hide After, Enabled, Inv;
      assert StepsAt(ws, steps, i - 1);
      RunHolds(ws, steps, i - 1);
      StepKeeps(ws[i - 1], steps[i - 1]);
    }
  }

  /** Whatever drainers, retries, failures and other redemptions come between, a redemption
      succeeds on at most one row, and at most one redemption ever succeeds per request. */
  lemma AtMostOneRedemption(ws: seq<World>, steps: seq<Step>, i: nat, id: RequestId, secret: Secret, purpose: string)
    requires IsRun(ws, steps) && i < |ws|
    ensures ws[i].wins[id] <= 1
    ensures |Matching(ws[i], secret, purpose)| <= 1
    ensures id in Matching(ws[i], secret, purpose) ==> ws[i].wins[id] == 0 && Answers(ws[i], secret, id)
  {
    RunHolds(ws, steps, i);
    var hit := Matching(ws[i], secret, purpose);
    if hit != {} {
      var a :| a in hit;
      forall b | b in hit ensures a == b && ws[i].wins[b] == 0 {
        OneMatch(ws[i], secret, purpose, a, b);
      }
      assert hit == {a};
    }
    if id in hit {
      OneMatch(ws[i], secret, purpose, id, id);
    }
  }

  // ---- what can become of a row ----

  /** Some request or clean-up takes the row away. */
  ghost predicate Removes(s: Step, id: RequestId, row: Row) {
    ((s.Request? || s.DeleteKey?) && s.key == row.key) || (s.DropRow? && s.id == id)
  }

  /** A run mints over the row: it holds the very hash that is there, and the row is not marked sent. */
  ghost predicate MintsOver(w: World, s: Step, id: RequestId, row: Row) {
    s.Mint? && s.run in w.drainers && w.drainers[s.run] == Holding(id, row.hash) && row.sentAt.None?
  }

  ghost predicate Spends(w: World, s: Step, row: Row) {
    && s.Redeem? && row.hash == Digest(s.secret) && row.key.purpose == s.purpose
    && row.consumedAt.None? && row.expiresAt >= w.now
  }

  /** Column by column, what a step makes of a row that was there; and the only rows that are new are
      a request's own, pending and redeemable by no secret. */
  lemma RowFate(w: World, s: Step, id: RequestId)
    requires Inv(w) && Enabled(w, s)
    ensures var w' := After(w, s);
      if id in w.rows then
        var row := w.rows[id];
        && (id in w'.rows <==> !Removes(s, id, row))
        && (id in w'.rows ==>
             && w'.rows[id].key == row.key
             && w'.rows[id].hash == (if MintsOver(w, s, id, row) then Digest(w.nextSecret) else row.hash)
             && w'.rows[id].expiresAt == (if MintsOver(w, s, id, row) then s.expiresAt else row.expiresAt)
             && w'.rows[id].consumedAt == (if Spends(w, s, row) then Some(w.now) else row.consumedAt)
             && w'.rows[id].sentAt == (if s.MarkSent? && w.drainers[s.run].id == id then Some(w.now) else row.sentAt))
      else
        && (id in w'.rows <==> (s.Request? || s.InsertRow?) && id == w.nextId)
        && (id in w'.rows ==> w'.rows[id] == Row(Pending(id), s.key, s.expiresAt, None, None))
  {
    if id in w.rows {
      assert RowHolds(w, id);
      hide Inv, RowHolds;
      if s.Redeem? {
        assert id in Matching(w, s.secret, s.purpose) <==> Spends(w, s, w.rows[id]);
        hide Matching, Spends;
      } else {
        hide Matching, Spends, Without, Inserted;
        if s.Request? || s.InsertRow? || s.DeleteKey? {
          OldRow(w, s, id);
        }
      }
    }
  }

  lemma OldRow(w: World, s: Step, id: RequestId)
    requires Enabled(w, s) && (s.Request? || s.InsertRow? || s.DeleteKey?) && id in w.rows && id < w.nextId
    ensures var w' := After(w, s);
      && (id in w'.rows <==> s.InsertRow? || s.key != w.rows[id].key)
      && (id in w'.rows ==> w'.rows[id] == w.rows[id])
  {
    hide Matching;
  }

  /** A run whose row is gone, sent or claimed by another ends there: it mints nothing and sends nothing. */
  lemma LosersStop(w: World, s: Step)
    requires Enabled(w, s) && (s.Mint? || s.ReadRow?)
    ensures var w' := After(w, s);
      var id := if s.Mint? then w.drainers[s.run].id else s.id;
      var goes := id in w.rows && w.rows[id].sentAt.None? && (s.Mint? ==> w.drainers[s.run].hash == w.rows[id].hash);
      && (s.run in w'.drainers <==> goes)
      && (!goes ==> w'.rows == w.rows && w'.nextSecret == w.nextSecret && w'.emailed == w.emailed)
      && (goes && s.Mint? ==> w'.drainers[s.run] == Minted(id, w.nextSecret) && w'.nextSecret > w.nextSecret)
  {
  }

  // ---- superseded requests ----

  lemma GoneStaysGone(w: World, s: Step, id: RequestId)
    requires Enabled(w, s) && id < w.nextId && id !in w.rows
    ensures id < After(w, s).nextId && id !in After(w, s).rows
  {
  }

  lemma {:induction false} GoneForGood(ws: seq<World>, steps: seq<Step>, i: nat, j: nat, id: RequestId)
    requires IsRun(ws, steps) && i <= j < |ws| && id < ws[i].nextId && id !in ws[i].rows
    ensures id < ws[j].nextId && id !in ws[j].rows
    decreases j
  {
    if i == j {
    } else {
      hide After, Enabled;
      assert StepsAt(ws, steps, j - 1);
      GoneForGood(ws, steps, i, j - 1, id);
      GoneStaysGone(ws[j - 1], steps[j - 1], id);
    }
  }

  /** A newer request for the same key ends an older one: from then on no secret ever minted for
      the older request, before or after, is redeemable. */
  lemma SupersededNeverRedeems(ws: seq<World>, steps: seq<Step>, i: nat, j: nat, id: RequestId, secret: Secret, purpose: string)
    requires IsRun(ws, steps) && i < j < |ws|
    requires steps[i].Request? && id in ws[i].rows && ws[i].rows[id].key == steps[i].key
    requires Answers(ws[j], secret, id)
    ensures Matching(ws[j], secret, purpose) == {}
  {
    RunHolds(ws, steps, i);
    assert RowHolds(ws[i], id) && StepsAt(ws, steps, i);
    GoneForGood(ws, steps, i + 1, j, id);
    RunHolds(ws, steps, j);
    forall b ensures b !in Matching(ws[j], secret, purpose) {
      if b in Matching(ws[j], secret, purpose) {
        OneMatch(ws[j], secret, purpose, b, b);
      }
    }
  }

  /** Requests whose delete and insert commit together, or whose insert at least finds no row of its
      key come in between. */
  ghost predicate Undoubled(w: World, s: Step) {
    s.InsertRow? ==> forall id :: id in w.rows ==> w.rows[id].key != s.key
  }

  ghost predicate NoneDoubled(ws: seq<World>, steps: seq<Step>) {
    IsRun(ws, steps) && forall i :: 0 <= i < |steps| ==> Undoubled(ws[i], steps[i])
  }

  ghost predicate OnlyNewest(w: World) {
    forall id :: id in w.rows ==> w.rows[id].key in w.newest && w.newest[w.rows[id].key] == id
  }

  lemma NewestKeeps(w: World, s: Step)
    requires OnlyNewest(w) && Enabled(w, s) && Undoubled(w, s)
    ensures OnlyNewest(After(w, s))
  {
    hide Matching;
  }

  /** A request's insert on its own keeps "only the newest" exactly when no row of its key is there:
      when nothing has come between its delete and it, or what came has been deleted too. */
  lemma InsertKeepsNewestIff(w: World, key: Key, expiresAt: nat)
    requires Inv(w) && OnlyNewest(w)
    ensures OnlyNewest(After(w, InsertRow(key, expiresAt))) <==> forall id :: id in w.rows ==> w.rows[id].key != key
  {
    var w' := After(w, InsertRow(key, expiresAt));
    if id :| id in w.rows && w.rows[id].key == key {
      assert RowHolds(w, id);
      assert id in w'.rows && w'.rows[id].key == key && w'.newest[key] == w.nextId != id;
    }
  }

  lemma {:induction false} NewestHolds(ws: seq<World>, steps: seq<Step>, i: nat)
    requires NoneDoubled(ws, steps) && i < |ws|
    ensures OnlyNewest(ws[i])
  {
    if i == 0 {
    } else {
      hide After, Enabled, OnlyNewest, Undoubled;
      assert StepsAt(ws, steps, i - 1);
      NewestHolds(ws, steps, i - 1);
      NewestKeeps(ws[i - 1], steps[i - 1]);
    }
  }

  /** With such requests, an address or account has at most one redeemable secret per purpose,
      and it answers the newest request. */
  lemma OneRedeemableSecret(ws: seq<World>, steps: seq<Step>, i: nat, id: RequestId, secret: Secret, id2: RequestId,
                            secret2: Secret)
    requires NoneDoubled(ws, steps) && i < |ws|
    requires id in ws[i].rows && Live(ws[i].rows[id], secret, ws[i].now)
    requires id2 in ws[i].rows && Live(ws[i].rows[id2], secret2, ws[i].now)
    requires ws[i].rows[id].key == ws[i].rows[id2].key
    ensures secret == secret2 && id == id2 && Answers(ws[i], secret, id)
    ensures ws[i].rows[id].key in ws[i].newest && ws[i].newest[ws[i].rows[id].key] == id
  {
    NewestHolds(ws, steps, i);
    RunHolds(ws, steps, i);
    assert RowHolds(ws[i], id);
  }

  // ---- sent rows are frozen ----

  ghost predicate Frozen(w: World, id: RequestId, hash: Hash) {
    id < w.nextId && (id in w.rows ==> w.rows[id].sentAt.Some? && w.rows[id].hash == hash)
  }

  lemma FrozenKeeps(w: World, s: Step, id: RequestId, hash: Hash)
    requires Enabled(w, s) && Frozen(w, id, hash)
    ensures Frozen(After(w, s), id, hash)
  {
  }

  lemma {:induction false} FrozenForGood(ws: seq<World>, steps: seq<Step>, i: nat, j: nat, id: RequestId, hash: Hash)
    requires IsRun(ws, steps) && i <= j < |ws| && Frozen(ws[i], id, hash)
    ensures Frozen(ws[j], id, hash)
    decreases j
  {
    if i == j {
    } else {
      hide After, Enabled, Frozen;
      assert StepsAt(ws, steps, j - 1);
      FrozenForGood(ws, steps, i, j - 1, id, hash);
      FrozenKeeps(ws[j - 1], steps[j - 1], id, hash);
    }
  }

  /** Once the email is recorded as sent, the row answers to the same secret for good. */
  lemma SentFreezes(ws: seq<World>, steps: seq<Step>, i: nat, j: nat, id: RequestId)
    requires IsRun(ws, steps) && i <= j < |ws|
    requires id in ws[i].rows && ws[i].rows[id].sentAt.Some? && id in ws[j].rows
    ensures ws[j].rows[id].sentAt.Some? && ws[j].rows[id].hash == ws[i].rows[id].hash
  {
    RunHolds(ws, steps, i);
    assert RowHolds(ws[i], id);
    FrozenForGood(ws, steps, i, j, id, ws[i].rows[id].hash);
  }

  // ---- what can end an emailed link ----

  /** Exactly what stops a link from working: time, its own redemption, a newer request or a
      clean-up, and a drainer that read the row before it was marked sent and now mints over it. */
  lemma LinkDiesIff(w: World, s: Step, id: RequestId, secret: Secret)
    requires Inv(w) && Enabled(w, s) && id in w.rows && Live(w.rows[id], secret, w.now)
    ensures var w' := After(w, s);
      !(id in w'.rows && Live(w'.rows[id], secret, w'.now)) <==>
        || (s.Later? && w.rows[id].expiresAt < w.now + s.ms)
        || (s.Redeem? && s.secret == secret && s.purpose == w.rows[id].key.purpose)
        || ((s.Request? || s.DeleteKey?) && s.key == w.rows[id].key)
        || (s.DropRow? && s.id == id)
        || (s.Mint? && w.drainers[s.run] == Holding(id, Digest(secret)) && w.rows[id].sentAt.None?)
  {
    assert RowHolds(w, id);
    if s.Mint? {
      assert DrainerHolds(w, w.drainers[s.run]);
    }
    if s.Redeem? {
      assert id in Matching(w, s.secret, s.purpose) <==> s.secret == secret && s.purpose == w.rows[id].key.purpose;
    }
  }
}
