/** The users table under every handler that writes an address, a password or the verified flag,
    with the token requests and revocation entries that go with it. Handlers run one at a time, but
    each statement commits alone and a handler may be cut off after any of them: `commits` says how
    many of its statements go through. */
module Accounts {
  import opened Options
  import S = Sessions

  datatype User = User(
    password: string,
    email: Option<string>,
    verified: bool,
    active: bool,
    createdAt: Option<nat>,  // milliseconds
    changedAt: Option<nat>)  // the credential epoch, in seconds

  function NewUser(password: string, email: Option<string>, verified: bool, nowMs: nat): User {
    User(password, email, verified, true, Some(nowMs), None)
  }

  /** What a token request supersedes: the earlier ones of one purpose for one address or account. */
  datatype Key = MagicLink(address: string) | Reset(username: string) | Verify(username: string)

  /** A key-value entry: when it was written, and for how many seconds it is kept. */
  datatype Entry = Entry(writtenAtMs: nat, ttl: nat)

  type Table = map<string, User>

  /** `(u, e)`: someone holding the inbox `e` redeemed a link bound to the account `u`, or the
      identity provider asserted `e` for `u`. */
  type Proofs = set<(string, string)>

  const MIN_PASSWORD := 8

  datatype Outcome = Done | Refused | CutOff

  /** A redeemed one-time link: the account it acts on and the inbox it was mailed to. */
  datatype Link = Link(username: string, email: string)

  /** Whether a sign-in that has just proven `address` may take the row named after it. */
  predicate AdoptableBy(row: User, address: string) {
    row.password == "" || (row.email == Some(address) && row.verified)
  }

  predicate Holds(t: Table, u: string, e: string) {
    u in t && t[u].email == Some(e)
  }

  /** Some row other than `u` holds the address `e`. */
  predicate Taken(t: Table, e: string, u: string) {
    exists x :: x in t && x != u && t[x].email == Some(e)
  }

  // ---- what always holds ----

  ghost predicate VerifiedAreProven(t: Table, proofs: Proofs) {
    forall u :: u in t && t[u].verified ==> t[u].email.Some? && (u, t[u].email.value) in proofs
  }

  ghost predicate UniqueEmails(t: Table) {
    forall x, y :: x in t && y in t && t[x].email.Some? && t[x].email == t[y].email ==> x == y
  }

  // ---- the statements ----

  function ClearFlag(t: Table, u: string): Table {
    if u in t then t[u := t[u].(verified := false)] else t
  }

  function SetEmail(t: Table, u: string, e: string): Table {
    if u in t then t[u := t[u].(email := Some(e))] else t
  }

  /** `SET emailVerified WHERE username = u AND email = e` */
  function Stamp(t: Table, u: string, e: string): Table {
    if Holds(t, u, e) then t[u := t[u].(verified := true)] else t
  }

  /** `SET passwordHash, emailVerified WHERE username = u AND email = e` */
  function ResetTo(t: Table, u: string, e: string, password: string): Table {
    if Holds(t, u, e) then t[u := t[u].(password := password, verified := true)] else t
  }

  /** Record the address a row is named after as its verified contact email, when nothing else
      holds it. */
  function RecordAddress(t: Table, a: string): Table {
    if a in t && (t[a].email.None? || (t[a].email == Some(a) && !t[a].verified)) && !Taken(t, a, a)
    then t[a := t[a].(email := Some(a), verified := true)] else t
  }

  /** `SET email = NULL WHERE email = e AND emailVerified IS NULL AND username != u` */
  function ReleaseUnverified(t: Table, e: string, u: string): Table {
    map x | x in t :: if t[x].email == Some(e) && !t[x].verified && x != u then t[x].(email := None) else t[x]
  }

  /** With a passwordless row for `a`, if there was none. */
  function Named(t: Table, a: string, nowMs: nat): Table {
    if a in t then t else t[a := NewUser("", None, false, nowMs)]
  }

  /** Everything issued before this second is retired. */
  function Retire(t: Table, u: string, nowMs: nat): Table {
    if u in t then t[u := t[u].(changedAt := Some(nowMs / 1000))] else t
  }

  function SetPassword(t: Table, u: string, password: string): Table {
    if u in t then t[u := t[u].(password := password)] else t
  }

  function SetActive(t: Table, u: string, active: bool): Table {
    if u in t then t[u := t[u].(active := active)] else t
  }

  function Tombstone(t: Table, u: string): Table {
    if u in t then t[u := t[u].(password := "", email := None, verified := false)] else t
  }

  // ---- the statement that can break the invariant, and exactly when ----

  /** Writing a new address keeps "verified means proven" exactly when the row's flag is clear at
      that moment, or the new address was itself proven for it. `changeEmail` clears the flag one
      statement earlier. */
  lemma SetEmailKeepsProofsIff(t: Table, proofs: Proofs, u: string, e: string)
    requires VerifiedAreProven(t, proofs)
    ensures VerifiedAreProven(SetEmail(t, u, e), proofs) <==> !(u in t && t[u].verified && (u, e) !in proofs)
  {
    if u in t && t[u].verified && (u, e) !in proofs {
      assert SetEmail(t, u, e)[u].email.value == e;
    }
  }

  /** A verification link redeemed between `changeEmail`'s two statements stamps the flag the first
      has just cleared, and the second then writes an unproven address under it. */
  lemma VerifyBetweenChangeEmailsStatements(u: string, a: string, b: string)
    requires a != b
    ensures var t := map[u := NewUser("pw", Some(a), false, 0)];
      var proofs := {(u, a)};
      && VerifiedAreProven(t, {}) && VerifiedAreProven(Stamp(ClearFlag(t, u), u, a), proofs)
      && !VerifiedAreProven(SetEmail(Stamp(ClearFlag(t, u), u, a), u, b), proofs)
  {
    var t := map[u := NewUser("pw", Some(a), false, 0)];
    var stamped := Stamp(ClearFlag(t, u), u, a);
    assert u in stamped && stamped[u].verified && stamped[u].email == Some(a);
    assert (u, b) !in {(u, a)};
    SetEmailKeepsProofsIff(stamped, {(u, a)}, u, b);
  }

  /** A row with a password is adoptable only if its own address was proven for it. */
  lemma AdoptedOnlyIfProven(t: Table, proofs: Proofs, a: string)
    requires VerifiedAreProven(t, proofs) && a in t && t[a].password != "" && AdoptableBy(t[a], a)
    ensures (a, a) in proofs
  {
  }

  /** A squatted row, signed up under someone's address and never confirmed, is not adoptable, and
      becomes so exactly by its address being confirmed. */
  lemma AdoptableAfterIff(t: Table, a: string)
    requires a in t && t[a].password != "" && !t[a].verified
    ensures !AdoptableBy(t[a], a)
    ensures AdoptableBy(Stamp(t, a, a)[a], a) <==> t[a].email == Some(a)
    ensures AdoptableBy(RecordAddress(t, a)[a], a) <==> (t[a].email.None? || t[a].email == Some(a)) && !Taken(t, a, a)
  {
  }

  /** Nothing stands in the way of recording `a` on the row named `a`. */
  predicate Free(t: Table, a: string) {
    !Taken(t, a, a) && (a in t ==> t[a].email in {None, Some(a)})
  }

  predicate VerifiedElsewhere(t: Table, e: string) {
    exists x :: x in t && t[x].email == Some(e) && t[x].verified
  }

  /** Releasing an address touches no verified row, and leaves it taken only by one. */
  lemma Released(t: Table, proofs: Proofs, e: string, u: string)
    requires VerifiedAreProven(t, proofs) && UniqueEmails(t) && u !in t
    ensures var t' := ReleaseUnverified(t, e, u);
      && VerifiedAreProven(t', proofs) && UniqueEmails(t') && t'.Keys == t.Keys
      && (Taken(t', e, u) <==> VerifiedElsewhere(t, e))
      && forall x :: x in t ==> t'[x] in {t[x], t[x].(email := None)} && (t[x].verified ==> t'[x] == t[x])
  {
    var t' := ReleaseUnverified(t, e, u);
    if VerifiedElsewhere(t, e) {
      var x :| x in t && t[x].email == Some(e) && t[x].verified;
      assert x in t' && t'[x].email == Some(e);
    }
  }

  /** Rows that claim the asserted address unverified have lost it; nothing else is changed. */
  ghost predicate LetGo(t: Table, asserted: Option<string>, t': Table) {
    && t'.Keys == t.Keys
    && forall x :: x in t ==>
         t'[x] == if asserted.Some? && t[x].email == asserted && !t[x].verified then t[x].(email := None) else t[x]
  }

  /** And the new row has the address, verified, unless one was asserted that another row verified. */
  ghost predicate FirstSigned(t: Table, asserted: Option<string>, u: string, nowMs: nat, t': Table) {
    var own := if exists x :: x in t && t[x].email == asserted && t[x].verified then None else asserted;
    && t'.Keys == t.Keys + {u}
    && t'[u] == User("", own, own.Some?, true, Some(nowMs), None)
    && LetGo(t, asserted, t' - {u})
  }

  // ---- sessions ----

  function SessionRow(u: User): S.Row {
    S.Row(u.active, u.createdAt, u.changedAt)
  }

  predicate SessionWorks(t: Table, u: string, iat: Option<int>) {
    u in t && S.Accepted(Some(SessionRow(t[u])), iat)
  }

  /** A session outlives its row's stamps: neither is there, or it is issued in the second of the change or
      later, and less than a second before the row or later. One of no known age outlives none. */
  ghost predicate Survives(row: User, iat: Option<int>) {
    (row.changedAt.None? && row.createdAt.None?)
    || (iat.Some? && (row.changedAt.Some? ==> row.changedAt.value <= iat.value)
        && (row.createdAt.Some? ==> row.createdAt.value < iat.value * 1000 + 1000))
  }

  /** A row only an email-proven door, or its own confirmed address, lets a sign-in take. */
  ghost predicate Enterable(row: User, address: string) {
    row.password != "" ==> row.email == Some(address) && row.verified
  }

  /** No row but `u`'s has the address. */
  ghost predicate OnlyFor(t: Table, e: string, u: string) {
    forall x :: x in t && t[x].email == Some(e) ==> x == u
  }

  /** No row is stamped with an instant still to come. */
  ghost predicate Timely(t: Table, nowMs: nat) {
    forall u :: u in t ==>
      && (t[u].changedAt.Some? ==> t[u].changedAt.value <= nowMs / 1000)
      && (t[u].createdAt.Some? ==> t[u].createdAt.value <= nowMs)
  }

  /** Stamping a row refuses, besides what it refused, exactly the sessions of earlier seconds. */
  lemma RetiringRefuses(t: Table, u: string, nowMs: nat, iat: int)
    requires Timely(t, nowMs) && u in t
    ensures SessionWorks(Retire(t, u, nowMs), u, Some(iat)) <==> SessionWorks(t, u, Some(iat)) && nowMs / 1000 <= iat
  {
    S.RetiringIs(SessionRow(t[u]), nowMs, iat);
    assert SessionRow(Retire(t, u, nowMs)[u]) == S.Retired(SessionRow(t[u]), nowMs);
  }

  /** What every handler keeps. */
  ghost predicate Sound(t: Table, proofs: Proofs, doors: set<string>, emptied: set<string>, nowMs: nat) {
    && VerifiedAreProven(t, proofs)
    && UniqueEmails(t)
    && Timely(t, nowMs)
    // Only those doors make a row without a password, and only a deletion empties one.
    && forall u :: u in t && t[u].password == "" ==> u in doors || u in emptied
  }

  /** Statements that touch no address and verify nothing. */
  lemma SoundOtherwise(t: Table, t': Table,
                       proofs: Proofs, doors: set<string>, emptied: set<string>, emptied': set<string>, nowMs: nat)
    requires Sound(t, proofs, doors, emptied, nowMs) && t'.Keys == t.Keys && Timely(t', nowMs) && emptied <= emptied'
    requires forall u :: u in t ==>
      && t'[u].email in {t[u].email, None} && (t'[u].verified ==> t[u].verified && t'[u].email == t[u].email)
      && (t'[u].password == "" ==> t[u].password == "" || u in emptied')
    ensures Sound(t', proofs, doors, emptied', nowMs)
  {
  }

  // Each statement keeps it, the address write under the guard of the one before it.

  lemma NewRowSound(t: Table, u: string, row: User, proofs: Proofs, doors: set<string>, emptied: set<string>, nowMs: nat)
    requires Sound(t, proofs, doors, emptied, nowMs) && u !in t
    requires row.createdAt == Some(nowMs) && row.changedAt.None? && (row.email.Some? ==> !Taken(t, row.email.value, u))
    requires row.verified ==> row.email.Some? && (u, row.email.value) in proofs
    ensures Sound(t[u := row], proofs, if row.password == "" then doors + {u} else doors, emptied, nowMs)
  {
  }

  lemma ResetSound(t: Table, u: string, e: string, password: string,
                   proofs: Proofs, doors: set<string>, emptied: set<string>, nowMs: nat)
    requires Sound(t, proofs, doors, emptied, nowMs) && (u, e) in proofs && password != ""
    ensures Sound(ResetTo(t, u, e, password), proofs, doors, emptied, nowMs)
    ensures Sound(Stamp(t, u, e), proofs, doors, emptied, nowMs)
  {
  }

  lemma RecordSound(t: Table, a: string, proofs: Proofs, doors: set<string>, emptied: set<string>, nowMs: nat)
    requires Sound(t, proofs, doors, emptied, nowMs) && (a, a) in proofs
    ensures Sound(RecordAddress(t, a), proofs, doors, emptied, nowMs) && RecordAddress(t, a).Keys == t.Keys
  {
  }

  lemma ChangeEmailSound(t: Table, u: string, e: string, proofs: Proofs, doors: set<string>, emptied: set<string>, nowMs: nat)
    requires Sound(t, proofs, doors, emptied, nowMs) && !Taken(t, e, u)
    ensures Sound(ClearFlag(t, u), proofs, doors, emptied, nowMs)
    ensures Sound(SetEmail(ClearFlag(t, u), u, e), proofs, doors, emptied, nowMs)
  {
  }

  lemma ActiveSound(t: Table, u: string, active: bool, proofs: Proofs, doors: set<string>, emptied: set<string>, nowMs: nat)
    requires Sound(t, proofs, doors, emptied, nowMs)
    ensures Sound(SetActive(t, u, active), proofs, doors, emptied, nowMs)
  {
    SoundOtherwise(t, SetActive(t, u, active), proofs, doors, emptied, emptied, nowMs);
  }

  lemma TombstoneSound(t: Table, u: string, proofs: Proofs, doors: set<string>, emptied: set<string>, nowMs: nat)
    requires Sound(t, proofs, doors, emptied, nowMs)
    ensures Sound(Tombstone(t, u), proofs, doors, emptied + {u}, nowMs)
  {
    SoundOtherwise(t, Tombstone(t, u), proofs, doors, emptied, emptied + {u}, nowMs);
  }

  lemma RetireSound(t: Table, u: string, proofs: Proofs, doors: set<string>, emptied: set<string>, nowMs: nat)
    requires Sound(t, proofs, doors, emptied, nowMs)
    ensures Sound(Retire(t, u, nowMs), proofs, doors, emptied, nowMs)
  {
    SoundOtherwise(t, Retire(t, u, nowMs), proofs, doors, emptied, emptied, nowMs);
  }

  lemma PasswordSound(t: Table, u: string, password: string, proofs: Proofs, doors: set<string>, emptied: set<string>, nowMs: nat)
    requires Sound(t, proofs, doors, emptied, nowMs) && password != ""
    ensures Sound(SetPassword(t, u, password), proofs, doors, emptied, nowMs)
  {
    SoundOtherwise(t, SetPassword(t, u, password), proofs, doors, emptied, emptied, nowMs);
  }

  lemma ReleaseSound(t: Table, e: string, u: string, proofs: Proofs, doors: set<string>, emptied: set<string>, nowMs: nat)
    requires Sound(t, proofs, doors, emptied, nowMs) && u !in t
    ensures var t' := ReleaseUnverified(t, e, u);
      Sound(t', proofs, doors, emptied, nowMs) && t'.Keys == t.Keys && (Taken(t', e, u) <==> VerifiedElsewhere(t, e))
  {
    Released(t, proofs, e, u);
    SoundOtherwise(t, ReleaseUnverified(t, e, u), proofs, doors, emptied, emptied, nowMs);
  }

  /** From its first statement on a deletion leaves no session that refreshes; once the row is stamped,
      reactivating it revives none of an earlier second. */
  lemma DeletedSessions(t: Table, u: string, nowMs: nat)
    ensures u !in t ==> forall iat :: !SessionWorks(t, u, iat)
    ensures u in SetActive(t, u, false) <==> u in t
    ensures u in Tombstone(SetActive(t, u, false), u) <==> u in t
    ensures forall iat :: !SessionWorks(SetActive(t, u, false), u, iat)
    ensures forall iat :: !SessionWorks(Tombstone(SetActive(t, u, false), u), u, iat)
    ensures forall iat :: !SessionWorks(Retire(Tombstone(SetActive(t, u, false), u), u, nowMs), u, iat)
    ensures forall iat: int ::
      SessionWorks(SetActive(Retire(Tombstone(SetActive(t, u, false), u), u, nowMs), u, true), u, Some(iat)) ==> nowMs / 1000 <= iat
  {
  }

  /** A link that is let in: a row with a password had proven its address before; and an address nothing
      stands in the way of ends recorded on its row. */
  lemma LinkLetIn(t: Table, a: string, proofs: Proofs, doors: set<string>, emptied: set<string>, nowMs: nat)
    requires Sound(t, proofs, doors, emptied, nowMs)
    ensures a in t && AdoptableBy(t[a], a) && t[a].password != "" ==> (a, a) in proofs
    ensures var t' := RecordAddress(Named(t, a, nowMs), a); Free(t, a) ==> Holds(t', a, a) && t'[a].verified
  {
  }

  /** The row a link to `a` ends at: the one there or a blank one, with the address unless it has another
      or someone else has this one. */
  ghost function LinkRow(t: Table, a: string, nowMs: nat): User {
    var row := if a in t then t[a] else User("", None, false, true, Some(nowMs), None);
    if OnlyFor(t, a, a) && row.email in {None, Some(a)} then row.(email := Some(a), verified := true) else row
  }

  lemma RecordedRow(t: Table, a: string, nowMs: nat)
    ensures RecordAddress(Named(t, a, nowMs), a) == t[a := LinkRow(t, a, nowMs)]
  {
    var n := Named(t, a, nowMs);
    assert OnlyFor(n, a, a) <==> OnlyFor(t, a, a) by {
      if OnlyFor(n, a, a) {
        forall x | x in t && t[x].email == Some(a) ensures x == a {
          assert x in n && n[x] == t[x];
        }
      }
    }
    assert Taken(n, a, a) <==> !OnlyFor(n, a, a);
  }

  class Store {
    const sessionTtl: nat           // the longest lifetime any factory mints
    var nowMs: nat
    var users: Table
    var requests: map<Key, nat>     // the token rows of each key: at most the newest request's
    var nextRequest: nat
    var queue: seq<nat>             // requests whose send task is queued
    var denied: map<string, Entry>
    var notBefore: map<string, (int, Entry)>
    ghost var proofs: Proofs
    ghost var doors: set<string>    // rows made by a magic link, an invitation or the provider
    ghost var emptied: set<string>  // rows `deleteUser` has emptied

    ghost predicate Valid()
      reads this
    {
      Sound(users, proofs, doors, emptied, nowMs)
    }

    constructor (sessionTtl: nat, nowMs: nat)
      ensures Valid() && users == map[] && proofs == {} && this.sessionTtl == sessionTtl && this.nowMs == nowMs
    {
      this.sessionTtl, this.nowMs := sessionTtl, nowMs;
      users, requests, nextRequest, queue, denied, notBefore := map[], map[], 0, [], map[], map[];
      proofs, doors, emptied := {}, {}, {};
    }

    method Elapse(ms: nat)
      requires Valid()
      modifies this`nowMs
      ensures Valid() && nowMs == old(nowMs) + ms
    {
      assert nowMs / 1000 <= (nowMs + ms) / 1000;
      nowMs := nowMs + ms;
    }

    /** A refresh succeeds for an active row whose credentials the session does not predate. */
    method RefreshSession(u: string, iat: Option<int>) returns (ok: bool)
      ensures ok <==> SessionWorks(users, u, iat)
      ensures ok <==> u in users && users[u].active && Survives(users[u], iat)
    {
      ok := u in users && users[u].active && !S.IssuedBefore(iat, SessionRow(users[u]));
    }

    method Signup(username: string, password: string, email: Option<string>) returns (r: Outcome)
      requires Valid()
      modifies this`users
      ensures Valid()
      ensures r == Done <==>
        |username| > 0 && |password| >= 8 && username !in old(users)
        && (email.Some? ==> OnlyFor(old(users), email.value, username))
      ensures users ==
        if r == Done then old(users)[username := User(password, email, false, true, Some(nowMs), None)] else old(users)
      ensures r == Done ==> SessionWorks(users, username, Some(S.IatOf(nowMs)))
    {
      if |username| == 0 || |password| < MIN_PASSWORD {
        return Refused;
      }
      if username in users || (email.Some? && Taken(users, email.value, username)) {
        return Refused;
      }
      S.SlackBounds(nowMs, nowMs, true);
      NewRowSound(users, username, NewUser(password, email, false, nowMs), proofs, doors, emptied, nowMs);
      users := users[username := NewUser(password, email, false, nowMs)];
      r := Done;
    }

    // ---- token requests ----

    /** Statements: drop the key's rows, add the new request's, queue its send task. Only the latest
        request ever has a row, and a queued task always finds the row it is for. */
    method RequestLink(key: Key, commits: nat) returns (r: Outcome)
      requires Valid()
      modifies this`requests, this`nextRequest, this`queue
      ensures Valid() && r == (if commits > 2 then Done else CutOff)
      ensures requests ==
        if commits == 0 then old(requests) else if commits == 1 then old(requests) - {key} else old(requests)[key := old(nextRequest)]
      ensures nextRequest == if commits > 1 then old(nextRequest) + 1 else old(nextRequest)
      ensures queue == if r == Done then old(queue) + [requests[key]] else old(queue)
    {
      if commits == 0 {
        return CutOff;
      }
      requests := requests - {key};
      if commits == 1 {
        return CutOff;
      }
      var id := nextRequest;
      requests, nextRequest := requests[key := id], nextRequest + 1;
      if commits == 2 {
        return CutOff;
      }
      queue := queue + [id];
      r := Done;
    }

    /** Statements: create a passwordless row for `email` if there is none, then request its link. A
        row with a password that has not confirmed the address is not invited into. */
    method InviteUser(email: string, commits: nat) returns (r: Outcome)
      requires Valid()
      modifies this`users, this`doors, this`requests, this`nextRequest, this`queue
      ensures Valid() && doors == old(doors) + (users.Keys - old(users).Keys)
      ensures r == Refused <==> email in old(users) && !Enterable(old(users)[email], email)
      ensures r == Done <==> r != Refused && commits > if email in old(users) then 2 else 3
      ensures r == CutOff ==> queue == old(queue)
      ensures r == Refused || commits == 0 ==> users == old(users) && requests == old(requests) && queue == old(queue)
      ensures r != Refused && commits > 0 ==>
        users == if email in old(users) then old(users) else old(users)[email := User("", None, false, true, Some(nowMs), None)]
      ensures r == Done ==>
        MagicLink(email) in requests && requests == old(requests)[MagicLink(email) := old(nextRequest)]
        && queue == old(queue) + [old(nextRequest)]
    {
      hide Sound;
      var rest := commits;
      if email in users {
        if !AdoptableBy(users[email], email) {
          return Refused;
        }
      } else {
        if rest == 0 {
          return CutOff;
        }
        rest := rest - 1;
        NewRowSound(users, email, NewUser("", None, false, nowMs), proofs, doors, emptied, nowMs);
        users := users[email := NewUser("", None, false, nowMs)];
        doors := doors + {email};
      }
      r := RequestLink(MagicLink(email), rest);
    }

    /** The link has just been consumed: that alone is the proof, whatever happens next. */
    ghost method Prove(u: string, e: string)
      requires Valid()
      modifies this`proofs
      ensures Valid() && proofs == old(proofs) + {(u, e)}
    {
      proofs := proofs + {(u, e)};
    }

    /** Statements: consume the link, create the row if there is none, record the address. A row
        with a password is signed into only if its address was proven before this link. */
    method LoginWithMagicLink(address: string, commits: nat) returns (r: Outcome)
      requires Valid()
      modifies this`users, this`proofs, this`doors
      ensures Valid() && doors == old(doors) + (users.Keys - old(users).Keys)
      ensures proofs == if commits == 0 then old(proofs) else old(proofs) + {(address, address)}
      ensures r == Done && address in old(users) && old(users)[address].password != "" ==> (address, address) in old(proofs)
      // What each number of statements leaves behind: a new row blank, and the address recorded on the row
      // unless it has another or someone else has this one.
      ensures var t := old(users);
        var enter := address in t && Enterable(t[address], address) && t[address].active;
        && (r == Refused <==> commits > 0 && address in t && !enter)
        && (r == Done <==> (enter && commits > 1) || (address !in t && commits > 2))
        && users == (if r == Done then t[address := LinkRow(t, address, nowMs)]
                     else if address !in t && commits == 2 then t[address := User("", None, false, true, Some(nowMs), None)]
                     else t)
    {
      hide Sound;
      LinkLetIn(users, address, proofs, doors, emptied, nowMs);
      RecordedRow(users, address, nowMs);
      hide RecordAddress, OnlyFor, LinkRow;
      if commits == 0 {
        return CutOff;
      }
      Prove(address, address);
      var rest := commits - 1;
      if address in users {
        if !AdoptableBy(users[address], address) || !users[address].active {
          return Refused;
        }
      } else {
        if rest == 0 {
          return CutOff;
        }
        rest := rest - 1;
        NewRowSound(users, address, NewUser("", None, false, nowMs), proofs, doors, emptied, nowMs);
        users := users[address := NewUser("", None, false, nowMs)];
        doors := doors + {address};
      }
      if rest == 0 {
        return CutOff;
      }
      RecordSound(users, address, proofs, doors, emptied, nowMs);
      users := RecordAddress(users, address);
      r := Done;
    }

    // ---- credential changes ----

    /** Statements: stamp the row, then tell the Worker. */
    method RetireEarlierSessions(u: string, commits: nat) returns (r: Outcome)
      requires Valid() && u in users
      modifies this`users, this`notBefore
      ensures Valid() && r == (if commits > 1 then Done else CutOff)
      ensures users == if commits > 0 then old(users)[u := old(users)[u].(changedAt := Some(nowMs / 1000))] else old(users)
      ensures notBefore == if r == Done then old(notBefore)[u := (nowMs / 1000, Entry(nowMs, sessionTtl))] else old(notBefore)
    {
      if commits == 0 {
        return CutOff;
      }
      RetireSound(users, u, proofs, doors, emptied, nowMs);
      users := Retire(users, u, nowMs);
      if commits == 1 {
        return CutOff;
      }
      notBefore := notBefore[u := (nowMs / 1000, Entry(nowMs, sessionTtl))];
      r := Done;
    }

    /** Statements: consume the link; write the password and the flag under the address; drop the
        account's other reset requests; retire its sessions, in two. Cut off before the row is stamped,
        every earlier session still works under the new password; after, exactly those of this second
        and later. */
    method ResetPassword(link: Link, password: string, commits: nat) returns (r: Outcome)
      requires Valid()
      modifies this`users, this`proofs, this`requests, this`notBefore
      ensures Valid()
      ensures proofs ==
        if commits == 0 || |password| < MIN_PASSWORD then old(proofs) else old(proofs) + {(link.username, link.email)}
      ensures var t, u := old(users), link.username;
        var go := |password| >= 8 && u in t && t[u].email == Some(link.email) && t[u].active;
        && (r == Refused <==> |password| < 8 || (commits > 0 && !go))
        && (r == Done <==> go && commits > 4)
        && users == (if !go || commits < 2 then t
                     else if commits < 4 then t[u := t[u].(password := password, verified := true)]
                     else t[u := t[u].(password := password, verified := true, changedAt := Some(nowMs / 1000))])
        && requests == (if go && commits > 2 then old(requests) - {Reset(u)} else old(requests))
        && notBefore == (if r == Done then old(notBefore)[u := (nowMs / 1000, Entry(nowMs, sessionTtl))] else old(notBefore))
      ensures if r != Refused && commits > 3 then Retires(old(users), users, link.username, nowMs)
              else SameSessions(old(users), users, link.username)
    {
      hide Sound, Timely;
      if |password| < MIN_PASSWORD {
        return Refused;
      }
      if commits == 0 {
        return CutOff;
      }
      Prove(link.username, link.email);
      if !Holds(users, link.username, link.email) || !users[link.username].active {
        return Refused;
      }
      if commits == 1 {
        return CutOff;
      }
      ResetSound(users, link.username, link.email, password, proofs, doors, emptied, nowMs);
      users := ResetTo(users, link.username, link.email, password);
      if commits == 2 {
        return CutOff;
      }
      requests := requests - {Reset(link.username)};
      ghost var written := users;
      r := RetireEarlierSessions(link.username, commits - 3);
      RetiredOrSame(old(users), written, users, link.username, nowMs, commits > 3);
    }

    /** Statements: consume the link, stamp the flag under the address, drop the account's other
        verification requests. */
    method VerifyEmail(link: Link, commits: nat) returns (r: Outcome)
      requires Valid()
      modifies this`users, this`proofs, this`requests
      ensures Valid()
      ensures proofs == if commits == 0 then old(proofs) else old(proofs) + {(link.username, link.email)}
      ensures var t, u := old(users), link.username;
        var held := u in t && t[u].email == Some(link.email);
        && (r == Refused <==> commits > 1 && !held)
        && (r == Done <==> commits > 2 && held)
        && users == (if commits > 1 && held then t[u := t[u].(verified := true)] else t)
        && requests == (if r == Done then old(requests) - {Verify(link.username)} else old(requests))
    {
      hide Sound;
      if commits == 0 {
        return CutOff;
      }
      Prove(link.username, link.email);
      if commits == 1 {
        return CutOff;
      }
      var held := Holds(users, link.username, link.email);
      ResetSound(users, link.username, link.email, "-", proofs, doors, emptied, nowMs);
      users := Stamp(users, link.username, link.email);
      if !held {
        return Refused;
      }
      if commits == 2 {
        return CutOff;
      }
      requests := requests - {Verify(link.username)};
      r := Done;
    }

    /** Statements: clear the flag, write the address (through the caller's own write policy, which
        may refuse it). Never a verified flag over the new address, wherever it stops. */
    method ChangeEmail(u: string, email: string, current: string, allowed: bool, commits: nat) returns (r: Outcome)
      requires Valid()
      modifies this`users
      ensures Valid()
      ensures var may := u in old(users) && old(users)[u].password in {"", current} && OnlyFor(old(users), email, u);
        && (!may ==> r == Refused && users == old(users))
        && (may && commits == 0 ==> r == CutOff && users == old(users))
        && (may && commits > 0 && (commits == 1 || !allowed) ==>
             r == (if commits == 1 then CutOff else Refused) && users == old(users)[u := old(users)[u].(verified := false)])
        && (may && commits > 1 && allowed ==>
             r == Done && users == old(users)[u := old(users)[u].(email := Some(email), verified := false)])
    {
      hide Sound;
      if u !in users || users[u].password !in {"", current} || Taken(users, email, u) {
        return Refused;
      }
      if commits == 0 {
        return CutOff;
      }
      ChangeEmailSound(users, u, email, proofs, doors, emptied, nowMs);
      users := ClearFlag(users, u);
      if commits == 1 {
        return CutOff;
      }
      if !allowed {
        return Refused;
      }
      users := SetEmail(users, u, email);
      r := Done;
    }

    /** Statements: the password, then the retirement in two. A filled slot is replaced only by proving
        the old password, an empty one is filled, and only by a session the row has not retired. Cut off
        after the password, every session that worked still works; once the row is stamped, exactly
        those of this second and later. */
    method ChangePassword(u: string, iat: Option<int>, current: string, next: string, commits: nat) returns (r: Outcome)
      requires Valid()
      modifies this`users, this`notBefore
      ensures Valid()
      ensures var t := old(users);
        var go := |next| >= 8 && u in t && t[u].active && Survives(t[u], iat) && t[u].password in {"", current};
        && (r == Refused <==> !go)
        && (r == Done <==> go && commits > 2)
        && users == (if !go || commits == 0 then t
                     else if commits == 1 then t[u := t[u].(password := next)]
                     else t[u := t[u].(password := next, changedAt := Some(nowMs / 1000))])
        && notBefore == (if r == Done then old(notBefore)[u := (nowMs / 1000, Entry(nowMs, sessionTtl))] else old(notBefore))
      ensures if r != Refused && commits > 1 then Retires(old(users), users, u, nowMs)
              else SameSessions(old(users), users, u)
    {
      hide Sound;
      if |next| < MIN_PASSWORD || !SessionWorks(users, u, iat) || users[u].password !in {"", current} {
        return Refused;
      }
      if commits == 0 {
        return CutOff;
      }
      PasswordSound(users, u, next, proofs, doors, emptied, nowMs);
      users := SetPassword(users, u, next);
      ghost var written := users;
      r := RetireEarlierSessions(u, commits - 1);
      RetiredOrSame(old(users), written, users, u, nowMs, commits > 1);
    }

    /** Statements: the flag, then the denylist: every session denied at once, or let in again. */
    method SetUserActive(u: string, active: bool, commits: nat) returns (r: Outcome)
      requires Valid()
      modifies this`users, this`denied
      ensures Valid()
      ensures r == Refused <==> u !in old(users)
      ensures r == Done <==> u in old(users) && commits > 1
      ensures users == if u in old(users) && commits > 0 then old(users)[u := old(users)[u].(active := active)] else old(users)
      ensures denied ==
        if r != Done then old(denied) else if active then old(denied) - {u} else old(denied)[u := Entry(nowMs, sessionTtl)]
    {
      hide Sound;
      if u !in users {
        return Refused;
      }
      if commits == 0 {
        return CutOff;
      }
      ActiveSound(users, u, active, proofs, doors, emptied, nowMs);
      users := SetActive(users, u, active);
      if commits == 1 {
        return CutOff;
      }
      denied := if active then denied - {u} else denied[u := Entry(nowMs, sessionTtl)];
      r := Done;
    }

    /** Statements: deactivate, deny, empty the row, retire its sessions in two. The row stays as a
        tombstone: its name is never free again, its address is; wherever it stops after the first
        statement no session of the account refreshes, and once the row is stamped a reactivation
        revives none of an earlier second. */
    method DeleteUser(u: string, commits: nat) returns (r: Outcome)
      requires Valid()
      modifies this`users, this`emptied, this`denied, this`notBefore
      ensures Valid() && emptied == if u in old(users) && commits > 2 then old(emptied) + {u} else old(emptied)
      ensures var t := old(users);
        && (r == Refused <==> u !in t)
        && (r == Done <==> u in t && commits > 4)
        && users == (if u !in t || commits == 0 then t
                     else if commits < 3 then t[u := t[u].(active := false)]
                     else if commits == 3 then t[u := t[u].(active := false, password := "", email := None, verified := false)]
                     else t[u := t[u].(active := false, password := "", email := None, verified := false,
                                       changedAt := Some(nowMs / 1000))])
        && denied == (if u in t && commits > 1 then old(denied)[u := Entry(nowMs, sessionTtl)] else old(denied))
        && notBefore == (if r == Done then old(notBefore)[u := (nowMs / 1000, Entry(nowMs, sessionTtl))] else old(notBefore))
      ensures commits > 0 ==> forall iat :: !SessionWorks(users, u, iat)
      ensures u in users && commits > 3 ==>
        forall iat: int :: SessionWorks(users[u := users[u].(active := true)], u, Some(iat)) ==> nowMs / 1000 <= iat
    {
      hide Sound, SessionWorks;
      DeletedSessions(users, u, nowMs);
      if u !in users {
        return Refused;
      }
      if commits == 0 {
        return CutOff;
      }
      ActiveSound(users, u, false, proofs, doors, emptied, nowMs);
      users := SetActive(users, u, false);
      if commits == 1 {
        return CutOff;
      }
      denied := denied[u := Entry(nowMs, sessionTtl)];
      if commits == 2 {
        return CutOff;
      }
      TombstoneSound(users, u, proofs, doors, emptied, nowMs);
      users := Tombstone(users, u);
      emptied := emptied + {u};
      r := RetireEarlierSessions(u, commits - 3);
    }

    // ---- the identity provider ----

    /** An identity provider's sign-in. Statements of a first one: release the address from rows
        that never verified it, create the row. A row with a password is entered by its address
        only if that address was proven before. */
    method OidcUpsert(username: string, asserted: Option<string>, emailKeyed: bool, commits: nat) returns (r: Outcome)
      requires Valid()
      modifies this`users, this`proofs, this`doors
      ensures Valid() && doors == old(doors) + (users.Keys - old(users).Keys)
      ensures proofs == if asserted.Some? then old(proofs) + {(username, asserted.value)} else old(proofs)
      ensures r == Done && emailKeyed && username in old(users) && old(users)[username].password != "" ==>
        (username, username) in old(proofs)
      ensures username in old(users) ==>
        users == old(users) && r == if emailKeyed && !Enterable(old(users)[username], username) then Refused else Done
      // A first sign-in always gets its row, with the address unless another row verified it; only rows
      // that never verified it lose it.
      ensures username !in old(users) ==> (commits > 1 ==> r == Done) && (r != Done ==> r == CutOff)
      ensures username !in old(users) && r == Done ==> FirstSigned(old(users), asserted, username, nowMs, users)
      ensures username !in old(users) && r != Done ==> users == old(users) || LetGo(old(users), asserted, users)
    {
      if asserted.Some? {
        Prove(username, asserted.value);
      }
      if username in users {
        return if emailKeyed && !AdoptableBy(users[username], username) then Refused else Done;
      }
      r := FirstSignIn(username, asserted, commits);
    }

    method FirstSignIn(username: string, asserted: Option<string>, commits: nat) returns (r: Outcome)
      requires Valid() && username !in users && (asserted.Some? ==> (username, asserted.value) in proofs)
      modifies this`users, this`doors
      ensures Valid() && r != Refused && doors == old(doors) + (users.Keys - old(users).Keys)
      ensures commits > 1 ==> r == Done
      ensures r == Done ==> FirstSigned(old(users), asserted, username, nowMs, users)
      ensures r != Done ==> users == old(users) || LetGo(old(users), asserted, users)
    {
      hide Sound;
      if commits == 0 {
        return CutOff;
      }
      var email := asserted;
      if email.Some? {
        ReleaseSound(users, email.value, username, proofs, doors, emptied, nowMs);
        users := ReleaseUnverified(users, email.value, username);
        if commits == 1 {
          return CutOff;
        }
        if Taken(users, email.value, username) {
          email := None;
        }
      }
      NewRowSound(users, username, NewUser("", email, email.Some?, nowMs), proofs, doors, emptied, nowMs);
      users := users[username := NewUser("", email, email.Some?, nowMs)];
      doors := doors + {username};
      r := Done;
    }
  }

  /** Every session works after as it did before. */
  ghost predicate SameSessions(t: Table, t': Table, u: string) {
    forall iat: int :: SessionWorks(t', u, Some(iat)) <==> SessionWorks(t, u, Some(iat))
  }

  /** Of the sessions that worked, exactly those of this second and later still do. */
  ghost predicate Retires(t: Table, t': Table, u: string, nowMs: nat) {
    forall iat: int :: SessionWorks(t', u, Some(iat)) <==> SessionWorks(t, u, Some(iat)) && nowMs / 1000 <= iat
  }

  lemma RetiredOrSame(t: Table, written: Table, t': Table, u: string, nowMs: nat, stamped: bool)
    requires u in t && u in written && SessionRow(written[u]) == SessionRow(t[u]) && Timely(written, nowMs)
    requires t' == if stamped then Retire(written, u, nowMs) else written
    ensures if stamped then Retires(t, t', u, nowMs) else SameSessions(t, t', u)
  {
    if stamped {
      forall iat: int ensures SessionWorks(t', u, Some(iat)) <==> SessionWorks(t, u, Some(iat)) && nowMs / 1000 <= iat {
        RetiringRefuses(written, u, nowMs, iat);
      }
    }
  }
}
