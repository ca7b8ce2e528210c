/** The token table as the handlers and the send task run it, uninterrupted: each method is a
    sequence of the statements of `LinkProtocol`. */
module LinkStore {
  import opened Ascending
  import opened LinkProtocol
  import opened Options

  class TokenTable {
    var rows: map<RequestId, Row>
    var nextId: RequestId
    var nextSecret: Secret
    var now: nat
    ghost var world: World

    ghost predicate Valid()
      reads this
    {
      && Inv(world)
      && world.rows == rows && world.nextId == nextId && world.nextSecret == nextSecret && world.now == now
    }

    /** No send task is part-way. */
    ghost predicate Idle()
      reads this
    {
      world.drainers == map[]
    }

    constructor (now: nat)
      ensures Valid() && Idle() && rows == map[]
    {
      rows, nextId, nextSecret, this.now, world := map[], 0, 0, now, Start(now);
    }

    ghost method Step(s: LinkProtocol.Step)
      requires Inv(world) && Enabled(world, s)
      modifies this`world
      ensures Inv(world) && world == After(old(world), s)
    {
      StepKeeps(world, s);
      world := After(world, s);
    }

    /** Every earlier request for the key is gone; the new one is pending, its secret not minted. */
    method MakeRequest(key: Key, ttlMs: nat) returns (id: RequestId)
      requires Valid() && Idle()
      modifies this
      ensures Valid() && Idle() && id == old(nextId)
      ensures now == old(now) && id in rows && rows[id] == Row(Pending(id), key, now + ttlMs, None, None)
      ensures forall x :: x in rows && x != id <==> x in old(rows) && old(rows)[x].key != key
      ensures forall x :: x in rows && x != id ==> rows[x] == old(rows)[x]
      ensures forall x :: x in rows && rows[x].key == key ==> x == id
      ensures forall secret, purpose :: id !in Matching(world, secret, purpose)
    {
      assert forall x :: x in rows ==> x < nextId by {
        assert forall x :: x in rows ==> RowHolds(world, x);
      }
      hide Inv, RowHolds, DrainerHolds;
      id := nextId;
      rows := Without(rows, key);
      rows := rows[id := Row(Pending(id), key, now + ttlMs, None, None)];
      nextId := nextId + 1;
      Step(Request(key, now + ttlMs));
    }

    /** A fresh secret, claimed for the request's own row; none if the request is gone or sent. */
    method MintForRequest(id: RequestId, expiresAt: nat) returns (token: Option<Secret>)
      requires Valid() && Idle() && id < nextId
      modifies this
      ensures Valid() && nextId == old(nextId) && now == old(now) && world.emailed == old(world.emailed)
      ensures token.Some? <==> id in old(rows) && old(rows)[id].sentAt.None?
      ensures token.Some? ==>
        token.value == old(nextSecret) && token.value !in old(world.mintedFor) && Answers(world, token.value, id)
      ensures rows ==
        if token.None? then old(rows)
        else old(rows)[id := old(rows)[id].(hash := Digest(token.value), expiresAt := expiresAt)]
      ensures world.drainers == if token.Some? then map[0 := Minted(id, token.value)] else map[]
    {
      if id !in rows || rows[id].sentAt.Some? {
        return None;
      }
      var hash := rows[id].hash;
      Step(ReadRow(0, id));
      var secret := nextSecret;
      if id in rows && rows[id].hash == hash && rows[id].sentAt.None? {
        rows := rows[id := Claimed(rows[id], secret, expiresAt)];
        nextSecret := nextSecret + 1;
        token := Some(secret);
      }
      Step(Mint(0, expiresAt));
    }

    /** The send task, run through. A moot request is dropped and a delivered one left alone, so a
        redelivery sends nothing; a failed send leaves the row to be minted for again; nobody else's
        row is touched. */
    method SendEmailToken(id: RequestId, eligible: bool, delivers: bool, expiresAt: nat) returns (sent: Option<Secret>)
      requires Valid() && Idle() && id < nextId
      modifies this
      ensures Valid() && Idle() && now == old(now)
      ensures sent.Some? <==> eligible && delivers && id in old(rows) && old(rows)[id].sentAt.None?
      ensures world.emailed == if sent.Some? then old(world.emailed) + {sent.value} else old(world.emailed)
      ensures sent.Some? ==>
        rows == old(rows)[id := old(rows)[id].(hash := Digest(sent.value), expiresAt := expiresAt, sentAt := Some(now))]
      // Redeemable from now on, unless it is spent already, and by nothing that was emailed for it before.
      ensures sent.Some? && old(rows)[id].consumedAt.None? && now <= expiresAt ==>
        Matching(world, sent.value, rows[id].key.purpose) == {id}
      ensures !eligible ==> rows == old(rows) - {id}
      ensures eligible && (id !in old(rows) || old(rows)[id].sentAt.Some?) ==> rows == old(rows)
      ensures eligible && id in old(rows) && old(rows)[id].sentAt.None? && !delivers ==>
        id in rows && rows[id] == old(rows)[id].(hash := Digest(old(nextSecret)), expiresAt := expiresAt)
      ensures forall x :: x != id ==> (x in rows <==> x in old(rows)) && (x in rows ==> rows[x] == old(rows)[x])
    {
      hide RowHolds, DrainerHolds, Matching;
      if !eligible {
        rows := rows - {id};
        Step(DropRow(id));
        return None;
      }
      var token := MintForRequest(id, expiresAt);
      if token.None? {
        return None;
      }
      if !delivers {
        Step(Stop(0));
        return None;
      }
      Step(Send(0));
      MarkRequestSent(id, token.value);
      sent := token;
      SentRedeems(world, token.value, id);
    }

    method MarkRequestSent(id: RequestId, ghost secret: Secret)
      requires Valid() && id in rows && world.drainers == map[0 := Delivered(id, secret)]
      modifies this
      ensures Valid() && Idle() && now == old(now) && world.emailed == old(world.emailed)
      ensures rows == old(rows)[id := old(rows)[id].(sentAt := Some(now))]
    {
      rows := rows[id := rows[id].(sentAt := Some(now))];
      Step(MarkSent(0));
    }

    /** One conditional statement: it consumes the one live row of that secret and purpose, if there
        is one, and the same secret never redeems again. */
    method RedeemEmailToken(secret: Secret, purpose: string) returns (r: Option<RequestId>)
      requires Valid()
      modifies this
      ensures Valid() && now == old(now) && nextId == old(nextId)
      ensures r.None? <==> forall id :: id in old(rows) ==> !Redeems(old(rows)[id], secret, purpose, now)
      ensures r.Some? ==> r.value in old(rows) && Redeems(old(rows)[r.value], secret, purpose, now)
      ensures rows == if r.Some? then old(rows)[r.value := old(rows)[r.value].(consumedAt := Some(now))] else old(rows)
      ensures Matching(world, secret, purpose) == {}
    {
      hide After, RowHolds, DrainerHolds;
      r := None;
      var hit := set id | id in rows && Live(rows[id], secret, now) && rows[id].key.purpose == purpose;
      assert hit == Matching(world, secret, purpose);
      assert forall id :: id in hit <==> id in rows && Redeems(rows[id], secret, purpose, now);
      if hit != {} {
        var _ := Pick(hit);
        var id :| id in hit;
        OnlyMatch(world, secret, purpose, id);
        rows := rows[id := rows[id].(consumedAt := Some(now))];
        r := Some(id);
      }
      ghost var before := world;
      Step(Redeem(secret, purpose));
      Redeemed(before, secret, purpose, r);
    }
  }

  /** The link's own row, unspent and not past its time, of the purpose asked for. */
  ghost predicate Redeems(row: Row, secret: Secret, purpose: string, now: nat) {
    row.hash == Digest(secret) && row.key.purpose == purpose && row.consumedAt.None? && row.expiresAt >= now
  }

  function Claimed(row: Row, secret: Secret, expiresAt: nat): Row {
    row.(hash := Digest(secret), expiresAt := expiresAt)
  }

  lemma SentRedeems(w: World, secret: Secret, id: RequestId)
    requires Inv(w) && id in w.rows && w.rows[id].hash == Digest(secret)
    ensures w.rows[id].consumedAt.None? && w.now <= w.rows[id].expiresAt ==> Matching(w, secret, w.rows[id].key.purpose) == {id}
  {
    if w.rows[id].consumedAt.None? && w.now <= w.rows[id].expiresAt {
      assert id in Matching(w, secret, w.rows[id].key.purpose);
      OnlyMatch(w, secret, w.rows[id].key.purpose, id);
    }
  }

  lemma OnlyMatch(w: World, secret: Secret, purpose: string, id: RequestId)
    requires Inv(w) && id in Matching(w, secret, purpose)
    ensures Matching(w, secret, purpose) == {id}
  {
    forall x | x in Matching(w, secret, purpose) ensures x == id {
      OneMatch(w, secret, purpose, x, id);
    }
  }

  lemma Redeemed(w: World, secret: Secret, purpose: string, r: Option<RequestId>)
    requires Inv(w) && Matching(w, secret, purpose) == if r.Some? then {r.value} else {}
    ensures var w' := After(w, Redeem(secret, purpose));
      && w'.nextId == w.nextId && w'.nextSecret == w.nextSecret && w'.now == w.now
      && Matching(w', secret, purpose) == {}
      && w'.rows == if r.Some? then w.rows[r.value := w.rows[r.value].(consumedAt := Some(w.now))] else w.rows
  {
    var w' := After(w, Redeem(secret, purpose));
    forall id ensures id !in Matching(w', secret, purpose) {
      assert id in Matching(w, secret, purpose) <==> r == Some(id);
    }
    assert r.Some? ==> r.value in Matching(w, secret, purpose);
  }
}
