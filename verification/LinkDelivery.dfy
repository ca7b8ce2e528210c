/** The link in the inbox: when it is sure to be the live one, and the two interleavings in which
    it is not. */
module LinkDelivery {
  import opened Options
  import opened LinkProtocol

  /** No request's send task is run twice at once; failures and retries are free. */
  ghost predicate Serial(w: World) {
    forall a, b :: a in w.drainers && b in w.drainers && w.drainers[a].id == w.drainers[b].id ==> a == b
  }

  ghost predicate SentIsMailed(w: World, id: RequestId)
    requires id in w.rows
  {
    w.rows[id].sentAt.Some? ==> id in w.mailed && w.rows[id].hash == Digest(w.mailed[id])
  }

  /** A drainer between its mint and its mark still holds the row. */
  ghost predicate StillClaims(w: World, d: Drainer) {
    d.id in w.rows && !d.Holding? ==>
      && w.rows[d.id].hash == Digest(d.secret) && w.rows[d.id].sentAt.None?
      && (d.Delivered? ==> d.id in w.mailed && w.mailed[d.id] == d.secret)
  }

  ghost predicate Delivery(w: World) {
    && (forall id :: id in w.rows ==> SentIsMailed(w, id))
    && (forall d :: d in w.drainers ==> StillClaims(w, w.drainers[d]))
  }

  lemma ClaimsKeep(w: World, s: Step, d: nat)
    requires Inv(w) && Serial(w) && Delivery(w) && Enabled(w, s) && d in After(w, s).drainers
    ensures StillClaims(After(w, s), After(w, s).drainers[d])
  {
    hide Matching, RowHolds;
    if d in w.drainers {
      assert StillClaims(w, w.drainers[d]) && DrainerHolds(w, w.drainers[d]);
    }
  }

  lemma SentKept(w: World, s: Step, id: RequestId)
    requires Inv(w) && Serial(w) && Delivery(w) && Enabled(w, s) && id in After(w, s).rows
    ensures SentIsMailed(After(w, s), id)
  {
    hide Matching, RowHolds, DrainerHolds;
    if id in w.rows {
      assert SentIsMailed(w, id);
    }
    if s.MarkSent? || s.Send? {
      assert StillClaims(w, w.drainers[s.run]);
    }
  }

  lemma {:induction false} DeliveryHolds(ws: seq<World>, steps: seq<Step>, i: nat)
    requires IsRun(ws, steps) && i < |ws| && forall w :: w in ws ==> Serial(w)
    ensures Delivery(ws[i])
  {
    if i == 0 {
    } else {
      DeliveryHolds(ws, steps, i - 1);
      RunHolds(ws, steps, i - 1);
      hide After, Enabled, Inv, StillClaims, SentIsMailed;
      assert ws[i - 1] in ws && StepsAt(ws, steps, i - 1);
      hide Delivery, Serial;
      DeliveryKeeps(ws[i - 1], steps[i - 1]);
    }
  }

  lemma DeliveryKeeps(w: World, s: Step)
    requires Inv(w) && Delivery(w) && Serial(w) && Enabled(w, s)
    ensures Delivery(After(w, s))
  {
    hide After, Enabled, Inv, StillClaims, SentIsMailed;
    var w' := After(w, s);
    forall id | id in w'.rows ensures SentIsMailed(w', id) {
      SentKept(w, s, id);
    }
    forall d | d in w'.drainers ensures StillClaims(w', w'.drainers[d]) {
      ClaimsKeep(w, s, d);
    }
  }

  /** Under serial drainers, however often a task fails and is retried, a row marked sent answers to
      the last link emailed for it. */
  lemma SentMeansDelivered(ws: seq<World>, steps: seq<Step>, i: nat, id: RequestId)
    requires IsRun(ws, steps) && i < |ws| && forall w :: w in ws ==> Serial(w)
    requires id in ws[i].rows && ws[i].rows[id].sentAt.Some?
    ensures id in ws[i].mailed && ws[i].rows[id].hash == Digest(ws[i].mailed[id])
  {
    DeliveryHolds(ws, steps, i);
    assert SentIsMailed(ws[i], id);
  }

  // ---- runs as lists of steps ----

  ghost predicate Leads(w: World, steps: seq<Step>, w': World)
    decreases |steps|
  {
    if steps == [] then w == w'
    else Enabled(w, steps[0]) && Leads(After(w, steps[0]), steps[1..], w')
  }

  lemma Then(w: World, s: Step, rest: seq<Step>, w': World)
    requires Enabled(w, s) && Leads(After(w, s), rest, w')
    ensures Leads(w, [s] + rest, w')
  {
    assert ([s] + rest)[1..] == rest;
  }

  lemma {:induction false} Join(w: World, a: seq<Step>, m: World, b: seq<Step>, w': World)
    requires Leads(w, a, m) && Leads(m, b, w')
    ensures Leads(w, a + b, w')
    decreases |a|
  {
    if a == [] {
      assert a + b == b;
    } else {
      Join(After(w, a[0]), a[1..], m, b, w');
      assert (a + b)[1..] == a[1..] + b;
    }
  }

  // ---- two drainers on one request ----

  function DrainerRace(key: Key, expiresAt: nat): seq<Step> {
    [Request(key, expiresAt), ReadRow(1, 0), Mint(1, expiresAt), ReadRow(2, 0), Send(1), Mint(2, expiresAt), MarkSent(1), Stop(2)]
  }

  predicate Has(w: World, run: nat, d: Option<Drainer>) {
    match d
    case None => run !in w.drainers
    case Some(at) => run in w.drainers && w.drainers[run] == at
  }

  /** One request's row, and where drainers 1 and 2 are. */
  predicate Racing(w: World, row: Row, one: Option<Drainer>, two: Option<Drainer>, nextSecret: Secret) {
    0 in w.rows && w.rows[0] == row && w.nextId == 1 && w.nextSecret == nextSecret && Has(w, 1, one) && Has(w, 2, two)
  }

  lemma Four(a: World, s: Step, b: World, t: Step, c: World, u: Step, d: World, v: Step, e: World)
    requires Enabled(a, s) && After(a, s) == b && Enabled(b, t) && After(b, t) == c
    requires Enabled(c, u) && After(c, u) == d && Enabled(d, v) && After(d, v) == e
    ensures Leads(a, [s, t, u, v], e)
  {
    hide After, Enabled;
    assert Leads(e, [], e);
    Then(d, v, [], e);
    Then(c, u, [v], e);
    Then(b, t, [u, v], e);
    Then(a, s, [t, u, v], e);
    assert [v] + [] == [v] && [u] + [v] == [u, v] && [t] + [u, v] == [t, u, v] && [s] + [t, u, v] == [s, t, u, v];
  }

  lemma RaceOpens(key: Key, now: nat, expiresAt: nat) returns (w: World)
    ensures Leads(Start(now), DrainerRace(key, expiresAt)[..4], w)
    ensures Racing(w, Row(Digest(0), key, expiresAt, None, None), Some(Minted(0, 0)), Some(Holding(0, Digest(0))), 1)
    ensures w.emailed == {}
  {
    var all := DrainerRace(key, expiresAt);
    var w0 := Start(now);
    var w1 := After(w0, all[0]);
    assert Racing(w1, Row(Pending(0), key, expiresAt, None, None), None, None, 0);
    var w2 := After(w1, all[1]);
    assert Racing(w2, Row(Pending(0), key, expiresAt, None, None), Some(Holding(0, Pending(0))), None, 0);
    var w3 := After(w2, all[2]);
    assert Racing(w3, Row(Digest(0), key, expiresAt, None, None), Some(Minted(0, 0)), None, 1);
    w := After(w3, all[3]);
    assert Racing(w, Row(Digest(0), key, expiresAt, None, None), Some(Minted(0, 0)), Some(Holding(0, Digest(0))), 1);
    hide After;
    Four(w0, all[0], w1, all[1], w2, all[2], w3, all[3], w);
    assert all[..4] == [all[0], all[1], all[2], all[3]];
  }

  lemma RaceCloses(key: Key, expiresAt: nat, w4: World) returns (w: World)
    requires Racing(w4, Row(Digest(0), key, expiresAt, None, None), Some(Minted(0, 0)), Some(Holding(0, Digest(0))), 1)
    requires w4.emailed == {}
    ensures Leads(w4, DrainerRace(key, expiresAt)[4..], w)
    ensures Racing(w, Row(Digest(1), key, expiresAt, None, Some(w4.now)), None, None, 2)
    ensures w.emailed == {0}
  {
    var all := DrainerRace(key, expiresAt);
    var w5 := After(w4, all[4]);
    assert Racing(w5, Row(Digest(0), key, expiresAt, None, None), Some(Delivered(0, 0)), Some(Holding(0, Digest(0))), 1);
    var w6 := After(w5, all[5]);
    assert Racing(w6, Row(Digest(1), key, expiresAt, None, None), Some(Delivered(0, 0)), Some(Minted(0, 1)), 2);
    var w7 := After(w6, all[6]);
    assert Racing(w7, Row(Digest(1), key, expiresAt, None, Some(w4.now)), None, Some(Minted(0, 1)), 2);
    w := After(w7, all[7]);
    hide After;
    Four(w4, all[4], w5, all[5], w6, all[6], w7, all[7], w);
    assert all[4..] == [all[4], all[5], all[6], all[7]];
  }

  /** The second drainer reads the row after the first has claimed it and mints over it after the
      first has sent: the row is marked sent for a secret nobody was sent. By `SentFreezes` no later
      step revives the emailed one, and a row marked sent is never minted for again. */
  lemma DrainerRaceKillsTheLink(key: Key, now: nat, expiresAt: nat) returns (w: World)
    ensures Leads(Start(now), DrainerRace(key, expiresAt), w)
    ensures 1 !in w.drainers && 2 !in w.drainers && 0 in w.rows && w.rows[0].sentAt.Some?
    ensures w.emailed == {0} && w.rows[0].hash == Digest(1)
  {
    hide Leads;
    var all := DrainerRace(key, expiresAt);
    var w4 := RaceOpens(key, now, expiresAt);
    w := RaceCloses(key, expiresAt, w4);
    Join(Start(now), all[..4], w4, all[4..], w);
    assert all[..4] + all[4..] == all;
  }

  // ---- two requests that are not transactions ----

  function SplitRequests(key: Key, expiresAt: nat): seq<Step> {
    [DeleteKey(key), DeleteKey(key), InsertRow(key, expiresAt), InsertRow(key, expiresAt),
     ReadRow(1, 0), Mint(1, expiresAt), ReadRow(2, 1), Mint(2, expiresAt)]
  }

  predicate TwoRows(w: World, a: Row, b: Row, nextSecret: Secret) {
    0 in w.rows && w.rows[0] == a && 1 in w.rows && w.rows[1] == b && w.nextId == 2 && w.nextSecret == nextSecret
  }

  lemma SplitInserts(key: Key, now: nat, expiresAt: nat) returns (w: World)
    ensures Leads(Start(now), SplitRequests(key, expiresAt)[..4], w)
    ensures TwoRows(w, Row(Pending(0), key, expiresAt, None, None), Row(Pending(1), key, expiresAt, None, None), 0)
    ensures Has(w, 1, None) && Has(w, 2, None) && w.now == now
  {
    var all := SplitRequests(key, expiresAt);
    var w0 := Start(now);
    var w1 := After(w0, all[0]);
    var w2 := After(w1, all[1]);
    assert w2.nextId == 0 && w2.nextSecret == 0;
    var w3 := After(w2, all[2]);
    assert Racing(w3, Row(Pending(0), key, expiresAt, None, None), None, None, 0);
    w := After(w3, all[3]);
    hide After;
    Four(w0, all[0], w1, all[1], w2, all[2], w3, all[3], w);
    assert all[..4] == [all[0], all[1], all[2], all[3]];
  }

  lemma SplitMints(key: Key, expiresAt: nat, w4: World) returns (w: World)
    requires TwoRows(w4, Row(Pending(0), key, expiresAt, None, None), Row(Pending(1), key, expiresAt, None, None), 0)
    requires Has(w4, 1, None) && Has(w4, 2, None)
    ensures Leads(w4, SplitRequests(key, expiresAt)[4..], w) && w.now == w4.now
    ensures TwoRows(w, Row(Digest(0), key, expiresAt, None, None), Row(Digest(1), key, expiresAt, None, None), 2)
  {
    var all := SplitRequests(key, expiresAt);
    var w5 := After(w4, all[4]);
    assert TwoRows(w5, Row(Pending(0), key, expiresAt, None, None), Row(Pending(1), key, expiresAt, None, None), 0);
    assert Has(w5, 1, Some(Holding(0, Pending(0)))) && Has(w5, 2, None);
    var w6 := After(w5, all[5]);
    assert TwoRows(w6, Row(Digest(0), key, expiresAt, None, None), Row(Pending(1), key, expiresAt, None, None), 1) && Has(w6, 2, None);
    var w7 := After(w6, all[6]);
    assert TwoRows(w7, Row(Digest(0), key, expiresAt, None, None), Row(Pending(1), key, expiresAt, None, None), 1);
    assert Has(w7, 2, Some(Holding(1, Pending(1))));
    w := After(w7, all[7]);
    hide After;
    Four(w4, all[4], w5, all[5], w6, all[6], w7, all[7], w);
    assert all[4..] == [all[4], all[5], all[6], all[7]];
  }

  /** Two requests whose deletes both run before either insert leave two redeemable secrets for one
      key: `OneRedeemableSecret` does need requests to be transactions. */
  lemma SplitRequestsLeaveTwoLinks(key: Key, now: nat, expiresAt: nat) returns (w: World)
    requires now <= expiresAt
    ensures Leads(Start(now), SplitRequests(key, expiresAt), w)
    ensures 0 in w.rows && 1 in w.rows && w.rows[0].key == w.rows[1].key == key
    ensures Live(w.rows[0], 0, w.now) && Live(w.rows[1], 1, w.now)
  {
    hide Leads;
    var all := SplitRequests(key, expiresAt);
    var w4 := SplitInserts(key, now, expiresAt);
    w := SplitMints(key, expiresAt, w4);
    Join(Start(now), all[..4], w4, all[4..], w);
    assert all[..4] + all[4..] == all;
  }
}
