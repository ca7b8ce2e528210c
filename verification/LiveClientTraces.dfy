/** Event orders in which a late close event, or a reconnect that outlasts the stable period, matters. */
module LiveClientTraces {
  import opened Options
  import opened LiveClient

  lemma {:induction false} Join(c: State, cfg: Config, a: seq<Event>, m: State, b: seq<Event>, c': State)
    requires Leads(c, cfg, a, m) && Leads(m, cfg, b, c')
    ensures Leads(c, cfg, a + b, c')
    decreases |a|
  {
    if a == [] {
      assert a + b == b;
    } else {
      Join(After(c, cfg, a[0]), cfg, a[1..], m, b, c');
      assert (a + b)[1..] == a[1..] + b;
    }
  }

  lemma One(c: State, cfg: Config, e: Event)
    requires Enabled(c, e)
    ensures Leads(c, cfg, [e], After(c, cfg, e))
  {
    hide After, Enabled;
    var c' := After(c, cfg, e);
    assert Leads(c', cfg, [], c');
    Then(c, cfg, e, [], c');
    assert [e] + [] == [e];
  }

  lemma {:induction false} LeadsHolds(c: State, cfg: Config, es: seq<Event>, c': State)
    requires Inv(c, cfg) && Leads(c, cfg, es, c')
    ensures Inv(c', cfg)
    decreases |es|
  {
    if es != [] {
      hide After, Enabled, Inv;
      InvKeeps(c, cfg, es[0]);
      LeadsHolds(After(c, cfg, es[0]), cfg, es[1..], c');
    }
  }

  // ---- a refused client that comes back ----

  /** How many sockets there are, which is current, and the newest's state. */
  predicate At(c: State, n: nat, ws: Option<SocketId>, newest: Ready, token: Option<string>) {
    && |c.sockets| == n > 0 && c.ws == ws && c.sockets[n - 1].ready == newest && c.token == token
    && 0 in c.subs && !c.closed
  }

  const ONE_TRY := Config(true, 1)

  /** The app replaces its socket, and the old socket's close event arrives late: a reconnect starts
      waiting although the new socket is current. The server refuses the token of the new one before
      that reconnect is due. */
  function RefusedEarly(token: string, query: string): seq<Event> {
    [Subscribe(query)] + [SetToken(Some(token))] + [ClosedBy(0, false, 250)] + [Opened(1)] + [ClosedBy(1, true, 500)]
    + [Elapse(250)] + [ReconnectFires]
  }

  lemma AppReplaces(token: string, query: string) returns (c: State)
    ensures Leads(Start(None), ONE_TRY, [Subscribe(query)] + [SetToken(Some(token))], c)
    ensures At(c, 2, Some(1), Connecting, Some(token)) && c.sockets[1].sent == Some(token) && c.sockets[0].ready == Closing
    ensures c.reconnect == Unset && c.attempts == 0 && c.now == 0
  {
    var a := Start(None);
    assert 0 in a.subs[0 := query];
    var b := After(a, ONE_TRY, Subscribe(query));
    assert At(b, 1, Some(0), Connecting, None) && b.now == 0;
    c := After(b, ONE_TRY, SetToken(Some(token)));
    hide After, Leads;
    One(a, ONE_TRY, Subscribe(query));
    One(b, ONE_TRY, SetToken(Some(token)));
    Join(a, ONE_TRY, [Subscribe(query)], b, [SetToken(Some(token))], c);
  }

  lemma StaleCloseSchedules(token: string, query: string) returns (c: State)
    ensures Leads(Start(None), ONE_TRY,
              [Subscribe(query)] + [SetToken(Some(token))] + [ClosedBy(0, false, 250)] + [Opened(1)], c)
    ensures At(c, 2, Some(1), Open, Some(token)) && c.sockets[1].sent == Some(token)
    ensures c.reconnect == Running(250, 0) && c.attempts == 1 && c.now == 0
  {
    assert Backoff(0) == 500 by {
      assert Doubled(0) == 500;
    }
    hide Backoff, Leads;
    var m := AppReplaces(token, query);
    var n := After(m, ONE_TRY, ClosedBy(0, false, 250));
    assert At(n, 2, Some(1), Connecting, Some(token)) && n.reconnect == Running(250, 0) && n.now == 0;
    c := After(n, ONE_TRY, Opened(1));
    hide After;
    One(m, ONE_TRY, ClosedBy(0, false, 250));
    One(n, ONE_TRY, Opened(1));
    var xs := [Subscribe(query)] + [SetToken(Some(token))];
    Join(Start(None), ONE_TRY, xs, m, [ClosedBy(0, false, 250)], n);
    Join(Start(None), ONE_TRY, xs + [ClosedBy(0, false, 250)], n, [Opened(1)], c);
  }

  lemma ComesBack(f: State) returns (c: State)
    requires At(f, 2, None, Gone, None) && f.reconnect == Running(250, 0) && f.stable == NotSet && f.now == 250
    ensures Enabled(f, ReconnectFires) && c == After(f, ONE_TRY, ReconnectFires)
    ensures c.ws == Some(2) && |c.sockets| == 3 && c.sockets[2].sent == None
  {
    c := After(f, ONE_TRY, ReconnectFires);
  }

  /** The client comes back by itself, and anonymously. */
  lemma RefusedClientComesBackAnonymous(token: string, query: string) returns (c: State)
    ensures Leads(Start(None), ONE_TRY, RefusedEarly(token, query), c)
    ensures c.ws == Some(2) && |c.sockets| == 3 && c.sockets[2].sent == None
  {
    var d := StaleCloseSchedules(token, query);
    assert Backoff(1) == 1000 by {
      assert Doubled(1) == 2 * Doubled(0);
    }
    hide Backoff, Leads;
    var e := After(d, ONE_TRY, ClosedBy(1, true, 500));
    assert At(e, 2, None, Gone, None) && e.reconnect == Running(250, 0) && e.stable == NotSet && e.now == 0;
    assert Enabled(d, ClosedBy(1, true, 500));
    var f := After(e, ONE_TRY, Elapse(250));
    c := ComesBack(f);
    hide After, Enabled, At;
    One(d, ONE_TRY, ClosedBy(1, true, 500));
    One(e, ONE_TRY, Elapse(250));
    One(f, ONE_TRY, ReconnectFires);
    var xs := [Subscribe(query)] + [SetToken(Some(token))] + [ClosedBy(0, false, 250)] + [Opened(1)];
    var ys := xs + [ClosedBy(1, true, 500)];
    Join(Start(None), ONE_TRY, xs, d, [ClosedBy(1, true, 500)], e);
    Join(Start(None), ONE_TRY, ys, e, [Elapse(250)], f);
    Join(Start(None), ONE_TRY, ys + [Elapse(250)], f, [ReconnectFires], c);
  }

  // ---- exactly when the timer can dial once too often ----

  /** Down, with a reconnect waiting. */
  predicate Waiting(c: State, cfg: Config) {
    cfg.hasWebSocket && c.ws.None? && c.reconnect.Running? && !c.stable.Counting? && c.subs != map[] && !c.closed
  }

  predicate Resets(e: Event) {
    e.SetToken? || e.StableFires?
  }

  /** Events leading on without a reset of the attempt count. */
  ghost predicate Quietly(c: State, cfg: Config, es: seq<Event>, c': State) {
    Leads(c, cfg, es, c') && forall e :: e in es ==> !Resets(e)
  }

  lemma QuietJoin(c: State, cfg: Config, a: seq<Event>, m: State, b: seq<Event>, c': State)
    requires Quietly(c, cfg, a, m) && Quietly(m, cfg, b, c')
    ensures Quietly(c, cfg, a + b, c')
  {
    Join(c, cfg, a, m, b, c');
  }

  lemma QuietOne(c: State, cfg: Config, e: Event)
    requires Enabled(c, e) && !Resets(e)
    ensures Quietly(c, cfg, [e], After(c, cfg, e))
  {
    hide After, Enabled, Leads;
    One(c, cfg, e);
  }

  lemma CarriedStays(c: State, cfg: Config, e: Event)
    requires Enabled(c, e) && !Resets(e)
    ensures After(c, cfg, e).carried == c.carried
  {
  }

  lemma {:induction false} QuietBound(c: State, cfg: Config, es: seq<Event>, c': State)
    requires Inv(c, cfg) && Quietly(c, cfg, es, c')
    ensures c'.dials <= Cap(cfg) + c.carried
    decreases |es|
  {
    if es != [] {
      var e := es[0];
      assert e in es && forall x :: x in es[1..] ==> x in es;
      InvKeeps(c, cfg, e);
      CarriedStays(c, cfg, e);
      hide After, Enabled, OneLive, InStep, AfterClose, Timed, Budget;
      QuietBound(After(c, cfg, e), cfg, es[1..], c');
    }
  }

  /** The waiting reconnect falls due and creates a socket. */
  lemma Dial(c: State, cfg: Config) returns (es: seq<Event>, c': State)
    requires Waiting(c, cfg)
    ensures Quietly(c, cfg, es, c')
    ensures c'.ws == Some(|c.sockets|) && |c'.sockets| == |c.sockets| + 1 && c'.sockets[|c.sockets|].ready == Connecting
    ensures c'.attempts == c.attempts && c'.dials == c.dials + 1 && c'.carried == c.carried
    ensures c'.reconnect == Unset && !c'.stable.Counting? && c'.subs == c.subs && !c'.closed
  {
    var wait := Elapse(if c.now < c.reconnect.due then c.reconnect.due - c.now else 0);
    var due := After(c, cfg, wait);
    c' := After(due, cfg, ReconnectFires);
    QuietOne(c, cfg, wait);
    QuietOne(due, cfg, ReconnectFires);
    hide Quietly, After;
    QuietJoin(c, cfg, [wait], due, [ReconnectFires], c');
    es := [wait] + [ReconnectFires];
  }

  /** That socket closes at once: one attempt more is spent. */
  lemma Redial(c: State, cfg: Config, delay: nat) returns (es: seq<Event>, c': State)
    requires Waiting(c, cfg) && c.attempts < cfg.maxReconnectAttempts && Jittered(c.attempts, delay)
    ensures Quietly(c, cfg, es, c') && Waiting(c', cfg)
    ensures c'.attempts == c.attempts + 1 && c'.dials == c.dials + 1 && c'.carried == c.carried
    ensures c'.reconnect == Running(c'.now + delay, c.attempts)
  {
    hide Backoff;
    var dialled, d := Dial(c, cfg);
    var closing := ClosedBy(|c.sockets|, false, delay);
    c' := After(d, cfg, closing);
    QuietOne(d, cfg, closing);
    hide Quietly, After;
    QuietJoin(c, cfg, dialled, d, [closing], c');
    es := dialled + [closing];
  }

  /** A client down with a reconnect waiting, whose every new socket closes at once, uses up all it
      has left and the waiting one besides. */
  lemma {:induction false} Exhaust(c: State, cfg: Config) returns (es: seq<Event>, c': State)
    requires Waiting(c, cfg) && c.attempts <= Cap(cfg)
    ensures Quietly(c, cfg, es, c') && c'.dials == c.dials + 1 + Cap(cfg) - c.attempts
    decreases Cap(cfg) - c.attempts
  {
    hide Quietly, After, Backoff;
    if c.attempts == Cap(cfg) {
      es, c' := Dial(c, cfg);
    } else {
      OutlastsIff(c.attempts);
      HalfIsJittered(c.attempts);
      var a, m := Redial(c, cfg, Backoff(c.attempts) / 2);
      var b;
      b, c' := Exhaust(m, cfg);
      QuietJoin(c, cfg, a, m, b, c');
      es := a + b;
    }
  }

  lemma HalfIsJittered(attempts: nat)
    ensures Jittered(attempts, Backoff(attempts) / 2)
  {
    OutlastsIff(attempts);
  }

  ghost predicate Overruns(c: State, cfg: Config, es: seq<Event>, c': State) {
    Quietly(c, cfg, es, c') && c'.dials > Cap(cfg)
  }

  /** When the stable timer resets the count, the reconnect timer can go on to create more sockets
      than the maximum, before any other reset, exactly when a reconnect was waiting; and that takes a
      reconnect of the fourth attempt or later. */
  lemma OverrunIff(c: State, cfg: Config)
    requires Inv(c, cfg) && Enabled(c, StableFires) && c.subs != map[]
    ensures (exists es, c' :: Overruns(After(c, cfg, StableFires), cfg, es, c')) <==> c.reconnect.Running?
    ensures c.reconnect.Running? ==> c.reconnect.count >= 3
  {
    var r := After(c, cfg, StableFires);
    InvKeeps(c, cfg, StableFires);
    assert !r.closed && cfg.hasWebSocket && r.ws == c.ws && r.ws.Some?;
    if c.reconnect.Running? {
      OutlastsIff(c.reconnect.count);
      HalfIsJittered(0);
      hide Backoff;
      var down := ClosedBy(r.ws.value, false, Backoff(0) / 2);
      QuietOne(r, cfg, down);
      var d := After(r, cfg, down);
      assert Waiting(d, cfg) && d.attempts == d.dials == 0;
      hide After, Quietly, Inv;
      var es, c' := Exhaust(d, cfg);
      QuietJoin(r, cfg, [down], d, es, c');
      assert Overruns(r, cfg, [down] + es, c');
    } else {
      assert r.carried == 0;
      hide After, Inv;
      forall es, c' ensures !Overruns(r, cfg, es, c') {
        if Quietly(r, cfg, es, c') {
          QuietBound(r, cfg, es, c');
        }
      }
    }
  }

  // ---- the bound as such ----

  /** Three failed dials leave a reconnect waiting for almost four seconds. */
  lemma LongWait(cfg: Config, query: string) returns (es: seq<Event>, c: State)
    requires cfg.hasWebSocket && cfg.maxReconnectAttempts >= 4
    ensures Leads(Start(None), cfg, es, c) && Waiting(c, cfg) && c.reconnect == Running(c.now + 3999, 3)
  {
    assert Doubled(0) == 500 && Doubled(1) == 1000 && Doubled(2) == 2000 && Doubled(3) == 4000;
    assert Backoff(0) == 500 && Backoff(1) == 1000 && Backoff(2) == 2000 && Backoff(3) == 4000;
    hide Backoff, Doubled;
    var a := Start(None);
    var b := After(a, cfg, Subscribe(query));
    One(a, cfg, Subscribe(query));
    assert 0 in b.subs;
    assert b.sockets == [Socket(Connecting, map[], None)];
    var closing := ClosedBy(0, false, 250);
    var d := After(b, cfg, closing);
    One(b, cfg, closing);
    assert Waiting(d, cfg) && d.attempts == 1;
    hide After, Leads;
    Join(a, cfg, [Subscribe(query)], b, [closing], d);
    var e1, c1 := Redial(d, cfg, 500);
    var e2, c2 := Redial(c1, cfg, 1000);
    var e3;
    e3, c := Redial(c2, cfg, 3999);
    Join(a, cfg, [Subscribe(query)] + [closing], d, e1, c1);
    Join(a, cfg, [Subscribe(query)] + [closing] + e1, c1, e2, c2);
    Join(a, cfg, [Subscribe(query)] + [closing] + e1 + e2, c2, e3, c);
    es := [Subscribe(query)] + [closing] + e1 + e2 + e3;
  }

  /** Subscribing meanwhile brings up a socket that proves stable before the wait is over. */
  function Settles(n: SocketId, query: string): seq<Event> {
    [Subscribe(query)] + [Opened(n)] + [Elapse(STABLE_MS)]
  }

  lemma StableWhileWaiting(c: State, cfg: Config, query: string) returns (c': State)
    requires Inv(c, cfg) && Waiting(c, cfg) && c.reconnect == Running(c.now + 3999, 3)
    ensures Leads(c, cfg, Settles(|c.sockets|, query), c')
    ensures Enabled(c', StableFires) && c'.reconnect.Running? && c'.subs != map[]
  {
    var n := |c.sockets|;
    var a := After(c, cfg, Subscribe(query));
    assert a.ws == Some(n) && a.sockets[n].ready == Connecting && c.counter in a.subs;
    var b := After(a, cfg, Opened(n));
    assert b.stable == Counting(n, c.now + STABLE_MS) && b.subs == a.subs;
    c' := After(b, cfg, Elapse(STABLE_MS));
    One(c, cfg, Subscribe(query));
    One(a, cfg, Opened(n));
    One(b, cfg, Elapse(STABLE_MS));
    hide After, Leads, Inv;
    Join(c, cfg, [Subscribe(query)], a, [Opened(n)], b);
    Join(c, cfg, [Subscribe(query)] + [Opened(n)], b, [Elapse(STABLE_MS)], c');
  }

  /** With a maximum of four or more, the timer can create one socket too many. */
  lemma OneDialTooMany(cfg: Config, query: string) returns (es: seq<Event>, c: State)
    requires cfg.hasWebSocket && cfg.maxReconnectAttempts >= 4
    ensures Leads(Start(None), cfg, es, c) && c.dials > cfg.maxReconnectAttempts
  {
    var first, m := LongWait(cfg, query);
    LeadsHolds(Start(None), cfg, first, m);
    hide Leads, Inv, After, Enabled;
    var s := StableWhileWaiting(m, cfg, query);
    LeadsHolds(m, cfg, Settles(|m.sockets|, query), s);
    OverrunIff(s, cfg);
    var r := After(s, cfg, StableFires);
    var last;
    last, c :| Overruns(r, cfg, last, c);
    Join(Start(None), cfg, first, m, Settles(|m.sockets|, query), s);
    One(s, cfg, StableFires);
    Join(Start(None), cfg, first + Settles(|m.sockets|, query), s, [StableFires], r);
    es := first + Settles(|m.sockets|, query) + [StableFires] + last;
    Join(Start(None), cfg, first + Settles(|m.sockets|, query) + [StableFires], r, last, c);
  }

  ghost predicate Breaks(cfg: Config, token: Option<string>, es: seq<Event>, c: State) {
    Leads(Start(token), cfg, es, c) && c.dials > Cap(cfg)
  }

  /** The promised bound, over all event orders and all back-offs the client can draw: between resets the
      timer creates no more sockets than the maximum exactly when the maximum is at most three (or there is
      no socket implementation to create any). */
  lemma BoundHoldsIff(cfg: Config)
    ensures (forall token, es, c :: !Breaks(cfg, token, es, c)) <==> cfg.maxReconnectAttempts <= 3 || !cfg.hasWebSocket
  {
    hide Leads, Inv;
    if cfg.maxReconnectAttempts <= 3 || !cfg.hasWebSocket {
      forall token, es, c ensures !Breaks(cfg, token, es, c) {
        if Leads(Start(token), cfg, es, c) {
          WithinThree(cfg, token, es, c);
        }
      }
    } else {
      var es, c := OneDialTooMany(cfg, "");
      assert Breaks(cfg, None, es, c);
    }
  }

  lemma WithinThree(cfg: Config, token: Option<string>, es: seq<Event>, c: State)
    requires (cfg.maxReconnectAttempts <= 3 || !cfg.hasWebSocket) && Leads(Start(token), cfg, es, c)
    ensures c.dials <= Cap(cfg)
  {
    hide Leads;
    LeadsHolds(Start(token), cfg, es, c);
  }
}
