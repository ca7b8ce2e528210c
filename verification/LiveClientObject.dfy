/** The client as it runs: one closure's variables, changed in place by every call and event. */
module LiveClientObject {
  import opened Options
  import L = LiveClient

  class Client {
    const cfg: L.Config
    var ws: Option<L.SocketId>
    var sockets: seq<L.Socket>
    var subs: map<L.SubId, string>
    var counter: nat
    var attempts: nat
    var reconnect: L.Timer
    var stable: L.StableTimer
    var token: Option<string>
    var closed: bool
    var bookmark: Option<nat>
    var dials: nat    // these two only count, for the bound on timer-driven sockets
    var carried: nat
    var now: nat      // the clock the timers go by

    function State(): L.State
      reads this
    {
      L.State(ws, sockets, subs, counter, attempts, reconnect, stable, token, closed, bookmark, dials, carried, now)
    }

    ghost predicate Valid()
      reads this
    {
      L.Inv(State(), cfg)
    }

    constructor (cfg: L.Config, token: Option<string>)
      ensures Valid() && State() == L.Start(token) && this.cfg == cfg
    {
      this.cfg := cfg;
      ws, sockets, subs, counter, attempts := None, [], map[], 0, 0;
      reconnect, stable, this.token, closed, bookmark := L.Unset, L.NotSet, token, false, None;
      dials, carried, now := 0, 0, 0;
    }

    ghost method Keep(before: L.State, e: L.Event)
      requires L.Inv(before, cfg) && L.Enabled(before, e) && State() == L.After(before, cfg, e)
      ensures Valid()
    {
      L.InvKeeps(before, cfg, e);
    }

    method CloseSocket(s: L.SocketId)
      requires s < |sockets|
      modifies this`sockets
      ensures sockets == L.Closed(old(sockets), s)
    {
      if sockets[s].ready == L.Connecting || sockets[s].ready == L.Open {
        sockets := sockets[s := sockets[s].(ready := L.Closing)];
      }
    }

    method DropSocket()
      requires ws.Some? ==> ws.value < |sockets|
      modifies this`ws, this`sockets
      ensures ws == None
      ensures sockets == if old(ws).Some? then L.Closed(old(sockets), old(ws).value) else old(sockets)
    {
      if ws.Some? {
        CloseSocket(ws.value);
        ws := None;
      }
    }

    /** The timers are cleared, their handles left as they are. */
    method StopTimers()
      modifies this`reconnect, this`stable
      ensures reconnect == if old(reconnect).Running? then L.Cleared else old(reconnect)
      ensures stable == if old(stable).Counting? then L.Stopped else old(stable)
    {
      if reconnect.Running? {
        reconnect := L.Cleared;
      }
      if stable.Counting? {
        stable := L.Stopped;
      }
    }

    method EnsureSocket()
      modifies this`ws, this`sockets
      ensures State() == L.EnsureSocket(old(State()), cfg)
      // One socket at most is added, only where there was none, and then it is the current one.
      ensures ws.Some? <==> old(ws).Some? || (!closed && subs != map[] && cfg.hasWebSocket)
      ensures old(ws).Some? || ws.None? ==> ws == old(ws) && sockets == old(sockets)
      ensures old(ws).None? && ws.Some? ==>
        ws == Some(|old(sockets)|) && sockets == old(sockets) + [L.Socket(L.Connecting, map[], token)]
    {
      if closed || ws.Some? || subs == map[] {
        return;
      }
      if !cfg.hasWebSocket {
        return;
      }
      ws := Some(|sockets|);
      sockets := sockets + [L.Socket(L.Connecting, map[], token)];
    }

    method ScheduleReconnect(delay: nat)
      modifies this`attempts, this`reconnect
      ensures State() == L.ScheduleReconnect(old(State()), cfg, delay)
      // An attempt is counted exactly when a timer starts; with subscribers one is waiting then, or the
      // attempts are spent.
      ensures attempts == old(attempts) + (if reconnect != old(reconnect) then 1 else 0)
      ensures reconnect != old(reconnect) ==>
        reconnect == L.Running(now + delay, old(attempts)) && attempts <= cfg.maxReconnectAttempts
      ensures !closed && subs != map[] ==> reconnect != L.Unset || attempts >= cfg.maxReconnectAttempts
      ensures reconnect != old(reconnect) <==>
        !closed && subs != map[] && old(reconnect) == L.Unset && old(attempts) < cfg.maxReconnectAttempts
    {
      if closed || reconnect != L.Unset || subs == map[] {
        return;
      }
      if attempts >= cfg.maxReconnectAttempts {
        return;
      }
      reconnect := L.Running(now + delay, attempts);
      attempts := attempts + 1;
    }

    method ResetSocket()
      requires L.OneLive(State())
      modifies this
      ensures State() == L.ResetSocket(old(State()), cfg)
      // No earlier socket can still open or carry traffic, and nothing of the old back-off is left.
      ensures forall s :: 0 <= s < |old(sockets)| ==> sockets[s].ready !in {L.Connecting, L.Open}
      ensures reconnect == L.Unset && stable == L.NotSet && attempts == 0
      ensures !closed && subs != map[] && cfg.hasWebSocket ==> ws == Some(|old(sockets)|)
    {
      hide L.EnsureSocket;
      DropSocket();
      reconnect := L.Unset;
      stable := L.NotSet;
      attempts, dials, carried := 0, 0, 0;
      EnsureSocket();
    }

    method Subscribe(request: string) returns (id: L.SubId)
      requires Valid()
      modifies this
      ensures Valid() && State() == L.After(old(State()), cfg, L.Subscribe(request))
      // A new id. An open socket's server knows it at once, and one still connecting is told when it opens;
      // a closing one stays as it was, and only the socket after its close event is told.
      ensures id !in old(subs) && subs == old(subs)[id := request] && token == old(token) && attempts == old(attempts)
      ensures old(ws).None? && !closed && cfg.hasWebSocket ==>
        sockets == old(sockets) + [L.Socket(L.Connecting, map[], token)]
      ensures L.CurrentOpen(State()) ==> sockets[ws.value].serverSubs == subs
      ensures !closed && cfg.hasWebSocket ==> ws.Some?
      ensures ws.Some? && sockets[ws.value].ready !in {L.Open, L.Connecting} ==>
        ws == old(ws) && sockets == old(sockets) && sockets[ws.value].ready == L.Closing
    {
      ghost var before := State();
      id := counter;
      counter := counter + 1;
      subs := subs[id := request];
      assert id in subs;
      if ws.Some? && sockets[ws.value].ready == L.Open {
        sockets := sockets[ws.value := sockets[ws.value].(serverSubs := sockets[ws.value].serverSubs[id := request])];
      } else {
        EnsureSocket();
      }
      Keep(before, L.Subscribe(request));
    }

    method Unsubscribe(id: L.SubId)
      requires Valid() && id < counter
      modifies this
      ensures Valid() && State() == L.After(old(State()), cfg, L.Unsubscribe(id))
      ensures subs == old(subs) - {id} && ws == old(ws) && token == old(token)
      ensures L.CurrentOpen(State()) ==> sockets[ws.value].serverSubs == old(subs) - {id}
    {
      ghost var before := State();
      subs := subs - {id};
      if ws.Some? && sockets[ws.value].ready == L.Open {
        sockets := sockets[ws.value := sockets[ws.value].(serverSubs := sockets[ws.value].serverSubs - {id})];
      }
      Keep(before, L.Unsubscribe(id));
    }

    method SetToken(next: Option<string>)
      requires Valid()
      modifies this
      ensures Valid() && State() == L.After(old(State()), cfg, L.SetToken(next))
      // The subscriptions move to one new socket opened with the new token.
      ensures subs == old(subs) && token == next
      ensures attempts == 0 && reconnect == L.Unset && stable == L.NotSet
      ensures !closed && cfg.hasWebSocket && subs != map[] ==>
        ws == Some(|old(sockets)|) && sockets[|old(sockets)|] == L.Socket(L.Connecting, map[], next)
      ensures forall s :: 0 <= s < |old(sockets)| ==> sockets[s].ready !in {L.Connecting, L.Open}
    {
      ghost var before := State();
      token := next;
      ResetSocket();
      Keep(before, L.SetToken(next));
    }

    method Close()
      requires Valid()
      modifies this
      ensures Valid() && State() == L.After(old(State()), cfg, L.Close)
      ensures closed && subs == map[] && !reconnect.Running? && !stable.Counting?
      ensures forall s :: 0 <= s < |sockets| ==> sockets[s].ready !in {L.Connecting, L.Open}
    {
      ghost var before := State();
      closed := true;
      subs := map[];
      StopTimers();
      DropSocket();
      hide L.InStep, L.Budget, L.Timed;
      Keep(before, L.Close);
    }

    // ---- socket events ----

    method OnOpen(s: L.SocketId)
      requires Valid() && L.Enabled(State(), L.Opened(s))
      modifies this
      ensures Valid() && State() == L.After(old(State()), cfg, L.Opened(s))
      ensures ws == Some(s) && sockets[s].ready == L.Open && sockets[s].serverSubs == subs == old(subs)
      // Trusted only once it has stayed open for three seconds.
      ensures stable == L.Counting(s, now + 3000) && attempts == old(attempts)
    {
      ghost var before := State();
      sockets := sockets[s := sockets[s].(ready := L.Open)];
      stable := L.Counting(s, now + L.STABLE_MS);
      sockets := sockets[s := sockets[s].(serverSubs := subs)];
      Keep(before, L.Opened(s));
    }

    method TokenRefused(sent: Option<string>)
      modifies this`token
      ensures token == L.TokenRefused(old(token), sent)
    {
      if sent.None? || token != sent {
        return;
      }
      token := None;
    }

    method OnClose(s: L.SocketId, unauthorized: bool, delay: nat)
      requires Valid() && L.Enabled(State(), L.ClosedBy(s, unauthorized, delay))
      modifies this
      ensures Valid() && State() == L.After(old(State()), cfg, L.ClosedBy(s, unauthorized, delay))
      // Losing a replaced socket loses nothing; a refusal of the current one starts no reconnect.
      ensures old(ws) != Some(s) ==> ws == old(ws) && token == old(token)
      ensures old(ws) == Some(s) ==> ws == None
      ensures old(ws) == Some(s) && unauthorized ==>
        token == if old(token) == old(sockets)[s].sent then None else old(token)
      ensures sockets[s].ready == L.Gone && stable == L.NotSet && subs == old(subs)
      // Any other close of a client with subscribers starts a reconnect after the wait drawn, unless one is
      // waiting or the attempts are spent.
      ensures !(old(ws) == Some(s) && unauthorized) ==> token == old(token)
      ensures var refused := old(ws) == Some(s) && unauthorized;
        if !refused && !closed && subs != map[] && old(reconnect) == L.Unset && old(attempts) < cfg.maxReconnectAttempts
        then reconnect == L.Running(now + delay, old(attempts)) && attempts == old(attempts) + 1
        else reconnect == old(reconnect) && attempts == old(attempts)
    {
      hide L.Inv, L.Backoff, L.ScheduleReconnect;
      ghost var before := State();
      var current := ws == Some(s);
      sockets := sockets[s := sockets[s].(ready := L.Gone)];
      if current {
        ws := None;
      }
      stable := L.NotSet;
      if current && unauthorized {
        TokenRefused(sockets[s].sent);
      } else {
        ScheduleReconnect(delay);
      }
      Keep(before, L.ClosedBy(s, unauthorized, delay));
    }

    method OnError(s: L.SocketId)
      requires Valid() && L.Enabled(State(), L.Failed(s))
      modifies this
      ensures Valid() && State() == L.After(old(State()), cfg, L.Failed(s))
      // A failing socket is only closed: its close event, still to come, does the rest.
      ensures subs == old(subs) && token == old(token)
      ensures sockets[s].ready == L.Closing && ws == old(ws) && reconnect == old(reconnect) && attempts == old(attempts)
    {
      ghost var before := State();
      CloseSocket(s);
      Keep(before, L.Failed(s));
    }

    // ---- timers ----

    method OnReconnectTimer()
      requires Valid() && L.Enabled(State(), L.ReconnectFires)
      modifies this
      ensures Valid() && State() == L.After(old(State()), cfg, L.ReconnectFires)
      // It brings a client with subscribers back, and leaves one that is back already alone.
      ensures cfg.hasWebSocket && subs != map[] ==> ws.Some?
      ensures old(ws).Some? ==> ws == old(ws) && sockets == old(sockets)
      ensures old(ws).None? && ws.Some? ==> sockets == old(sockets) + [L.Socket(L.Connecting, map[], token)]
      ensures subs == old(subs) && token == old(token)
      ensures attempts == old(attempts) && reconnect == L.Unset
    {
      ghost var before := State();
      var had := |sockets|;
      reconnect := L.Unset;
      EnsureSocket();
      if |sockets| > had {
        dials := dials + 1;
      }
      Keep(before, L.ReconnectFires);
    }

    method OnStableTimer()
      requires Valid() && L.Enabled(State(), L.StableFires)
      modifies this
      ensures Valid() && State() == L.After(old(State()), cfg, L.StableFires)
      // It is never a replaced socket's: the one that earns the reset is current. A reconnect still waiting
      // then is of the fourth attempt or later.
      ensures ws == old(ws) == Some(old(stable).socket) && attempts == 0
      ensures sockets == old(sockets) && reconnect == old(reconnect) && stable == L.NotSet && token == old(token)
      ensures reconnect.Running? ==> reconnect.count >= 3
    {
      ghost var before := State();
      var socket := stable.socket;
      stable := L.NotSet;
      if ws == Some(socket) {
        attempts, dials, carried := 0, 0, if reconnect.Running? then 1 else 0;
      }
      if reconnect.Running? {
        L.OutlastsIff(reconnect.count);
      }
      Keep(before, L.StableFires);
    }

    // ---- calls ----

    /** A call's answer: keep the newest bookmark, and drop the token if it was the one refused. */
    method OnResponse(refused: bool, sent: Option<string>, mark: Option<nat>)
      requires Valid()
      modifies this
      ensures Valid() && State() == L.After(old(State()), cfg, L.Response(refused, sent, mark))
      // The newest bookmark is kept, an older one changes nothing, and a token set since stays.
      ensures bookmark == if mark.Some? && (old(bookmark).None? || old(bookmark).value < mark.value) then mark else old(bookmark)
      // A refusal drops the token it refused, and leaves one set since.
      ensures token == if refused && sent.Some? && old(token) == sent then None else old(token)
      ensures ws == old(ws) && sockets == old(sockets) && subs == old(subs)
    {
      ghost var before := State();
      if mark.Some? && (bookmark.None? || bookmark.value < mark.value) {
        bookmark := mark;
      }
      if refused {
        TokenRefused(sent);
      }
      Keep(before, L.Response(refused, sent, mark));
    }

    method Elapse(ms: nat)
      requires Valid()
      modifies this`now
      ensures Valid() && State() == L.After(old(State()), cfg, L.Elapse(ms))
    {
      ghost var before := State();
      now := now + ms;
      Keep(before, L.Elapse(ms));
    }

    // ---- a whole life ----

    method Handle(e: L.Event)
      requires Valid() && L.Enabled(State(), e)
      modifies this
      ensures Valid() && State() == L.After(old(State()), cfg, e)
    {
      match e {
        case Subscribe(request) => var _ := Subscribe(request);
        case Unsubscribe(id) => Unsubscribe(id);
        case SetToken(next) => SetToken(next);
        case Close => Close();
        case Opened(s) => OnOpen(s);
        case ClosedBy(s, unauthorized, delay) => OnClose(s, unauthorized, delay);
        case Failed(s) => OnError(s);
        case ReconnectFires => OnReconnectTimer();
        case StableFires => OnStableTimer();
        case Response(refused, sent, mark) => OnResponse(refused, sent, mark);
        case Elapse(ms) => Elapse(ms);
      }
    }

    /** From its creation, whatever calls and events come (one that cannot happen in the state it meets
        is passed over), the client's variables trace a run of the model, so everything proved of
        traces holds of it. */
    method Live(es: seq<L.Event>) returns (ghost cs: seq<L.State>, ghost taken: seq<L.Event>)
      requires Valid() && State() == L.Start(token)
      modifies this
      ensures L.IsTrace(cs, cfg, taken) && cs[|taken|] == State()
      ensures forall s: nat :: L.IsOpen(State(), s) ==> ws == Some(s) && sockets[s].serverSubs == subs
      ensures dials <= L.Cap(cfg) + if cfg.maxReconnectAttempts <= 3 then 0 else 1
    {
      cs, taken := [State()], [];
      hide L.After, L.Enabled, L.Inv;
      for i := 0 to |es|
        invariant Valid() && L.IsTrace(cs, cfg, taken) && cs[|taken|] == State()
      {
        if L.Enabled(State(), es[i]) {
          Handle(es[i]);
          L.TraceGrows(cs, cfg, taken, es[i]);
          cs, taken := cs + [State()], taken + [es[i]];
        }
      }
      L.TimerDialsAreBounded(cs, cfg, taken, |taken|);
      forall s: nat | L.IsOpen(State(), s) ensures ws == Some(s) && sockets[s].serverSubs == subs {
        L.ClientStaysInStep(cs, cfg, taken, |taken|, s);
      }
    }
  }
}
