/** The live client: one current socket, subscriptions re-sent on reconnect, two timers, and late
    events from sockets already replaced. Events come in any order the browser allows; timers fire
    when due or later, and in the order they fall due. */
module LiveClient {
  import opened Options

  type SocketId = nat

  type SubId = nat

  datatype Ready = Connecting | Open | Closing | Gone

  /** A socket, what the server has been told over it, and the token it was opened with. */
  datatype Socket = Socket(ready: Ready, serverSubs: map<SubId, string>, sent: Option<string>)

  /** The reconnect timer's handle: null, running since the attempt count was `count`, or cleared without
      the handle being reset. */
  datatype Timer = Unset | Running(due: nat, count: nat) | Cleared

  datatype StableTimer = NotSet | Counting(socket: SocketId, due: nat) | Stopped

  const STABLE_MS := 3000

  datatype Config = Config(hasWebSocket: bool, maxReconnectAttempts: int)

  datatype State = State(
    ws: Option<SocketId>,
    sockets: seq<Socket>,   // every socket ever created
    subs: map<SubId, string>,
    counter: nat,
    attempts: nat,
    reconnect: Timer,
    stable: StableTimer,
    token: Option<string>,
    closed: bool,
    bookmark: Option<nat>,
    dials: nat,             // sockets created by the reconnect timer since the last reset
    carried: nat,           // reconnect timers already running at that reset
    now: nat)

  datatype Event =
    | Subscribe(request: string)
    | Unsubscribe(id: SubId)
    | SetToken(next: Option<string>)
    | Close
    | Opened(socket: SocketId)
    | ClosedBy(socket: SocketId, unauthorized: bool, delay: nat)  // `delay` is the jittered back-off drawn
    | Failed(socket: SocketId)
    | ReconnectFires
    | StableFires
    | Response(refused: bool, sent: Option<string>, mark: Option<nat>)
    | Elapse(ms: nat)

  function Start(token: Option<string>): State {
    State(None, [], map[], 0, 0, Unset, NotSet, token, false, None, 0, 0, 0)
  }

  predicate IsOpen(c: State, s: SocketId) {
    s < |c.sockets| && c.sockets[s].ready == Open
  }

  function CurrentOpen(c: State): bool {
    c.ws.Some? && IsOpen(c, c.ws.value)
  }

  /** `socket.close()`: nothing more opens, and its close event is still to come. */
  function Closed(sockets: seq<Socket>, s: SocketId): seq<Socket> {
    if s < |sockets| && sockets[s].ready in {Connecting, Open} then sockets[s := sockets[s].(ready := Closing)] else sockets
  }

  function SentTo(sockets: seq<Socket>, s: SocketId, known: map<SubId, string>): seq<Socket> {
    if s < |sockets| then sockets[s := sockets[s].(serverSubs := known)] else sockets
  }

  function Doubled(attempts: nat): nat {
    if attempts == 0 then 500 else 2 * Doubled(attempts - 1)
  }

  function Backoff(attempts: nat): nat {
    if Doubled(attempts) < 10_000 then Doubled(attempts) else 10_000
  }

  /** Half the back-off and a random part of the other half. */
  predicate Jittered(attempts: nat, delay: nat) {
    Backoff(attempts) / 2 <= delay < Backoff(attempts)
  }

  /** A reconnect outlasts the stable period only from the fourth attempt on. */
  lemma {:induction false} OutlastsIff(attempts: nat)
    ensures Backoff(attempts) > STABLE_MS <==> attempts >= 3
    ensures 500 <= Doubled(attempts) && (attempts >= 3 ==> Doubled(attempts) >= 4000)
  {
    if attempts > 0 {
      OutlastsIff(attempts - 1);
      if attempts <= 3 {
        assert Doubled(0) == 500 && Doubled(1) == 1000 && Doubled(2) == 2000 && Doubled(3) == 4000;
      }
    }
  }

  function EnsureSocket(c: State, cfg: Config): State {
    if c.closed || c.ws.Some? || c.subs == map[] || !cfg.hasWebSocket then c
    else c.(ws := Some(|c.sockets|), sockets := c.sockets + [Socket(Connecting, map[], c.token)])
  }

  function ScheduleReconnect(c: State, cfg: Config, delay: nat): State {
    if c.closed || c.reconnect != Unset || c.subs == map[] || c.attempts >= cfg.maxReconnectAttempts then c
    else c.(attempts := c.attempts + 1, reconnect := Running(c.now + delay, c.attempts))
  }

  function ResetSocket(c: State, cfg: Config): State {
    EnsureSocket(c.(sockets := if c.ws.Some? then Closed(c.sockets, c.ws.value) else c.sockets,
                    ws := None, reconnect := Unset, stable := NotSet, attempts := 0, dials := 0, carried := 0), cfg)
  }

  function TokenRefused(token: Option<string>, sent: Option<string>): Option<string> {
    if sent.Some? && token == sent then None else token
  }

  function Later(a: Option<nat>, b: Option<nat>): Option<nat> {
    if b.None? then a else if a.None? || a.value < b.value then b else a
  }

  predicate Enabled(c: State, e: Event) {
    match e
    case Unsubscribe(id) => id < c.counter
    case Opened(s) => s < |c.sockets| && c.sockets[s].ready == Connecting
    case ClosedBy(s, _, delay) => s < |c.sockets| && c.sockets[s].ready != Gone && Jittered(c.attempts, delay)
    case Failed(s) => s < |c.sockets| && c.sockets[s].ready != Gone
    case ReconnectFires =>
      c.reconnect.Running? && c.reconnect.due <= c.now && (c.stable.Counting? ==> c.reconnect.due <= c.stable.due)
    case StableFires =>
      c.stable.Counting? && c.stable.due <= c.now && (c.reconnect.Running? ==> c.stable.due <= c.reconnect.due)
    case _ => true
  }

  function OnClosed(c: State, cfg: Config, s: SocketId, unauthorized: bool, delay: nat): State
    requires s < |c.sockets|
  {
    var current := c.ws == Some(s);
    var c1 := c.(sockets := c.sockets[s := c.sockets[s].(ready := Gone)],
                 ws := if current then None else c.ws,
                 stable := NotSet);
    if current && unauthorized then c1.(token := TokenRefused(c.token, c.sockets[s].sent))
    else ScheduleReconnect(c1, cfg, delay)
  }

  function OnReconnect(c: State, cfg: Config): State {
    var c1 := EnsureSocket(c.(reconnect := Unset), cfg);
    c1.(dials := if |c1.sockets| > |c.sockets| then c.dials + 1 else c.dials)
  }

  function OnStable(c: State): State
    requires c.stable.Counting?
  {
    if c.ws == Some(c.stable.socket)
    then c.(stable := NotSet, attempts := 0, dials := 0, carried := if c.reconnect.Running? then 1 else 0)
    else c.(stable := NotSet)
  }

  function After(c: State, cfg: Config, e: Event): State
    requires Enabled(c, e)
  {
    match e
    case Subscribe(request) =>
      var c1 := c.(subs := c.subs[c.counter := request], counter := c.counter + 1);
      if CurrentOpen(c1)
      then c1.(sockets := SentTo(c1.sockets, c1.ws.value, c1.sockets[c1.ws.value].serverSubs[c.counter := request]))
      else EnsureSocket(c1, cfg)
    case Unsubscribe(id) =>
      var c1 := c.(subs := c.subs - {id});
      if CurrentOpen(c1)
      then c1.(sockets := SentTo(c1.sockets, c1.ws.value, c1.sockets[c1.ws.value].serverSubs - {id}))
      else c1
    case SetToken(next) => ResetSocket(c.(token := next), cfg)
    case Close =>
      c.(closed := true, subs := map[],
         reconnect := if c.reconnect.Running? then Cleared else c.reconnect,
         stable := if c.stable.Counting? then Stopped else c.stable,
         sockets := if c.ws.Some? then Closed(c.sockets, c.ws.value) else c.sockets, ws := None)
    case Opened(s) =>
      c.(sockets := SentTo(c.sockets[s := c.sockets[s].(ready := Open)], s, c.subs), stable := Counting(s, c.now + STABLE_MS))
    case ClosedBy(s, unauthorized, delay) => OnClosed(c, cfg, s, unauthorized, delay)
    case Failed(s) => c.(sockets := Closed(c.sockets, s))
    case ReconnectFires => OnReconnect(c, cfg)
    case StableFires => OnStable(c)
    case Response(refused, sent, mark) =>
      c.(bookmark := Later(c.bookmark, mark), token := if refused then TokenRefused(c.token, sent) else c.token)
    case Elapse(ms) => c.(now := c.now + ms)
  }

  ghost predicate StepsAt(cs: seq<State>, cfg: Config, es: seq<Event>, i: nat)
    requires i < |es| && |cs| == |es| + 1
  {
    Enabled(cs[i], es[i]) && cs[i + 1] == After(cs[i], cfg, es[i])
  }

  ghost predicate IsTrace(cs: seq<State>, cfg: Config, es: seq<Event>) {
    && |cs| == |es| + 1
    && cs[0] == Start(cs[0].token)
    && forall i :: 0 <= i < |es| ==> StepsAt(cs, cfg, es, i)
  }

  lemma TraceGrows(cs: seq<State>, cfg: Config, es: seq<Event>, e: Event)
    requires IsTrace(cs, cfg, es) && Enabled(cs[|es|], e)
    ensures IsTrace(cs + [After(cs[|es|], cfg, e)], cfg, es + [e])
  {
    hide After, Enabled;
    var cs', es' := cs + [After(cs[|es|], cfg, e)], es + [e];
    forall i | 0 <= i < |es'| ensures StepsAt(cs', cfg, es', i) {
      assert i < |es| ==> StepsAt(cs, cfg, es, i);
    }
  }

  // ---- what holds in every state ----

  function Cap(cfg: Config): int {
    if cfg.maxReconnectAttempts < 0 then 0 else cfg.maxReconnectAttempts
  }

  /** Any socket that may still carry traffic is the current one: never two connections. */
  ghost predicate OneLive(c: State) {
    && (c.ws.Some? ==> c.ws.value < |c.sockets| && c.sockets[c.ws.value].ready != Gone)
    && (forall s :: 0 <= s < |c.sockets| && c.sockets[s].ready in {Connecting, Open} ==> c.ws == Some(s))
  }

  /** The server holds, over the open current socket, exactly the local subscriptions. */
  ghost predicate InStep(c: State) {
    CurrentOpen(c) ==> c.sockets[c.ws.value].serverSubs == c.subs
  }

  ghost predicate Budget(c: State, cfg: Config) {
    && 0 <= c.attempts <= Cap(cfg)
    && c.carried <= 1
    && c.dials + (if c.reconnect.Running? then 1 else 0) <= c.attempts + c.carried
  }

  ghost predicate AfterClose(c: State, cfg: Config) {
    && (c.closed ==> c.ws.None? && !c.reconnect.Running? && !c.stable.Counting?)
    && (!c.closed ==> c.reconnect != Cleared && c.stable != Stopped)
    && (!cfg.hasWebSocket ==> c.ws.None? && c.dials == 0)
    && (forall id :: id in c.subs ==> id < c.counter)
  }

  /** The stable timer is the current socket's, and started no earlier than a reconnect still waiting: a
      close clears it, and only a close starts a reconnect. */
  ghost predicate Timed(c: State, cfg: Config) {
    && (c.stable.Counting? ==> c.ws == Some(c.stable.socket))
    && (c.reconnect.Running? ==> c.reconnect.due < c.now + Backoff(c.reconnect.count) && c.reconnect.count < Cap(cfg))
    && (c.reconnect.Running? && c.stable.Counting? ==>
         c.reconnect.due + STABLE_MS < c.stable.due + Backoff(c.reconnect.count))
    && (cfg.maxReconnectAttempts <= 3 ==> c.carried == 0)
  }

  ghost predicate Inv(c: State, cfg: Config) {
    OneLive(c) && InStep(c) && Budget(c, cfg) && AfterClose(c, cfg) && Timed(c, cfg)
  }

  lemma OneLiveKeeps(c: State, cfg: Config, e: Event)
    requires Inv(c, cfg) && Enabled(c, e)
    ensures OneLive(After(c, cfg, e))
  {
    hide InStep, Budget, Timed, Backoff;
  }

  lemma InStepKeeps(c: State, cfg: Config, e: Event)
    requires Inv(c, cfg) && Enabled(c, e)
    ensures InStep(After(c, cfg, e))
  {
    hide Budget, AfterClose;
  }

  lemma BudgetKeeps(c: State, cfg: Config, e: Event)
    requires Inv(c, cfg) && Enabled(c, e)
    ensures Budget(After(c, cfg, e), cfg)
  {
    hide InStep, OneLive, AfterClose;
  }

  lemma AfterCloseKeeps(c: State, cfg: Config, e: Event)
    requires Inv(c, cfg) && Enabled(c, e)
    ensures AfterClose(After(c, cfg, e), cfg)
  {
    hide InStep, Budget, Timed, Backoff;
  }

  lemma TimedKeeps(c: State, cfg: Config, e: Event)
    requires Inv(c, cfg) && Enabled(c, e)
    ensures Timed(After(c, cfg, e), cfg)
  {
    hide InStep, Backoff;
    if e.StableFires? && c.reconnect.Running? {
      OutlastsIff(c.reconnect.count);
    }
  }

  lemma InvKeeps(c: State, cfg: Config, e: Event)
    requires Inv(c, cfg) && Enabled(c, e)
    ensures Inv(After(c, cfg, e), cfg)
  {
    hide After, Enabled, OneLive, InStep, Budget, AfterClose, Timed;
    OneLiveKeeps(c, cfg, e);
    InStepKeeps(c, cfg, e);
    BudgetKeeps(c, cfg, e);
    AfterCloseKeeps(c, cfg, e);
    TimedKeeps(c, cfg, e);
  }

  lemma {:induction false} TraceHolds(cs: seq<State>, cfg: Config, es: seq<Event>, i: nat)
    requires IsTrace(cs, cfg, es) && i < |cs|
    ensures Inv(cs[i], cfg)
  {
    if i == 0 {
    } else {
      hide After, Enabled, Inv;
      TraceHolds(cs, cfg, es, i - 1);
      assert StepsAt(cs, cfg, es, i - 1);
      InvKeeps(cs[i - 1], cfg, es[i - 1]);
    }
  }

  /** Whatever order events come in: an open current socket's server-side subscriptions are the local
      ones, no other socket can still open or carry traffic, and the backoff counter stays within
      the configured maximum. */
  lemma ClientStaysInStep(cs: seq<State>, cfg: Config, es: seq<Event>, i: nat, s: SocketId)
    requires IsTrace(cs, cfg, es) && i < |cs| && IsOpen(cs[i], s)
    ensures cs[i].ws == Some(s) && cs[i].sockets[s].serverSubs == cs[i].subs
    ensures 0 <= cs[i].attempts <= Cap(cfg)
  {
    TraceHolds(cs, cfg, es, i);
  }

  /** Between two resets the reconnect timer creates at most the configured number of sockets when that
      is at most three, and else one more only when a reconnect was already waiting when the stable
      timer reset the count. */
  lemma TimerDialsAreBounded(cs: seq<State>, cfg: Config, es: seq<Event>, i: nat)
    requires IsTrace(cs, cfg, es) && i < |cs|
    ensures cs[i].dials <= Cap(cfg) + cs[i].carried && cs[i].carried <= 1
    ensures cfg.maxReconnectAttempts <= 3 ==> cs[i].dials <= Cap(cfg)
  {
    TraceHolds(cs, cfg, es, i);
  }

  // ---- after close() ----

  lemma ClosedKeeps(c: State, cfg: Config, e: Event)
    requires Inv(c, cfg) && Enabled(c, e) && c.closed
    ensures After(c, cfg, e).closed && |After(c, cfg, e).sockets| == |c.sockets|
  {
    hide InStep, Budget, Timed, Backoff;
  }

  /** No event sequence creates a socket after `close()`. */
  lemma {:induction false} NothingAfterClose(cs: seq<State>, cfg: Config, es: seq<Event>, i: nat, j: nat)
    requires IsTrace(cs, cfg, es) && i <= j < |cs| && cs[i].closed
    ensures cs[j].closed && |cs[j].sockets| == |cs[i].sockets| && cs[j].ws.None?
    decreases j
  {
    TraceHolds(cs, cfg, es, j);
    hide After, Enabled, OneLive, InStep, Budget;
    if i == j {
    } else {
      NothingAfterClose(cs, cfg, es, i, j - 1);
      TraceHolds(cs, cfg, es, j - 1);
      assert StepsAt(cs, cfg, es, j - 1);
      ClosedKeeps(cs[j - 1], cfg, es[j - 1]);
    }
  }

  // ---- never silently down ----

  /** With subscribers and no socket, either a reconnect is coming, or the attempts are spent, or the
      server refused the token. */
  ghost predicate Accounted(c: State, cfg: Config, refused: bool) {
    !c.closed && cfg.hasWebSocket && c.subs != map[] && c.ws.None? ==>
      c.reconnect.Running? || c.attempts >= cfg.maxReconnectAttempts || refused
  }

  /** Whether the last thing to bring the client down was a refused token. */
  function Refused(cs: seq<State>, es: seq<Event>, i: nat): bool
    requires i <= |es| && |cs| == |es| + 1
  {
    if i == 0 then false
    else if es[i - 1].ClosedBy? && es[i - 1].unauthorized && cs[i - 1].ws == Some(es[i - 1].socket) then true
    else if |cs[i].sockets| > |cs[i - 1].sockets| then false
    else Refused(cs, es, i - 1)
  }

  lemma AccountedKeeps(c: State, cfg: Config, e: Event, refused: bool)
    requires Inv(c, cfg) && Enabled(c, e) && Accounted(c, cfg, refused)
    ensures var c' := After(c, cfg, e);
      Accounted(c', cfg, (e.ClosedBy? && e.unauthorized && c.ws == Some(e.socket)) || (refused && |c'.sockets| == |c.sockets|))
  {
    hide InStep, OneLive;
  }

  lemma {:induction false} NeverSilentlyDown(cs: seq<State>, cfg: Config, es: seq<Event>, i: nat)
    requires IsTrace(cs, cfg, es) && i < |cs|
    ensures Accounted(cs[i], cfg, Refused(cs, es, i))
  {
    if i == 0 {
    } else {
      NeverSilentlyDown(cs, cfg, es, i - 1);
      TraceHolds(cs, cfg, es, i - 1);
      assert StepsAt(cs, cfg, es, i - 1);
      hide After, Enabled, Inv;
      AccountedKeeps(cs[i - 1], cfg, es[i - 1], Refused(cs, es, i - 1));
      SocketsGrow(cs[i - 1], cfg, es[i - 1]);
    }
  }

  lemma SocketsGrow(c: State, cfg: Config, e: Event)
    requires Enabled(c, e)
    ensures |c.sockets| <= |After(c, cfg, e).sockets|
  {
  }

  // ---- staying down ----

  /** No socket, and nothing left that could make one without the app asking: no reconnect is
      waiting, and no replaced socket's close event is still to come (unless the attempts are spent). */
  ghost predicate Down(c: State, cfg: Config) {
    c.closed || !cfg.hasWebSocket
    || (c.ws.None? && (c.subs == map[]
                       || (!c.reconnect.Running? && (NoneClosing(c) || c.attempts >= cfg.maxReconnectAttempts))))
  }

  ghost predicate NoneClosing(c: State) {
    forall s :: 0 <= s < |c.sockets| ==> c.sockets[s].ready == Gone
  }

  predicate AppAsks(e: Event) {
    e.Subscribe? || e.SetToken?
  }

  lemma DownKeeps(c: State, cfg: Config, e: Event)
    requires Inv(c, cfg) && Down(c, cfg) && Enabled(c, e) && !AppAsks(e)
    ensures Down(After(c, cfg, e), cfg) && |After(c, cfg, e).sockets| == |c.sockets|
  {
    hide InStep, Budget, Timed, Backoff;
  }

  lemma {:induction false} StaysDown(cs: seq<State>, cfg: Config, es: seq<Event>, i: nat, j: nat)
    requires IsTrace(cs, cfg, es) && i <= j < |cs| && Down(cs[i], cfg)
    requires forall k :: i <= k < j ==> !AppAsks(es[k])
    ensures Down(cs[j], cfg) && |cs[j].sockets| == |cs[i].sockets|
    decreases j
  {
    if i == j {
    } else {
      hide After, Enabled, Inv, Down;
      StaysDown(cs, cfg, es, i, j - 1);
      TraceHolds(cs, cfg, es, j - 1);
      assert StepsAt(cs, cfg, es, j - 1);
      DownKeeps(cs[j - 1], cfg, es[j - 1]);
    }
  }

  /** Events leading from one state to another. */
  ghost predicate Leads(c: State, cfg: Config, es: seq<Event>, c': State)
    decreases |es|
  {
    if es == [] then c == c'
    else Enabled(c, es[0]) && Leads(After(c, cfg, es[0]), cfg, es[1..], c')
  }

  lemma Then(c: State, cfg: Config, e: Event, rest: seq<Event>, c': State)
    requires Enabled(c, e) && Leads(After(c, cfg, e), cfg, rest, c')
    ensures Leads(c, cfg, [e] + rest, c')
  {
    assert ([e] + rest)[1..] == rest;
  }

  /** A waiting reconnect falls due and creates a socket where there is none. */
  lemma WaitingComesBack(c: State, cfg: Config) returns (es: seq<Event>, c': State)
    requires Inv(c, cfg) && c.ws.None? && c.reconnect.Running? && c.subs != map[] && cfg.hasWebSocket
    ensures Leads(c, cfg, es, c') && |c'.sockets| > |c.sockets|
    ensures forall e :: e in es ==> !AppAsks(e)
  {
    var due := After(c, cfg, Elapse(c.reconnect.due));
    c' := After(due, cfg, ReconnectFires);
    es := [Elapse(c.reconnect.due)] + ([ReconnectFires] + []);
    assert Leads(c', cfg, [], c');
    Then(due, cfg, ReconnectFires, [], c');
    Then(c, cfg, Elapse(c.reconnect.due), [ReconnectFires] + [], c');
  }

  /** Conversely, a socketless client that is not `Down` comes back with no call from the app: the
      waiting timer fires, or a replaced socket's close event arrives and then its timer fires. */
  lemma NotDownComesBack(c: State, cfg: Config) returns (es: seq<Event>, c': State)
    requires Inv(c, cfg) && c.ws.None? && !Down(c, cfg)
    ensures Leads(c, cfg, es, c') && |c'.sockets| > |c.sockets|
    ensures forall e :: e in es ==> !AppAsks(e)
  {
    if c.reconnect.Running? {
      es, c' := WaitingComesBack(c, cfg);
    } else {
      var s :| 0 <= s < |c.sockets| && c.sockets[s].ready != Gone;
      OutlastsIff(c.attempts);
      var closing := ClosedBy(s, false, Backoff(c.attempts) / 2);
      InvKeeps(c, cfg, closing);
      var rest;
      rest, c' := WaitingComesBack(After(c, cfg, closing), cfg);
      Then(c, cfg, closing, rest, c');
      es := [closing] + rest;
    }
  }

  /** After a refused token (close code 4401) the client stays down until the app subscribes or sets
      a token exactly when no reconnect was waiting and no replaced socket's close was still to come. */
  lemma RefusalLeavesDownIff(c: State, cfg: Config, s: SocketId, delay: nat)
    requires Inv(c, cfg) && !c.closed && c.ws == Some(s) && c.subs != map[] && Enabled(c, ClosedBy(s, true, delay))
    ensures var c' := After(c, cfg, ClosedBy(s, true, delay));
      Down(c', cfg) <==>
        !c.reconnect.Running?
        && (c.attempts >= cfg.maxReconnectAttempts || forall x :: 0 <= x < |c.sockets| && x != s ==> c.sockets[x].ready == Gone)
  {
    var c' := After(c, cfg, ClosedBy(s, true, delay));
    if NoneClosing(c') {
      forall x | 0 <= x < |c.sockets| && x != s ensures c.sockets[x].ready == Gone {
        assert c'.sockets[x].ready == Gone;
      }
    }
    if !NoneClosing(c') {
      var x :| 0 <= x < |c'.sockets| && c'.sockets[x].ready != Gone;
      assert x != s && c.sockets[x].ready != Gone;
    }
  }

  // ---- the read-your-writes bookmark and the token ----

  ghost predicate Covers(c: State, mark: nat) {
    c.bookmark.Some? && mark <= c.bookmark.value
  }

  /** Every bookmark seen stays covered: a slower earlier response never takes the client back. */
  lemma {:induction false} BookmarkNeverRegresses(cs: seq<State>, cfg: Config, es: seq<Event>, i: nat, j: nat, mark: nat)
    requires IsTrace(cs, cfg, es) && i < j < |cs| && es[i].Response? && es[i].mark == Some(mark)
    ensures Covers(cs[j], mark)
    decreases j
  {
    assert StepsAt(cs, cfg, es, j - 1);
    if i + 1 == j {
    } else {
      BookmarkNeverRegresses(cs, cfg, es, i, j - 1, mark);
      BookmarkSteps(cs[j - 1], cfg, es[j - 1]);
      hide After, Enabled;
    }
  }

  lemma BookmarkSteps(c: State, cfg: Config, e: Event)
    requires Enabled(c, e)
    ensures After(c, cfg, e).bookmark == if e.Response? then Later(c.bookmark, e.mark) else c.bookmark
  {
  }

  /** And it is one the client was given. */
  lemma {:induction false} BookmarkWasGiven(cs: seq<State>, cfg: Config, es: seq<Event>, i: nat)
    requires IsTrace(cs, cfg, es) && i < |cs| && cs[i].bookmark.Some?
    ensures exists k :: 0 <= k < i && es[k].Response? && es[k].mark == cs[i].bookmark
  {
    if i == 0 {
      assert false;
    } else {
      assert StepsAt(cs, cfg, es, i - 1);
      hide After, Enabled;
      BookmarkSteps(cs[i - 1], cfg, es[i - 1]);
      if cs[i].bookmark == cs[i - 1].bookmark {
        BookmarkWasGiven(cs, cfg, es, i - 1);
      }
    }
  }

  /** The server refused the very token the client holds: in a call's answer, or by closing the current
      socket, which was opened with it. */
  ghost predicate RefusesToken(c: State, e: Event) {
    && c.token.Some?
    && ((e.Response? && e.refused && e.sent == c.token)
        || (e.ClosedBy? && e.unauthorized && c.ws == Some(e.socket) && e.socket < |c.sockets| && c.sockets[e.socket].sent == c.token))
  }

  /** A refusal drops the token exactly if it is still the one that was refused: one the app has set since
      survives every late answer to an older one. Nothing else changes it but the app. */
  lemma TokenChangesIff(c: State, cfg: Config, e: Event)
    requires Enabled(c, e)
    ensures After(c, cfg, e).token == if e.SetToken? then e.next else if RefusesToken(c, e) then None else c.token
  {
  }

  /** Once refused the client stays without a token until the app sets one. */
  lemma {:induction false} RefusedStaysWithout(cs: seq<State>, cfg: Config, es: seq<Event>, i: nat, j: nat)
    requires IsTrace(cs, cfg, es) && i < j < |cs| && RefusesToken(cs[i], es[i])
    requires forall k :: i < k < j ==> !es[k].SetToken?
    ensures cs[j].token == None
    decreases j
  {
    assert StepsAt(cs, cfg, es, j - 1);
    hide After, Enabled;
    TokenChangesIff(cs[j - 1], cfg, es[j - 1]);
    if i + 1 < j {
      RefusedStaysWithout(cs, cfg, es, i, j - 1);
    }
  }

  /** The waits a client draws, in milliseconds, by the attempts it has spent. */
  lemma {:induction false} WaitsAre(attempts: nat, delay: nat)
    ensures Jittered(attempts, delay) <==>
      if attempts == 0 then 250 <= delay < 500
      else if attempts == 1 then 500 <= delay < 1000
      else if attempts == 2 then 1000 <= delay < 2000
      else if attempts == 3 then 2000 <= delay < 4000
      else if attempts == 4 then 4000 <= delay < 8000
      else 5000 <= delay < 10_000
    ensures attempts >= 5 ==> Doubled(attempts) >= 16_000
  {
    assert Doubled(0) == 500 && Doubled(1) == 1000 && Doubled(2) == 2000 && Doubled(3) == 4000 && Doubled(4) == 8000;
    if attempts >= 5 {
      if attempts > 5 {
        WaitsAre(attempts - 1, delay);
      } else {
        assert Doubled(5) == 16_000;
      }
    }
  }
}
