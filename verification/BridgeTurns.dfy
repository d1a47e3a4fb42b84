/** What single turns do to the backoff, the handlers and the connection, stated outright. */
module BridgeTurns {
  import opened Common
  import opened Options
  import opened Outbound
  import opened BridgeState
  import opened BridgeRuns
  import In = Inbound

  // ---------------------------------------------------------------- backoff

  /** A delay that starts at `base` and doubles `n` times, never beyond `cap`. */
  function Doubled(base: int, cap: int, n: nat): int {
    if n == 0 then Min(base, cap) else Min(2 * Doubled(base, cap, n - 1), cap)
  }

  lemma {:induction false} DelayDoubles(cfg: Config, n: nat)
    ensures Delay(cfg, n) == Doubled(cfg.baseDelayMs, cfg.maxDelayMs, n)
  {
    if n == 0 {
      assert Pow2(0) == 1;
    } else {
      DelayDoubles(cfg, n - 1);
      Twice(cfg.baseDelayMs, Pow2(n - 1), cfg.maxDelayMs);
    }
  }

  lemma Twice(base: nat, p: nat, cap: nat)
    ensures Min(base * (2 * p), cap) == Min(2 * Min(base * p, cap), cap)
  {
    assert base * (2 * p) == 2 * (base * p);
  }

  /** A connected bridge has no failure behind it and no reconnect ahead. */
  ghost predicate Fresh(l: Link) { l.connected ==> l.reconnectAttempt == 0 && l.reconnectTimer == None }

  lemma CallTurnLink(cfg: Config, s: State, e: Event)
    requires SysInv(cfg, s) && Linked(s.out) && Enabled(s, e) && CallTurn(e)
    ensures
      var l, l' := s.link, Turn(cfg, s, e).link;
      l'.reconnectAttempt == l.reconnectAttempt && l'.reconnectTimer == l.reconnectTimer && l'.connected == l.connected
  {
    CallTurnKeeps(cfg, s, e);
  }

  lemma TurnFresh(cfg: Config, s: State, e: Event)
    requires SysInv(cfg, s) && Linked(s.out) && Enabled(s, e) && Fresh(s.link)
    ensures Fresh(Turn(cfg, s, e).link)
  {
    if CallTurn(e) {
      CallTurnLink(cfg, s, e);
    } else {
      assert LinkInv(cfg, s.link, s.now);
    }
  }

  lemma {:induction false} RunFresh(cfg: Config, s: State, ts: seq<Timed>)
    requires SysInv(cfg, s) && Fresh(s.link) && LegalRun(cfg, s, ts)
    ensures Fresh(Run(cfg, s, ts).link)
    decreases |ts|
  {
    if ts != [] {
      WaitKeeps(cfg, s, ts[0].at);
      TurnFresh(cfg, s.(now := ts[0].at), ts[0].event);
      StepKeeps(cfg, s, ts[0]);
      RunFresh(cfg, Step(cfg, s, ts[0]), ts[1..]);
    }
  }

  lemma ReachableFresh(cfg: Config, s: State)
    requires Reachable(cfg, s)
    ensures SysInv(cfg, s) && Fresh(s.link)
  {
    var t, ts :| LegalRun(cfg, Initial(t), ts) && Run(cfg, Initial(t), ts) == s;
    InitialKeeps(cfg, t);
    RunKeeps(cfg, Initial(t), ts);
    RunFresh(cfg, Initial(t), ts);
  }

  /** The reconnect timer, armed for the `n`-th time since the connection was lost. */
  predicate Armed(cfg: Config, l: Link, at: int, n: nat) {
    l.reconnectTimer == Some(at + Doubled(cfg.baseDelayMs, cfg.maxDelayMs, n)) && l.reconnectAttempt == n + 1
  }

  /** What the turn of `e` does to the reconnect timer and the count behind it. */
  predicate Paced(cfg: Config, l: Link, e: Event, at: int, l': Link) {
    match e
    case TransportCloses =>
      if cfg.reconnect && !l.closedByUs then Armed(cfg, l', at, 0)
      else l'.reconnectTimer == None && l'.reconnectAttempt == 0
    case ConnectFails =>
      if l.closedByUs then l'.reconnectTimer == None && l'.reconnectAttempt == l.reconnectAttempt
      else Armed(cfg, l', at, l.reconnectAttempt)
    case ConnectSucceeds(_) => l'.reconnectTimer == None && l'.reconnectAttempt == 0
    case CloseCalled => l'.reconnectTimer == None && l'.reconnectAttempt == l.reconnectAttempt
    case ReconnectTimer =>
      && l'.reconnectTimer == None && l'.reconnectAttempt == l.reconnectAttempt
      && l'.connecting == !l.closedByUs && l'.connects == l.connects + (if l.closedByUs then 0 else 1)
    case _ => l'.reconnectTimer == l.reconnectTimer && l'.reconnectAttempt == l.reconnectAttempt
  }

  lemma DropPaced(cfg: Config, s: State)
    requires Linked(s.out) && s.link.connected && Fresh(s.link)
    ensures Paced(cfg, s.link, TransportCloses, s.now, OnTransportClose(cfg, s).link)
  {
    DelayDoubles(cfg, 0);
  }

  lemma FailurePaced(cfg: Config, s: State)
    requires LinkInv(cfg, s.link, s.now) && s.link.connecting
    ensures Paced(cfg, s.link, ConnectFails, s.now, OnConnectFailure(cfg, s).link)
  {
    DelayDoubles(cfg, s.link.reconnectAttempt);
  }

  lemma SuccessPaced(cfg: Config, s: State, names: seq<string>)
    requires LinkInv(cfg, s.link, s.now) && s.link.connecting && Linked(s.out)
    ensures Paced(cfg, s.link, ConnectSucceeds(names), s.now, OnConnectSuccess(s, names).link)
  {
  }

  lemma TurnPaced(cfg: Config, s: State, e: Event)
    requires SysInv(cfg, s) && Fresh(s.link) && Linked(s.out) && Enabled(s, e)
    ensures Paced(cfg, s.link, e, s.now, Turn(cfg, s, e).link)
  {
    match e
    case TransportCloses => DropPaced(cfg, s);
    case ConnectFails => FailurePaced(cfg, s);
    case ConnectSucceeds(names) => SuccessPaced(cfg, s, names);
    case _ => if CallTurn(e) { CallTurnLink(cfg, s, e); }
  }

  /**
    In every run a drop schedules a reconnect after the base delay, unless reconnecting is off or close() has
    begun, and each attempt that fails schedules the next after twice the delay before it, up to the cap.
    Success starts the delays over, close() cancels the timer, and nothing else moves it but its own firing,
    which starts one attempt unless close() has begun.
   */
  lemma BackoffHow(cfg: Config, s: State, at: int, e: Event)
    requires Reachable(cfg, s) && Legal(s, Timed(at, e))
    ensures Paced(cfg, s.link, e, at, Step(cfg, s, Timed(at, e)).link)
  {
    ReachableFresh(cfg, s);
    WaitKeeps(cfg, s, at);
    TurnPaced(cfg, s.(now := at), e);
  }

  // ---------------------------------------------------------------- handlers

  /** The registration that response `id` acknowledges, if it is a provider's. */
  predicate Acknowledges(s: State, e: Event, name: string, handler: nat) {
    && e.ResponseArrives? && e.ok && e.id in s.out.pending && s.out.pending[e.id] < |s.out.attempts|
    && s.out.attempts[s.out.pending[e.id]].call < |s.out.calls|
    && s.out.calls[s.out.attempts[s.out.pending[e.id]].call].kind == Provide(name, handler)
  }

  lemma NextNameProviders(s: State, queue: seq<string>, acked: bool)
    requires Linked(s.out)
    ensures NextName(s, queue, acked).reg.providers == s.reg.providers
  {
  }

  /**
    The handler of a name is the one last given for it: a name provided again swaps its handler at once and
    makes no call; a new name calls the router and takes effect when that is acknowledged; nothing else
    changes any handler.
   */
  lemma ProvidersHow(cfg: Config, s: State, e: Event, name: string)
    requires Linked(s.out) && Enabled(s, e)
    ensures
      var before, after := HandlerOf(s.reg, name), HandlerOf(Turn(cfg, s, e).reg, name);
      && (e.ProvideCalled? && e.name == name && before.Some? ==>
            after == Some(e.handler) && Turn(cfg, s, e).out == s.out)
      && (forall h: nat :: Acknowledges(s, e, name, h) ==> after == Some(h))
      && (!(e.ProvideCalled? && e.name == name && before.Some?) && !(exists h: nat :: Acknowledges(s, e, name, h)) ==>
            after == before)
    ensures
      e.ProvideCalled? && e.name !in s.reg.providers ==>
        var o' := Turn(cfg, s, e).out;
        |o'.calls| == |s.out.calls| + 1 && o'.calls[|s.out.calls|].kind == Provide(e.name, e.handler)
  {
    if e.ResponseArrives? && e.id in s.out.pending {
      var kind := s.out.calls[s.out.attempts[s.out.pending[e.id]].call].kind;
      if kind.Provide? && e.ok { assert Acknowledges(s, e, kind.name, kind.handler); }
    }
  }

  /** A first subscription to a name stores it, and calls the router unless the name has a provider. */
  lemma SubscribeHow(cfg: Config, s: State, name: string)
    requires Linked(s.out)
    ensures
      var s', n := Turn(cfg, s, OnNotifyCalled(name)), |s.out.calls|;
      && s'.reg.notify == s.reg.notify + {name} && s'.reg.providers == s.reg.providers
      && (if name in s.reg.notify || name in s.reg.providers then s'.out == s.out
          else |s'.out.calls| == n + 1 && s'.out.calls[n].kind == Subscribe(name))
  {
  }

  /** A request runs the handler then stored for its name, and is in flight under that name; or is answered at once. */
  lemma RequestHow(cfg: Config, s: State, msgid: nat, name: string)
    requires Linked(s.out)
    ensures
      var i, i' := s.inb, Turn(cfg, s, RequestArrives(msgid, name)).inb;
      && i'.received == i.received + multiset{In.Key(s.Epoch(), msgid)}
      && (name in s.reg.providers ==>
            && i'.tasks == i.tasks + [In.Task(msgid, s.reg.providers[name], false)]
            && i'.inFlight == i.inFlight[msgid := name] && i'.responded == i.responded)
      && (name !in s.reg.providers ==>
            && i'.tasks == i.tasks && i'.inFlight == i.inFlight
            && i'.responded == i.responded
                 + (if s.link.writable then multiset{In.Key(s.Epoch(), msgid)} else multiset{}))
  {
  }

  /** What the router does with a REQUEST it reads: it registers a name, or forgets them all. */
  lemma RouterHow(cfg: Config, s: State, a: nat)
    requires Linked(s.out) && a < |s.out.attempts|
    ensures
      var kind, s' := s.out.calls[s.out.attempts[a].call].kind, Turn(cfg, s, RouterHandles(a));
      && s' == s.(reg := s.reg.(routed := s'.reg.routed))
      && s'.reg.routed == if Registers(kind) then s.reg.routed + {kind.name}
                          else if kind.Reset? then {} else s.reg.routed
  {
  }

  // ---------------------------------------------------------------- the end

  /**
    close() while connected drains and sends `$/reset`; the socket is ended when that call is answered or
    times out. While disconnected there is nothing to send.
   */
  lemma CloseHow(cfg: Config, s: State)
    requires Linked(s.out)
    ensures
      var s', n := Turn(cfg, s, CloseCalled), |s.out.calls|;
      && s'.link.closedByUs && s'.inb.inFlight == (if s.link.connected then map[] else s.inb.inFlight)
      && (if s.link.connected then
            && |s'.out.calls| == n + 1 && s'.out.calls[n].kind == Reset && s'.out.calls[n].phase.InFlight?
            && s'.link.writable == s.link.writable
          else s'.out == s.out && !s'.link.writable)
  {
  }

  lemma ResetEnds(cfg: Config, s: State, e: Event, c: nat)
    requires Linked(s.out) && Enabled(s, e) && c < |s.out.calls| && s.out.calls[c].kind == Reset
    requires
      || (e.ResponseArrives? && e.id in s.out.pending && s.out.attempts[s.out.pending[e.id]].call == c)
      || (e.AttemptTimer? && s.out.attempts[e.attempt].call == c)
    ensures !Turn(cfg, s, e).link.writable
  {
  }
}
