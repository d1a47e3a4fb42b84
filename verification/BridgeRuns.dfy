/** What every run of the bridge keeps: settlement, bounded replay, deadlines and inbound conservation. */
module BridgeRuns {
  import opened Common
  import opened Options
  import opened Outbound
  import opened BridgeState
  import In = Inbound

  // ---------------------------------------------------------------- the invariant

  ghost predicate OutInv(s: State) {
    && Inv(s.out, [], s.link.connected, s.Epoch(), s.now)
    && (!s.link.connected ==> s.out.pending == map[])
  }

  /** The least backoff delay. */
  function Gap(cfg: Config): int { Min(cfg.baseDelayMs, cfg.maxDelayMs) }

  /** Connections alternate with backoff delays of at least `Gap`; no timer survives close(). */
  ghost predicate LinkInv(cfg: Config, l: Link, now: int) {
    && |l.opens| >= 1 && |l.closes| == (if l.connected then |l.opens| - 1 else |l.opens|)
    && (forall e :: 0 <= e < |l.closes| ==> l.opens[e] <= l.closes[e] <= now)
    && (forall e :: 0 <= e < |l.closes| ==> e + 1 < |l.opens| ==> l.closes[e] + Gap(cfg) <= l.opens[e + 1])
    && (forall e :: 0 <= e < |l.opens| ==> l.opens[e] <= now)
    && (l.writable ==> l.connected)
    && (l.connected ==> !l.connecting && l.reconnectTimer == None)
    && (l.reconnectTimer.Some? ==>
          && !l.connecting && !l.closedByUs && now <= l.reconnectTimer.value
          && l.closes[|l.closes| - 1] + Gap(cfg) <= l.reconnectTimer.value)
    && (l.connecting ==> l.closes[|l.closes| - 1] + Gap(cfg) <= now)
  }

  /** Every attempt was sent while its connection was up. */
  ghost predicate Spaced(o: Out, l: Link) {
    forall a :: 0 <= a < |o.attempts| ==> OnConnection(o.attempts[a], l)
  }

  predicate OnConnection(t: Attempt, l: Link) {
    t.epoch < |l.opens| && l.opens[t.epoch] <= t.sentAt && (t.epoch < |l.closes| ==> t.sentAt <= l.closes[t.epoch])
  }

  ghost predicate InInv(s: State) {
    In.Conserved(s.inb, s.Epoch(), s.link.writable) && (!s.link.connected ==> s.inb.inFlight == map[])
  }

  ghost predicate SysInv(cfg: Config, s: State) {
    && OutInv(s) && LinkInv(cfg, s.link, s.now) && Spaced(s.out, s.link) && InInv(s)
  }

  // ---------------------------------------------------------------- continuations

  /** A continuation settles and starts calls and moves registrations, but leaves the connection alone. */
  ghost predicate Within(s: State, s': State) {
    && OutInv(s') && Grows(s.out, s'.out, s.link.connected, s.Epoch(), s.now)
    && s'.now == s.now && s'.inb == s.inb
    && (s'.link == s.link || s'.link == s.link.(writable := false))
  }

  lemma StartCallWithin(s: State, kind: Kind, timeoutMs: int, idempotent: bool)
    requires OutInv(s)
    ensures Within(s, StartCall(s, kind, timeoutMs, idempotent))
  {
    StartKeeps(s.out, kind, timeoutMs, idempotent, s.link.connected, s.Epoch(), s.now);
    if !s.link.connected {
      assert StartCall(s, kind, timeoutMs, idempotent).out.pending == map[];
    }
  }

  lemma EmitWithin(s: State)
    requires OutInv(s)
    ensures Linked(s.out) && Within(s, EmitReconnect(s))
  {
    EmitKeeps(s.out, s.link.connected, s.Epoch(), s.now);
    if !s.link.connected {
      assert EmitReconnect(s).out.pending == map[];
    }
  }

  lemma NextNameWithin(s: State, queue: seq<string>, acked: bool)
    requires OutInv(s)
    ensures Linked(s.out) && Within(s, NextName(s, queue, acked))
  {
    SoundLinked(s.out);
    if queue == [] {
      EmitWithin(s.(reg := s.reg.(replay := None, synced := acked)));
    } else {
      SendNextWithin(s, queue, acked);
    }
  }

  lemma SendNextWithin(s: State, queue: seq<string>, acked: bool)
    requires OutInv(s) && Linked(s.out) && queue != []
    ensures Within(s, NextName(s, queue, acked))
  {
    var reg := s.reg.(replay := Some(Replaying(queue[1..], |s.out.calls|, acked)), sent := s.reg.sent + [queue[0]]);
    StartCallWithin(s.(reg := reg), Replay(queue[0]), DEFAULT_TIMEOUT_MS, false);
  }

  lemma ContinueWithin(s: State, kind: Kind, ok: bool)
    requires OutInv(s)
    ensures Linked(s.out) && Within(s, Continue(s, kind, ok))
  {
    SoundLinked(s.out);
    GrowsSelf(s.out, s.link.connected, s.Epoch(), s.now);
    if kind.Replay? && s.reg.replay.Some? {
      NextNameWithin(s, s.reg.replay.value.queue, s.reg.replay.value.acked && ok);
    }
  }

  lemma WithinTrans(s: State, s1: State, s2: State)
    requires Within(s, s1) && s1.link == s.link && Within(s1, s2)
    ensures Within(s, s2)
  {
    GrowsTrans(s.out, s1.out, s2.out, s.link.connected, s.Epoch(), s.now);
  }

  lemma ResponseWithin(s: State, id: nat, ok: bool)
    requires OutInv(s)
    ensures Linked(s.out) && Within(s, OnResponse(s, id, ok))
  {
    RespondKeeps(s.out, id, ok, s.link.connected, s.Epoch(), s.now);
    if id in s.out.pending {
      var kind := s.out.calls[s.out.attempts[s.out.pending[id]].call].kind;
      var s1 := s.(out := Respond(s.out, id, ok, s.now));
      ContinueWithin(s1, kind, ok);
      WithinTrans(s, s1, OnResponse(s, id, ok));
    } else {
      GrowsSelf(s.out, s.link.connected, s.Epoch(), s.now);
    }
  }

  lemma TimerWithin(s: State, a: nat)
    requires OutInv(s) && a < |s.out.attempts| && s.out.attempts[a].cause == None
    ensures Linked(s.out) && Within(s, OnAttemptTimer(s, a))
  {
    SoundLinked(s.out);
    var kind := s.out.calls[s.out.attempts[a].call].kind;
    var s1 := s.(out := Expire(s.out, a, s.now));
    SettleKeeps(s.out, a, ByTimer, TimedOut, s.link.connected, s.Epoch(), s.now);
    ContinueWithin(s1, kind, false);
    WithinTrans(s, s1, OnAttemptTimer(s, a));
  }

  lemma BudgetWithin(s: State, c: nat)
    requires OutInv(s) && c < |s.out.calls| && s.out.calls[c].phase.Waiting?
    ensures Within(s, s.(out := GiveUp(s.out, c, s.now)))
  {
    GiveUpKeeps(s.out, c, s.link.connected, s.Epoch(), s.now);
  }

  lemma ProvideWithin(s: State, name: string, handler: nat)
    requires OutInv(s)
    ensures Within(s, OnProvide(s, name, handler))
  {
    GrowsSelf(s.out, s.link.connected, s.Epoch(), s.now);
    StartCallWithin(s, Provide(name, handler), DEFAULT_TIMEOUT_MS, false);
  }

  lemma SubscribeWithin(s: State, name: string)
    requires OutInv(s)
    ensures Within(s, OnSubscribe(s, name))
  {
    var s1 := s.(reg := s.reg.(notify := s.reg.notify + {name}));
    GrowsSelf(s.out, s.link.connected, s.Epoch(), s.now);
    if name !in s.reg.notify && name !in s.reg.providers {
      StartCallWithin(s1, Subscribe(name), DEFAULT_TIMEOUT_MS, false);
      assert Within(s1, OnSubscribe(s, name));
    }
  }

  /** Turns that leave the connection alone keep the whole invariant. */
  lemma WithinKeeps(cfg: Config, s: State, s': State)
    requires SysInv(cfg, s) && Within(s, s')
    ensures SysInv(cfg, s')
  {
    WithinLink(cfg, s, s');
    GrowsSpaced(s.out, s'.out, s.link, s.link.connected, s.Epoch(), s.now);
    In.SocketDown(s.inb, s.Epoch(), s.link.writable);
  }

  lemma WithinLink(cfg: Config, s: State, s': State)
    requires LinkInv(cfg, s.link, s.now) && Within(s, s')
    ensures LinkInv(cfg, s'.link, s'.now) && s'.Epoch() == s.Epoch()
  {
  }

  lemma GrowsSpaced(o: Out, o': Out, l: Link, up: bool, epoch: nat, now: int)
    requires Spaced(o, l) && Grows(o, o', up, epoch, now)
    requires up ==> |l.closes| <= epoch < |l.opens| && l.opens[epoch] <= now
    ensures Spaced(o', l)
  {
    forall a | 0 <= a < |o'.attempts| ensures OnConnection(o'.attempts[a], l) {
      if a < |o.attempts| {
        assert OnConnection(o.attempts[a], l) && SameAttempt(o.attempts[a], o'.attempts[a]);
      } else {
        assert FreshAttempt(o, o'.attempts[a], up, epoch, now);
      }
    }
  }

  // ---------------------------------------------------------------- turns that move the connection

  lemma DelayAtLeastGap(cfg: Config, n: nat)
    ensures Gap(cfg) <= Delay(cfg, n)
  {
    assert cfg.baseDelayMs * Pow2(n) >= cfg.baseDelayMs * 1;
  }

  lemma ScheduleLink(cfg: Config, l: Link, now: int)
    requires LinkInv(cfg, l, now) && !l.connected && !l.connecting
    ensures LinkInv(cfg, Schedule(cfg, l, now), now)
  {
    DelayAtLeastGap(cfg, l.reconnectAttempt);
  }

  lemma {:induction false} FailRestKeeps(o: Out, queue: seq<string>, epoch: nat, now: int)
    requires Inv(o, [], false, epoch, now)
    ensures Inv(FailRest(o, queue, epoch, now), [], false, epoch, now)
    ensures Grows(o, FailRest(o, queue, epoch, now), false, epoch, now)
    decreases |queue|
  {
    GrowsSelf(o, false, epoch, now);
    if queue != [] {
      var o1 := Start(o, Replay(queue[0]), DEFAULT_TIMEOUT_MS, false, false, epoch, now);
      StartKeeps(o, Replay(queue[0]), DEFAULT_TIMEOUT_MS, false, false, epoch, now);
      FailRestKeeps(o1, queue[1..], epoch, now);
      GrowsTrans(o, o1, FailRest(o, queue, epoch, now), false, epoch, now);
    }
  }

  lemma CloseOut(cfg: Config, s: State)
    requires OutInv(s) && s.link.connected
    ensures
      && Linked(s.out)
      && var o' := OnTransportClose(cfg, s).out;
      && Inv(o', [], false, s.Epoch(), s.now) && o'.pending == map[]
      && Grows(s.out, o', false, s.Epoch(), s.now)
  {
    SoundLinked(s.out);
    GoDown(s.out, s.Epoch(), s.now);
    var dropped := DropFrom(s.out, 0, s.now);
    DropFromKeeps(s.out, 0, s.Epoch(), s.now);
    DropFromEmpties(s.out, 0, s.Epoch(), s.now);
    if s.reg.replay.Some? {
      var failed := FailRest(dropped, s.reg.replay.value.queue, s.Epoch(), s.now);
      FailRestKeeps(dropped, s.reg.replay.value.queue, s.Epoch(), s.now);
      GrowsTrans(s.out, dropped, failed, false, s.Epoch(), s.now);
      EmitKeeps(failed, false, s.Epoch(), s.now);
      GrowsTrans(s.out, failed, OnTransportClose(cfg, s).out, false, s.Epoch(), s.now);
    }
  }

  lemma CloseKeeps(cfg: Config, s: State)
    requires SysInv(cfg, s) && s.link.connected
    ensures Linked(s.out) && SysInv(cfg, OnTransportClose(cfg, s))
  {
    CloseOut(cfg, s);
    CloseLink(cfg, s);
    var s' := OnTransportClose(cfg, s);
    CloseSpaced(s.out, s.link, s'.link, s.now);
    GrowsSpaced(s.out, s'.out, s'.link, false, s.Epoch(), s.now);
    In.SocketDown(s.inb, s.Epoch(), s.link.writable);
  }

  lemma CloseLink(cfg: Config, s: State)
    requires LinkInv(cfg, s.link, s.now) && s.link.connected && Linked(s.out)
    ensures
      var l := OnTransportClose(cfg, s).link;
      && LinkInv(cfg, l, s.now) && !l.connected && !l.writable
      && l.opens == s.link.opens && l.closes == s.link.closes + [s.now]
  {
    var down := s.link.(connected := false, writable := false, closes := s.link.closes + [s.now]);
    assert LinkInv(cfg, down, s.now);
    ScheduleLink(cfg, down, s.now);
  }

  lemma CloseSpaced(o: Out, l: Link, l': Link, now: int)
    requires Indexed(o) && Timely(o, now) && Spaced(o, l)
    requires l'.opens == l.opens && l'.closes == l.closes + [now]
    ensures Spaced(o, l')
  {
    forall a | 0 <= a < |o.attempts| ensures OnConnection(o.attempts[a], l') {
      assert OnConnection(o.attempts[a], l) && AttemptTimely(o.attempts[a], o.calls[o.attempts[a].call], now);
    }
  }

  lemma ConnectKeeps(cfg: Config, s: State, names: seq<string>)
    requires SysInv(cfg, s) && s.link.connecting
    ensures Linked(s.out) && SysInv(cfg, OnConnectSuccess(s, names))
  {
    SoundLinked(s.out);
    var l := s.link.(connecting := false, connected := true, writable := true, reconnectAttempt := 0,
                     opens := s.link.opens + [s.now]);
    var s1 := s.(link := l, reg := s.reg.(sent := [], snapshot := names));
    ComeUp(s.out, s.Epoch(), s.now);
    assert LinkInv(cfg, l, s.now);
    assert Spaced(s.out, l) by {
      forall a | 0 <= a < |s.out.attempts| ensures OnConnection(s.out.attempts[a], l) {
        assert OnConnection(s.out.attempts[a], s.link);
      }
    }
    In.NewConnection(s.inb, s.Epoch());
    assert SysInv(cfg, s1);
    NextNameWithin(s1, names, true);
    WithinKeeps(cfg, s1, OnConnectSuccess(s, names));
  }

  lemma OurCloseKeeps(cfg: Config, s: State)
    requires SysInv(cfg, s)
    ensures SysInv(cfg, OnClose(s))
  {
    if s.link.connected {
      DrainKeeps(cfg, s);
      var s1 := s.(link := OnClose(s).link, inb := OnClose(s).inb);
      StartCallWithin(s1, Reset, RESET_TIMEOUT_MS, false);
      WithinKeeps(cfg, s1, OnClose(s));
    } else {
      SameConnections(s.out, s.link, OnClose(s).link);
      In.SocketDown(s.inb, s.Epoch(), s.link.writable);
    }
  }

  lemma SameConnections(o: Out, l: Link, l': Link)
    requires Spaced(o, l) && l'.opens == l.opens && l'.closes == l.closes
    ensures Spaced(o, l')
  {
    assert forall a :: 0 <= a < |o.attempts| ==> OnConnection(o.attempts[a], l) == OnConnection(o.attempts[a], l');
  }

  lemma DrainKeeps(cfg: Config, s: State)
    requires SysInv(cfg, s) && s.link.connected
    ensures SysInv(cfg, s.(link := OnClose(s).link, inb := OnClose(s).inb))
  {
    In.DrainConserves(s.inb, s.Epoch(), s.link.writable);
    SameConnections(s.out, s.link, OnClose(s).link);
  }

  // ---------------------------------------------------------------- every turn, every run

  lemma SameLinkKeeps(cfg: Config, s: State, l: Link)
    requires SysInv(cfg, s) && LinkInv(cfg, l, s.now)
    requires l.opens == s.link.opens && l.closes == s.link.closes && l.connected == s.link.connected
    requires l.writable ==> s.link.writable
    ensures SysInv(cfg, s.(link := l))
  {
    assert forall a :: 0 <= a < |s.out.attempts| ==>
      OnConnection(s.out.attempts[a], s.link) == OnConnection(s.out.attempts[a], l);
    In.SocketDown(s.inb, s.Epoch(), s.link.writable);
  }

  lemma InboundKeeps(cfg: Config, s: State, e: Event)
    requires SysInv(cfg, s) && (e.RequestArrives? || e.HandlerSettles?)
    requires Linked(s.out) && Enabled(s, e)
    ensures SysInv(cfg, Turn(cfg, s, e))
  {
    match e
    case RequestArrives(msgid, name) =>
      In.ReceiveConserves(s.inb, msgid, name, HandlerOf(s.reg, name), s.Epoch(), s.link.writable);
    case HandlerSettles(t) =>
      In.FinishConserves(s.inb, t, s.Epoch(), s.link.writable);
  }

  lemma ConnectFailureKeeps(cfg: Config, s: State)
    requires SysInv(cfg, s) && s.link.connecting
    ensures SysInv(cfg, OnConnectFailure(cfg, s))
  {
    var l := s.link.(connecting := false);
    if !l.closedByUs { ScheduleLink(cfg, l, s.now); }
    SameLinkKeeps(cfg, s, OnConnectFailure(cfg, s).link);
  }

  lemma RouterKeeps(cfg: Config, s: State, a: nat)
    requires SysInv(cfg, s) && Linked(s.out) && a < |s.out.attempts|
    ensures OnRouter(s, a) == s.(reg := OnRouter(s, a).reg) && SysInv(cfg, OnRouter(s, a))
  {
  }

  lemma CallTurnKeeps(cfg: Config, s: State, e: Event)
    requires SysInv(cfg, s) && Linked(s.out) && Enabled(s, e)
    requires CallTurn(e)
    ensures Within(s, Turn(cfg, s, e))
  {
    match e
    case CallStarts(timeoutMs, idempotent) => StartCallWithin(s, User, timeoutMs, idempotent);
    case ProvideCalled(name, handler) => ProvideWithin(s, name, handler);
    case OnNotifyCalled(name) => SubscribeWithin(s, name);
    case ResponseArrives(id, ok) => ResponseWithin(s, id, ok);
    case AttemptTimer(a) => TimerWithin(s, a);
    case BudgetTimer(c) => BudgetWithin(s, c);
  }

  lemma ConnectionTurnKeeps(cfg: Config, s: State, e: Event)
    requires SysInv(cfg, s) && Linked(s.out) && Enabled(s, e) &&
      (e.TransportCloses? || e.ConnectSucceeds? || e.CloseCalled?)
    ensures SysInv(cfg, Turn(cfg, s, e))
  {
    match e
    case TransportCloses => CloseKeeps(cfg, s);
    case ConnectSucceeds(names) => ConnectKeeps(cfg, s, names);
    case CloseCalled => OurCloseKeeps(cfg, s);
  }

  lemma LinkTurnKeeps(cfg: Config, s: State, e: Event)
    requires SysInv(cfg, s) && Linked(s.out) && Enabled(s, e) &&
      (e.SocketFails? || e.ReconnectTimer? || e.ConnectFails?)
    ensures SysInv(cfg, Turn(cfg, s, e))
  {
    match e
    case SocketFails => SameLinkKeeps(cfg, s, s.link.(writable := false));
    case ReconnectTimer => ReconnectKeeps(cfg, s);
    case ConnectFails => ConnectFailureKeeps(cfg, s);
  }

  lemma ReconnectKeeps(cfg: Config, s: State)
    requires SysInv(cfg, s) && s.link.reconnectTimer == Some(s.now)
    ensures SysInv(cfg, OnReconnectTimer(s))
  {
    assert LinkInv(cfg, OnReconnectTimer(s).link, s.now);
    SameLinkKeeps(cfg, s, OnReconnectTimer(s).link);
  }

  lemma TurnKeeps(cfg: Config, s: State, e: Event)
    requires SysInv(cfg, s) && Linked(s.out) && Enabled(s, e)
    ensures SysInv(cfg, Turn(cfg, s, e))
  {
    if e.TransportCloses? || e.ConnectSucceeds? || e.CloseCalled? {
      ConnectionTurnKeeps(cfg, s, e);
    } else if e.SocketFails? || e.ReconnectTimer? || e.ConnectFails? {
      LinkTurnKeeps(cfg, s, e);
    } else if e.RequestArrives? || e.HandlerSettles? {
      InboundKeeps(cfg, s, e);
    } else if e.RouterHandles? {
      RouterKeeps(cfg, s, e.attempt);
    } else {
      CallTurnKeeps(cfg, s, e);
      WithinKeeps(cfg, s, Turn(cfg, s, e));
    }
  }

  lemma WaitKeeps(cfg: Config, s: State, at: int)
    requires SysInv(cfg, s) && MayWaitUntil(s, at)
    ensures SysInv(cfg, s.(now := at))
  {
    TimePasses(s.out, s.link.connected, s.Epoch(), s.now, at);
  }

  lemma StepKeeps(cfg: Config, s: State, t: Timed)
    requires SysInv(cfg, s) && Legal(s, t)
    ensures SysInv(cfg, Step(cfg, s, t))
  {
    WaitKeeps(cfg, s, t.at);
    TurnKeeps(cfg, s.(now := t.at), t.event);
  }

  ghost predicate LegalRun(cfg: Config, s: State, ts: seq<Timed>)
    decreases |ts|
  {
    ts == [] || (Legal(s, ts[0]) && LegalRun(cfg, Step(cfg, s, ts[0]), ts[1..]))
  }

  ghost function Run(cfg: Config, s: State, ts: seq<Timed>): State
    requires LegalRun(cfg, s, ts)
    decreases |ts|
  {
    if ts == [] then s else Run(cfg, Step(cfg, s, ts[0]), ts[1..])
  }

  lemma InitialKeeps(cfg: Config, t: int)
    ensures SysInv(cfg, Initial(t))
  {
    var s := Initial(t);
    InitialOut(t);
    forall k: In.Key ensures In.KeyConserved(s.inb, k, 0, true) {}
  }

  lemma InitialOut(t: int)
    ensures OutInv(Initial(t))
  {
    assert Initial(t).out.waiting + [] == [];
  }

  lemma {:induction false} RunKeeps(cfg: Config, s: State, ts: seq<Timed>)
    requires SysInv(cfg, s) && LegalRun(cfg, s, ts)
    ensures SysInv(cfg, Run(cfg, s, ts))
    decreases |ts|
  {
    if ts != [] {
      StepKeeps(cfg, s, ts[0]);
      RunKeeps(cfg, Step(cfg, s, ts[0]), ts[1..]);
    }
  }

  /** A state some legal run from a fresh connection ends in. */
  ghost predicate Reachable(cfg: Config, s: State) {
    exists t, ts :: LegalRun(cfg, Initial(t), ts) && Run(cfg, Initial(t), ts) == s
  }

  lemma ReachableKeeps(cfg: Config, s: State)
    requires Reachable(cfg, s)
    ensures SysInv(cfg, s)
  {
    var t, ts :| LegalRun(cfg, Initial(t), ts) && Run(cfg, Initial(t), ts) == s;
    InitialKeeps(cfg, t);
    RunKeeps(cfg, Initial(t), ts);
  }
}
