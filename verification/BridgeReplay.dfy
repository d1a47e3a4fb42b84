/** What a replay puts on the wire, and why a provider the bridge knows is one the router routes. */
module BridgeReplay {
  import opened Common
  import opened Options
  import opened Outbound
  import opened BridgeState
  import opened BridgeRuns
  import opened BridgeSettlement
  import opened BridgeNames
  import opened BridgeRegistration

  // ---------------------------------------------------------------- what is on the wire

  /** The names reRegister sent among the first `n` REQUESTs that went out on connection `e`, in order. */
  function Replayed(o: Out, e: nat, n: nat): seq<string>
    requires Indexed(o) && n <= |o.attempts|
  {
    if n == 0 then []
    else
      var t := o.attempts[n - 1];
      var kind := o.calls[t.call].kind;
      Replayed(o, e, n - 1) + (if t.epoch == e && kind.Replay? then [kind.name] else [])
  }

  /** The replay REQUESTs on the live connection are exactly those reRegister has sent. */
  ghost predicate WireInv(s: State) {
    Indexed(s.out) && (s.link.connected ==> Replayed(s.out, s.Epoch(), |s.out.attempts|) == s.reg.sent)
  }

  /** `o'` adds to `o` no REQUEST that reRegister sent. */
  ghost predicate AddsNoReplay(o: Out, o': Out) {
    && Indexed(o) && Indexed(o') && |o.attempts| <= |o'.attempts| && |o.calls| <= |o'.calls|
    && (forall a :: 0 <= a < |o.attempts| ==>
          o'.attempts[a].call == o.attempts[a].call && o'.attempts[a].epoch == o.attempts[a].epoch)
    && (forall c :: 0 <= c < |o.calls| ==> o'.calls[c].kind == o.calls[c].kind)
    && (forall a :: |o.attempts| <= a < |o'.attempts| ==> !o'.calls[o'.attempts[a].call].kind.Replay?)
  }

  lemma {:induction false} ReplayedSame(o: Out, o': Out, e: nat, n: nat)
    requires AddsNoReplay(o, o') && n <= |o'.attempts|
    ensures Replayed(o', e, n) == Replayed(o, e, if n <= |o.attempts| then n else |o.attempts|)
  {
    if n > 0 {
      ReplayedSame(o, o', e, n - 1);
      if n > |o.attempts| { assert !o'.calls[o'.attempts[n - 1].call].kind.Replay?; }
    }
  }

  lemma {:induction false} NothingReplayed(o: Out, e: nat, n: nat)
    requires Indexed(o) && n <= |o.attempts|
    requires forall a :: 0 <= a < |o.attempts| ==> o.attempts[a].epoch != e
    ensures Replayed(o, e, n) == []
  {
    if n > 0 { NothingReplayed(o, e, n - 1); }
  }

  lemma NoReplayKeepsWire(s: State, s': State)
    requires WireInv(s) && AddsNoReplay(s.out, s'.out) && s'.reg.sent == s.reg.sent
    requires s'.link.connected ==> s.link.connected && s'.Epoch() == s.Epoch()
    ensures WireInv(s')
  {
    if s'.link.connected { ReplayedSame(s.out, s'.out, s.Epoch(), |s'.out.attempts|); }
  }

  // ---------------------------------------------------------------- continuations

  lemma StartNoReplay(o: Out, kind: Kind, timeoutMs: int, idempotent: bool, up: bool, epoch: nat, now: int)
    requires Indexed(o) && (up ==> !kind.Replay?)
    ensures AddsNoReplay(o, Start(o, kind, timeoutMs, idempotent, up, epoch, now))
  {
  }

  lemma StartWire(s: State, kind: Kind, timeoutMs: int, idempotent: bool)
    requires WireInv(s) && !kind.Replay?
    ensures WireInv(StartCall(s, kind, timeoutMs, idempotent))
  {
    StartNoReplay(s.out, kind, timeoutMs, idempotent, s.link.connected, s.Epoch(), s.now);
    NoReplayKeepsWire(s, StartCall(s, kind, timeoutMs, idempotent));
  }

  lemma {:induction false} TryAllNoReplay(o: Out, cs: seq<nat>, up: bool, epoch: nat, now: int)
    requires Indexed(o) && forall i :: 0 <= i < |cs| ==> cs[i] < |o.calls| && o.calls[cs[i]].kind.User?
    ensures AddsNoReplay(o, TryAll(o, cs, up, epoch, now))
    decreases |cs|
  {
    if cs != [] {
      var o1 := Try(o, cs[0], up, epoch, now);
      assert AddsNoReplay(o, o1);
      TryAllNoReplay(o1, cs[1..], up, epoch, now);
      AddsTrans(o, o1, TryAll(o, cs, up, epoch, now));
    }
  }

  lemma AddsTrans(o: Out, o1: Out, o2: Out)
    requires AddsNoReplay(o, o1) && AddsNoReplay(o1, o2)
    ensures AddsNoReplay(o, o2)
  {
  }

  lemma EmitNoReplay(o: Out, up: bool, epoch: nat, now: int)
    requires Sound(o, []) && Linked(o)
    requires forall c :: 0 <= c < |o.calls| && !o.calls[c].kind.User? ==> !o.calls[c].idempotent
    ensures AddsNoReplay(o, Emit(o, up, epoch, now))
  {
    forall i | 0 <= i < |o.waiting| ensures o.waiting[i] < |o.calls| && o.calls[o.waiting[i]].kind.User? {
      assert o.waiting[i] in o.waiting;
    }
    TryAllNoReplay(o.(waiting := []), o.waiting, up, epoch, now);
    AddsTrans(o, o.(waiting := []), Emit(o, up, epoch, now));
  }

  /** Sending the next name puts that name, and no other, on the wire. */
  lemma StartReplays(o: Out, name: string, epoch: nat, now: int)
    requires Indexed(o)
    ensures
      var o' := Start(o, Replay(name), DEFAULT_TIMEOUT_MS, false, true, epoch, now);
      Indexed(o') && Replayed(o', epoch, |o'.attempts|) == Replayed(o, epoch, |o.attempts|) + [name]
  {
    var o' := Start(o, Replay(name), DEFAULT_TIMEOUT_MS, false, true, epoch, now);
    var n := |o.attempts|;
    assert o'.attempts == o.attempts + [o'.attempts[n]] && o'.attempts[n].epoch == epoch;
    assert o'.calls[o'.attempts[n].call].kind == Replay(name);
    var before := o'.(attempts := o.attempts);
    ReplayedSame(o, before, epoch, n);
    ReplayedPrefix(before, o', epoch, n);
  }

  lemma {:induction false} ReplayedPrefix(o: Out, o': Out, e: nat, n: nat)
    requires Indexed(o) && Indexed(o') && o.attempts <= o'.attempts && o'.calls == o.calls && n <= |o.attempts|
    ensures Replayed(o', e, n) == Replayed(o, e, n)
  {
    if n > 0 { ReplayedPrefix(o, o', e, n - 1); }
  }

  lemma NextNameWire(s: State, queue: seq<string>, acked: bool)
    requires Sound(s.out, []) && Linked(s.out) && KindsOk(s) && s.link.connected && WireInv(s)
    ensures WireInv(NextName(s, queue, acked))
  {
    var s' := NextName(s, queue, acked);
    if queue == [] {
      EmitNoReplay(s.out, true, s.Epoch(), s.now);
      NoReplayKeepsWire(s, s');
    } else {
      StartReplays(s.out, queue[0], s.Epoch(), s.now);
    }
  }

  lemma ContinueWire(s: State, kind: Kind, ok: bool)
    requires Sound(s.out, []) && Linked(s.out) && KindsOk(s) && WireInv(s) && (s.reg.replay.Some? ==> s.link.connected)
    ensures WireInv(Continue(s, kind, ok))
  {
    if kind.Replay? && s.reg.replay.Some? {
      NextNameWire(s, s.reg.replay.value.queue, s.reg.replay.value.acked && ok);
    }
  }

  lemma SettleWire(s: State, a: nat, cause: Cause, outcome: Outcome)
    requires WireInv(s) && KindsOk(s) && a < |s.out.attempts|
    ensures
      var s1 := s.(out := Settle(s.out, a, cause, outcome, s.now));
      WireInv(s1) && KindsOk(s1)
  {
    var s1 := s.(out := Settle(s.out, a, cause, outcome, s.now));
    NoReplayKeepsWire(s, s1);
  }

  lemma ResponseWire(s: State, id: nat, ok: bool)
    requires OutInv(s) && RegInv(s) && Linked(s.out) && WireInv(s)
    ensures WireInv(OnResponse(s, id, ok))
  {
    if id in s.out.pending {
      assert PendingSound(s.out, id);
      var a := s.out.pending[id];
      RespondKeeps(s.out, id, ok, s.link.connected, s.Epoch(), s.now);
      SettleWire(s, a, ByResponse, Answered(ok));
      ContinueWire(s.(out := Respond(s.out, id, ok, s.now)), s.out.calls[s.out.attempts[a].call].kind, ok);
    }
  }

  lemma TimerWire(s: State, a: nat)
    requires OutInv(s) && RegInv(s) && Linked(s.out) && WireInv(s) && a < |s.out.attempts| &&
      s.out.attempts[a].cause == None
    ensures WireInv(OnAttemptTimer(s, a))
  {
    SettleKeeps(s.out, a, ByTimer, TimedOut, s.link.connected, s.Epoch(), s.now);
    SettleWire(s, a, ByTimer, TimedOut);
    ContinueWire(s.(out := Expire(s.out, a, s.now)), s.out.calls[s.out.attempts[a].call].kind, false);
  }

  lemma ConnectWire(cfg: Config, s: State, names: seq<string>)
    requires SysInv(cfg, s) && RegInv(s) && Linked(s.out) && WireInv(s) && s.link.connecting
    ensures WireInv(OnConnectSuccess(s, names))
  {
    var l := s.link.(connecting := false, connected := true, writable := true, reconnectAttempt := 0,
                     opens := s.link.opens + [s.now]);
    var s1 := s.(link := l, reg := s.reg.(sent := [], snapshot := names));
    NothingReplayed(s.out, s1.Epoch(), |s.out.attempts|);
    NextNameWire(s1, names, true);
  }

  // ---------------------------------------------------------------- every turn

  lemma ProvideWire(s: State, name: string, handler: nat)
    requires WireInv(s)
    ensures WireInv(OnProvide(s, name, handler))
  {
    if name !in s.reg.providers { StartWire(s, Provide(name, handler), DEFAULT_TIMEOUT_MS, false); }
  }

  lemma SubscribeWire(s: State, name: string)
    requires WireInv(s)
    ensures WireInv(OnSubscribe(s, name))
  {
    StartWire(s.(reg := s.reg.(notify := s.reg.notify + {name})), Subscribe(name), DEFAULT_TIMEOUT_MS, false);
  }

  lemma BudgetWire(s: State, c: nat)
    requires WireInv(s) && c < |s.out.calls|
    ensures WireInv(s.(out := GiveUp(s.out, c, s.now)))
  {
    NoReplayKeepsWire(s, s.(out := GiveUp(s.out, c, s.now)));
  }

  lemma CallTurnWire(cfg: Config, s: State, e: Event)
    requires OutInv(s) && RegInv(s) && Linked(s.out) && Enabled(s, e) && WireInv(s)
    requires CallTurn(e)
    ensures WireInv(Turn(cfg, s, e))
  {
    match e
    case CallStarts(timeoutMs, idempotent) => StartWire(s, User, timeoutMs, idempotent);
    case ProvideCalled(name, handler) => ProvideWire(s, name, handler);
    case OnNotifyCalled(name) => SubscribeWire(s, name);
    case ResponseArrives(id, ok) => ResponseWire(s, id, ok);
    case AttemptTimer(a) => TimerWire(s, a);
    case BudgetTimer(c) => BudgetWire(s, c);
  }

  lemma OurCloseWire(s: State)
    requires WireInv(s)
    ensures WireInv(OnClose(s))
  {
    if s.link.connected {
      StartWire(s.(link := OnClose(s).link, inb := OnClose(s).inb), Reset, RESET_TIMEOUT_MS, false);
    }
  }

  lemma CloseWire(cfg: Config, s: State)
    requires OutInv(s) && Linked(s.out) && s.link.connected
    ensures WireInv(OnTransportClose(cfg, s))
  {
    CloseOut(cfg, s);
    if cfg.reconnect && !s.link.closedByUs { ScheduleConnected(cfg, s); }
  }

  lemma QuietWire(cfg: Config, s: State, e: Event)
    requires WireInv(s) && Linked(s.out) && Enabled(s, e)
    requires QuietTurn(e) || e.RouterHandles?
    ensures WireInv(Turn(cfg, s, e))
  {
    var s' := Turn(cfg, s, e);
    assert s'.out == s.out && s'.link.connected == s.link.connected && s'.link.opens == s.link.opens &&
      s'.reg.sent == s.reg.sent;
    NoReplayKeepsWire(s, s');
  }

  lemma TurnWire(cfg: Config, s: State, e: Event)
    requires SysInv(cfg, s) && RegInv(s) && Linked(s.out) && Enabled(s, e) && WireInv(s)
    ensures WireInv(Turn(cfg, s, e))
  {
    if e.TransportCloses? {
      CloseWire(cfg, s);
    } else if e.ConnectSucceeds? {
      ConnectWire(cfg, s, e.names);
    } else if e.CloseCalled? {
      OurCloseWire(s);
    } else if QuietTurn(e) || e.RouterHandles? {
      QuietWire(cfg, s, e);
    } else {
      CallTurnWire(cfg, s, e);
    }
  }

  // ---------------------------------------------------------------- every run

  ghost predicate Registered(cfg: Config, s: State) {
    SysInv(cfg, s) && Exact(s.out) && RegInv(s) && WireInv(s)
  }

  lemma TurnRegistered(cfg: Config, s: State, e: Event)
    requires Registered(cfg, s) && Linked(s.out) && Enabled(s, e)
    ensures RegInv(Turn(cfg, s, e)) && WireInv(Turn(cfg, s, e))
  {
    TurnKeepsReg(cfg, s, e);
    TurnWire(cfg, s, e);
  }

  lemma WaitRegistered(cfg: Config, s: State, at: int)
    requires Registered(cfg, s) && MayWaitUntil(s, at)
    ensures Registered(cfg, s.(now := at))
  {
    WaitKeeps(cfg, s, at);
  }

  lemma StepRegistered(cfg: Config, s: State, t: Timed, rest: seq<Timed>)
    requires Registered(cfg, s) && Legal(s, t) && WindowedRun(cfg, Step(cfg, s, t), rest)
    ensures Registered(cfg, Step(cfg, s, t))
  {
    StepExact(cfg, s, t, rest);
    WaitRegistered(cfg, s, t.at);
    TurnRegistered(cfg, s.(now := t.at), t.event);
  }

  lemma {:induction false} RunRegistered(cfg: Config, s: State, ts: seq<Timed>)
    requires Registered(cfg, s) && WindowedRun(cfg, s, ts)
    ensures LegalRun(cfg, s, ts) && Registered(cfg, Run(cfg, s, ts))
    decreases |ts|
  {
    if ts != [] {
      StepRegistered(cfg, s, ts[0], ts[1..]);
      RunRegistered(cfg, Step(cfg, s, ts[0]), ts[1..]);
    }
  }

  lemma InitialRegistered(cfg: Config, t: int)
    ensures Registered(cfg, Initial(t))
  {
    InitialKeeps(cfg, t);
    InitialReg(t);
  }

  lemma InitialReg(t: int)
    ensures Exact(Initial(t).out) && RegInv(Initial(t)) && WireInv(Initial(t))
  {
  }

  /** Where a run from a fresh connection ends, if fewer than 2^31 ids are drawn in any one attempt's life. */
  ghost predicate WindowReachable(cfg: Config, s: State) {
    exists t, ts :: WindowedRun(cfg, Initial(t), ts) && LegalRun(cfg, Initial(t), ts) && Run(cfg, Initial(t), ts) == s
  }

  lemma WindowReachableRegistered(cfg: Config, s: State)
    requires WindowReachable(cfg, s)
    ensures Registered(cfg, s)
  {
    var t, ts :| WindowedRun(cfg, Initial(t), ts) && LegalRun(cfg, Initial(t), ts) && Run(cfg, Initial(t), ts) == s;
    InitialRegistered(cfg, t);
    RunRegistered(cfg, Initial(t), ts);
  }

  /**
    Whenever the bridge is connected, close() has not begun and the last replay finished with every name
    acknowledged, every provider and every name of that replay was acknowledged on this connection. So the
    router has them, and `provide` may skip the round trip for a name it knows.
   */
  lemma ProvidersAreRouted(cfg: Config, s: State)
    requires WindowReachable(cfg, s)
    requires s.link.connected && !s.link.closedByUs && s.reg.replay == None && s.reg.synced
    ensures Indexed(s.out)
    ensures forall name :: name in s.reg.providers || name in s.reg.snapshot ==>
      AckedOn(s.out, s.Epoch(), name) && name in s.reg.routed
  {
    WindowReachableRegistered(cfg, s);
    assert s.reg.sent + [] == s.reg.sent;
    forall name | name in s.reg.providers || name in s.reg.snapshot
      ensures AckedOn(s.out, s.Epoch(), name) && name in s.reg.routed
    {
      AcknowledgedAreRouted(cfg, s, name);
    }
  }

  // ---------------------------------------------------------------- each name once

  predicate KeepsConnection(t: Timed) { !t.event.TransportCloses? && !t.event.ConnectSucceeds? }

  /** On a connection whose replay is of `names`: each is sent once, in order, or still queued. */
  ghost predicate ReplaysOnce(s: State, names: seq<string>) {
    && s.link.connected && Indexed(s.out) && NoRepeats(names)
    && Replayed(s.out, s.Epoch(), |s.out.attempts|) + Queue(s.reg) == names
  }

  /**
    From a connect that replays `names` until that connection closes, the `$/register` REQUESTs reRegister
    has sent are the names before those still queued, in order and each once; `names` holds exactly the
    providers and notification names known at the connect.
   */
  lemma ReplaysEachNameOnce(cfg: Config, s: State, at: int, names: seq<string>, more: seq<Timed>)
    requires WindowReachable(cfg, s) && Legal(s, Timed(at, ConnectSucceeds(names)))
    requires WindowedRun(cfg, Step(cfg, s, Timed(at, ConnectSucceeds(names))), more)
    requires forall i :: 0 <= i < |more| ==> KeepsConnection(more[i])
    ensures forall name :: name in names <==> name in s.reg.providers || name in s.reg.notify
    ensures
      var s1 := Step(cfg, s, Timed(at, ConnectSucceeds(names)));
      LegalRun(cfg, s1, more) && ReplaysOnce(Run(cfg, s1, more), names)
  {
    WindowReachableRegistered(cfg, s);
    var s1 := Step(cfg, s, Timed(at, ConnectSucceeds(names)));
    StepRegistered(cfg, s, Timed(at, ConnectSucceeds(names)), more);
    ConnectSnapshot(s.(now := at), names);
    assert s1 == OnConnectSuccess(s.(now := at), names);
    LaterSnapshot(cfg, s1, names, more);
    assert Enabled(s.(now := at), ConnectSucceeds(names));
  }

  lemma LaterSnapshot(cfg: Config, s: State, names: seq<string>, more: seq<Timed>)
    requires Registered(cfg, s) && s.link.connected && s.reg.snapshot == names && WindowedRun(cfg, s, more)
    requires forall i :: 0 <= i < |more| ==> KeepsConnection(more[i])
    ensures LegalRun(cfg, s, more) && ReplaysOnce(Run(cfg, s, more), names)
  {
    RunRegistered(cfg, s, more);
    RunSnapshot(cfg, s, more);
  }

  lemma ConnectSnapshot(s: State, names: seq<string>)
    requires Linked(s.out)
    ensures OnConnectSuccess(s, names).link.connected && OnConnectSuccess(s, names).reg.snapshot == names
  {
  }

  lemma TurnSnapshot(cfg: Config, s: State, e: Event)
    requires Linked(s.out) && Enabled(s, e) && s.link.connected && !e.TransportCloses? && !e.ConnectSucceeds?
    ensures Turn(cfg, s, e).link.connected && Turn(cfg, s, e).reg.snapshot == s.reg.snapshot
  {
  }

  lemma {:induction false} RunSnapshot(cfg: Config, s: State, ts: seq<Timed>)
    requires LegalRun(cfg, s, ts) && s.link.connected
    requires forall i :: 0 <= i < |ts| ==> KeepsConnection(ts[i])
    ensures Run(cfg, s, ts).link.connected && Run(cfg, s, ts).reg.snapshot == s.reg.snapshot
    decreases |ts|
  {
    if ts != [] {
      assert KeepsConnection(ts[0]);
      TurnSnapshot(cfg, s.(now := ts[0].at), ts[0].event);
      RunSnapshot(cfg, Step(cfg, s, ts[0]), ts[1..]);
    }
  }
}
