/**
  packages/bridge/src/bridge.ts as a state machine. One step is one turn: an external event together
  with every continuation it releases. Time is in milliseconds; a timer fires exactly when it is due.
 */
module BridgeState {
  import opened Common
  import opened Options
  import opened Outbound
  import In = Inbound

  const DEFAULT_TIMEOUT_MS := 5000
  const RESET_TIMEOUT_MS := 500

  datatype Config = Config(reconnect: bool, baseDelayMs: nat, maxDelayMs: nat)

  /**
    The connection. `connected` is the bridge's flag, `writable` whether the socket still takes bytes,
    `connecting` whether doReconnect awaits transport.connect(); `opens` and `closes` log when each
    connection was established and lost, and `connects` counts reconnect attempts.
   */
  datatype Link = Link(connected: bool, writable: bool, connecting: bool, closedByUs: bool,
                       reconnectAttempt: nat, reconnectTimer: Option<int>,
                       opens: seq<int>, closes: seq<int>, connects: nat)

  /** reRegister between two awaits: names still to send, the call awaited, whether all so far succeeded. */
  datatype Replaying = Replaying(queue: seq<string>, call: nat, acked: bool)

  /**
    Registrations. `routed` is the router's table for this connection, `sent` the names replayed on it,
    `synced` whether a replay on it has finished with every name acknowledged.
   */
  datatype Reg = Reg(providers: map<string, nat>, notify: set<string>, routed: set<string>,
                     replay: Option<Replaying>, synced: bool, sent: seq<string>, snapshot: seq<string>)

  datatype State = State(now: int, link: Link, out: Out, inb: In.In, reg: Reg) {
    function Epoch(): nat { if link.opens == [] then 0 else |link.opens| - 1 }
  }

  datatype Event =
    | CallStarts(timeoutMs: int, idempotent: bool)
    | ProvideCalled(name: string, handler: nat)
    | OnNotifyCalled(name: string)
    | ResponseArrives(id: nat, ok: bool)
    | AttemptTimer(attempt: nat)
    | BudgetTimer(call: nat)
    | SocketFails
    | TransportCloses
    | ReconnectTimer
    | ConnectSucceeds(names: seq<string>)
    | ConnectFails
    | RequestArrives(msgid: nat, name: string)
    | HandlerSettles(task: nat)
    | RouterHandles(attempt: nat)
    | CloseCalled

  /** Events that settle or start calls. */
  predicate CallTurn(e: Event) {
    e.CallStarts? || e.ProvideCalled? || e.OnNotifyCalled? || e.ResponseArrives? || e.AttemptTimer? || e.BudgetTimer?
  }

  /** Events that touch neither calls nor registrations. */
  predicate QuietTurn(e: Event) {
    e.ConnectFails? || e.ReconnectTimer? || e.SocketFails? || e.RequestArrives? || e.HandlerSettles?
  }

  datatype Timed = Timed(at: int, event: Event)

  /** After `Bridge.connect` has succeeded at time `t`. */
  function Initial(t: int): State {
    State(t, Link(true, true, false, false, 0, None, [t], [], 0),
          Out([], map[], [], []), In.EMPTY, Reg(map[], {}, {}, None, true, [], []))
  }

  // ---------------------------------------------------------------- reconnect schedule

  function Delay(cfg: Config, attempt: nat): int { Min(cfg.baseDelayMs * Pow2(attempt), cfg.maxDelayMs) }

  function Schedule(cfg: Config, l: Link, now: int): Link {
    if l.reconnectTimer.Some? || l.closedByUs then l
    else l.(reconnectTimer := Some(now + Delay(cfg, l.reconnectAttempt)), reconnectAttempt := l.reconnectAttempt + 1)
  }

  // ---------------------------------------------------------------- continuations

  function StartCall(s: State, kind: Kind, timeoutMs: int, idempotent: bool): State {
    s.(out := Start(s.out, kind, timeoutMs, idempotent, s.link.connected, s.Epoch(), s.now))
  }

  function EmitReconnect(s: State): State
    requires Linked(s.out)
  {
    s.(out := Emit(s.out, s.link.connected, s.Epoch(), s.now))
  }

  /** The loop of reRegister from its next name on; past the last one, 'reconnect' is emitted. */
  function NextName(s: State, queue: seq<string>, acked: bool): State
    requires Linked(s.out)
  {
    if queue == [] then EmitReconnect(s.(reg := s.reg.(replay := None, synced := acked)))
    else
      StartCall(s.(reg := s.reg.(replay := Some(Replaying(queue[1..], |s.out.calls|, acked)),
                                 sent := s.reg.sent + [queue[0]])),
                Replay(queue[0]), DEFAULT_TIMEOUT_MS, false)
  }

  /** What the code awaiting a settled call goes on to do in the same turn. */
  function Continue(s: State, kind: Kind, ok: bool): State
    requires Linked(s.out)
  {
    match kind
    case User => s
    case Subscribe(_) => s
    case Provide(name, handler) =>
      if ok then s.(reg := s.reg.(providers := s.reg.providers[name := handler])) else s
    case Replay(_) =>
      if s.reg.replay.None? then s
      else NextName(s, s.reg.replay.value.queue, s.reg.replay.value.acked && ok)
    case Reset => s.(link := s.link.(writable := false))
  }

  /** The rest of reRegister after a drop: each remaining call fails at once. */
  function FailRest(o: Out, queue: seq<string>, epoch: nat, now: int): (o': Out)
    ensures Linked(o) ==> Linked(o')
    decreases |queue|
  {
    if queue == [] then o
    else FailRest(Start(o, Replay(queue[0]), DEFAULT_TIMEOUT_MS, false, false, epoch, now), queue[1..], epoch, now)
  }

  // ---------------------------------------------------------------- turns

  function OnProvide(s: State, name: string, handler: nat): State {
    if name in s.reg.providers then s.(reg := s.reg.(providers := s.reg.providers[name := handler]))
    else StartCall(s, Provide(name, handler), DEFAULT_TIMEOUT_MS, false)
  }

  function OnSubscribe(s: State, name: string): State {
    if name in s.reg.notify then s
    else
      var s1 := s.(reg := s.reg.(notify := s.reg.notify + {name}));
      if name in s.reg.providers then s1 else StartCall(s1, Subscribe(name), DEFAULT_TIMEOUT_MS, false)
  }

  function OnResponse(s: State, id: nat, ok: bool): State
    requires Linked(s.out)
  {
    if id !in s.out.pending then s
    else
      var kind := s.out.calls[s.out.attempts[s.out.pending[id]].call].kind;
      Continue(s.(out := Respond(s.out, id, ok, s.now)), kind, ok)
  }

  function OnAttemptTimer(s: State, a: nat): State
    requires Linked(s.out) && a < |s.out.attempts|
  {
    var kind := s.out.calls[s.out.attempts[a].call].kind;
    Continue(s.(out := Expire(s.out, a, s.now)), kind, false)
  }

  function CloseCalls(o: Out, replay: Option<Replaying>, epoch: nat, now: int): Out
    requires Linked(o)
  {
    var dropped := DropFrom(o, 0, now);
    if replay.None? then dropped else Emit(FailRest(dropped, replay.value.queue, epoch, now), false, epoch, now)
  }

  /**
    onTransportClose: pending calls are rejected, in-flight requests forgotten, a reconnect scheduled. A
    replay under way runs out at once and emits 'reconnect' although the bridge is disconnected.
   */
  function OnTransportClose(cfg: Config, s: State): State
    requires Linked(s.out)
  {
    var down := s.link.(connected := false, writable := false, closes := s.link.closes + [s.now]);
    State(s.now,
          if cfg.reconnect && !s.link.closedByUs then Schedule(cfg, down, s.now) else down,
          CloseCalls(s.out, s.reg.replay, s.Epoch(), s.now),
          In.Forget(s.inb),
          s.reg.(routed := {}, replay := None, synced := false))
  }

  function OnReconnectTimer(s: State): State {
    var l := s.link.(reconnectTimer := None);
    s.(link := if l.closedByUs then l else l.(connecting := true, connects := l.connects + 1))
  }

  /** transport.connect() succeeded: replay the registrations named in `names`. */
  function OnConnectSuccess(s: State, names: seq<string>): State
    requires Linked(s.out)
  {
    var l := s.link.(connecting := false, connected := true, writable := true, reconnectAttempt := 0,
                     opens := s.link.opens + [s.now]);
    NextName(s.(link := l, reg := s.reg.(sent := [], snapshot := names)), names, true)
  }

  function OnConnectFailure(cfg: Config, s: State): State {
    var l := s.link.(connecting := false);
    s.(link := if l.closedByUs then l else Schedule(cfg, l, s.now))
  }

  /** close(): no more reconnects; drain the in-flight requests, then ask the router to forget us. */
  function OnClose(s: State): State {
    var l := s.link.(closedByUs := true, reconnectTimer := None);
    if !l.connected then s.(link := l.(writable := false))
    else StartCall(s.(link := l, inb := In.Drain(s.inb, s.Epoch(), l.writable)), Reset, RESET_TIMEOUT_MS, false)
  }

  /** The router acts on a REQUEST it has read. */
  function OnRouter(s: State, a: nat): State
    requires Linked(s.out) && a < |s.out.attempts|
  {
    match s.out.calls[s.out.attempts[a].call].kind
    case Provide(name, _) => s.(reg := s.reg.(routed := s.reg.routed + {name}))
    case Subscribe(name) => s.(reg := s.reg.(routed := s.reg.routed + {name}))
    case Replay(name) => s.(reg := s.reg.(routed := s.reg.routed + {name}))
    case Reset => s.(reg := s.reg.(routed := {}))
    case User => s
  }

  function HandlerOf(reg: Reg, name: string): Option<nat> {
    if name in reg.providers then Some(reg.providers[name]) else None
  }

  function Turn(cfg: Config, s: State, e: Event): State
    requires Linked(s.out)
    requires e.AttemptTimer? || e.RouterHandles? ==> e.attempt < |s.out.attempts|
    requires e.BudgetTimer? ==> e.call < |s.out.calls|
    requires e.HandlerSettles? ==> e.task < |s.inb.tasks|
  {
    match e
    case CallStarts(timeoutMs, idempotent) => StartCall(s, User, timeoutMs, idempotent)
    case ProvideCalled(name, handler) => OnProvide(s, name, handler)
    case OnNotifyCalled(name) => OnSubscribe(s, name)
    case ResponseArrives(id, ok) => OnResponse(s, id, ok)
    case AttemptTimer(a) => OnAttemptTimer(s, a)
    case BudgetTimer(c) => s.(out := GiveUp(s.out, c, s.now))
    case SocketFails => s.(link := s.link.(writable := false))
    case TransportCloses => OnTransportClose(cfg, s)
    case ReconnectTimer => OnReconnectTimer(s)
    case ConnectSucceeds(names) => OnConnectSuccess(s, names)
    case ConnectFails => OnConnectFailure(cfg, s)
    case RequestArrives(msgid, name) =>
      s.(inb := In.Receive(s.inb, msgid, name, HandlerOf(s.reg, name), s.Epoch(), s.link.writable))
    case HandlerSettles(t) => s.(inb := In.Finish(s.inb, t, s.Epoch(), s.link.writable))
    case RouterHandles(a) => OnRouter(s, a)
    case CloseCalled => OnClose(s)
  }

  // ---------------------------------------------------------------- what the environment may do

  predicate Registers(kind: Kind) { kind.Provide? || kind.Subscribe? || kind.Replay? }

  ghost predicate Enabled(s: State, e: Event)
    requires Linked(s.out)
  {
    match e
    case ResponseArrives(id, ok) =>
      // the router acknowledges only what it has registered
      && s.link.connected
      && (id in s.out.pending && ok ==>
            var kind := s.out.calls[s.out.attempts[s.out.pending[id]].call].kind;
            Registers(kind) ==> kind.name in s.reg.routed)
    case AttemptTimer(a) => a < |s.out.attempts| && s.out.attempts[a].cause == None && s.out.attempts[a].due == s.now
    case BudgetTimer(c) => c < |s.out.calls| && s.out.calls[c].phase.Waiting? && s.out.calls[c].deadline == s.now
    case SocketFails => s.link.connected
    case TransportCloses => s.link.connected
    case ReconnectTimer => s.link.reconnectTimer == Some(s.now)
    case ConnectSucceeds(names) =>
      && s.link.connecting && NoRepeats(names)
      && (forall name :: name in names <==> name in s.reg.providers || name in s.reg.notify)
    case ConnectFails => s.link.connecting
    case RequestArrives(_, _) => s.link.connected
    case HandlerSettles(t) => t < |s.inb.tasks| && !s.inb.tasks[t].done
    case RouterHandles(a) => s.link.connected && a < |s.out.attempts| && s.out.attempts[a].epoch == s.Epoch()
    case _ => true
  }

  /** Time moves on without passing over a live timer. */
  ghost predicate MayWaitUntil(s: State, at: int) {
    && s.now <= at && NotOverdue(s.out, at)
    && (s.link.reconnectTimer.Some? ==> at <= s.link.reconnectTimer.value)
  }

  ghost predicate Legal(s: State, t: Timed) {
    && Linked(s.out) && MayWaitUntil(s, t.at) && Enabled(s.(now := t.at), t.event)
  }

  function Step(cfg: Config, s: State, t: Timed): State
    requires Legal(s, t)
  {
    Turn(cfg, s.(now := t.at), t.event)
  }
}
