/**
  The class of packages/bridge/src/bridge.ts. Its methods are the turns of BridgeState carried out on the
  source's own fields; `View` is the state they amount to.
 */
module BridgeClass {
  import opened Common
  import opened Options
  import opened Outbound
  import opened BridgeState
  import In = Inbound

  lemma TryAllNext(o: Out, cs: seq<nat>, i: nat, up: bool, epoch: nat, now: int)
    requires i < |cs| && forall k :: 0 <= k < |cs| ==> cs[k] < |o.calls|
    ensures TryAll(o, cs[i..], up, epoch, now) == TryAll(Try(o, cs[i], up, epoch, now), cs[i + 1..], up, epoch, now)
  {
    assert cs[i..][0] == cs[i] && cs[i..][1..] == cs[i + 1..];
  }

  lemma FailRestNext(o: Out, queue: seq<string>, i: nat, epoch: nat, now: int)
    requires i < |queue|
    ensures
      var o' := Start(o, Replay(queue[i]), DEFAULT_TIMEOUT_MS, false, false, epoch, now);
      FailRest(o, queue[i..], epoch, now) == FailRest(o', queue[i + 1..], epoch, now)
  {
    assert queue[i..][0] == queue[i] && queue[i..][1..] == queue[i + 1..];
  }

  /** A timer is armed with the current backoff delay unless one is pending or reconnecting is off. */
  predicate Rescheduled(cfg: Config, off: bool, timer: Option<int>, attempt: nat,
                        timer': Option<int>, attempt': nat, now: int)
  {
    if timer.Some? || off then timer' == timer && attempt' == attempt
    else timer' == Some(now + Delay(cfg, attempt)) && attempt' == attempt + 1
  }

  class Bridge {
    const cfg: Config

    // the source's fields; a pending request is named by its attempt, a 'reconnect' listener by its call
    var msgid: nat
    var pending: map<nat, nat>
    var providers: map<string, nat>
    var notifyHandlers: set<string>
    var inFlightRequests: map<nat, string>
    var connected: bool
    var closedByUs: bool
    var reconnectAttempt: nat
    var reconnectTimer: Option<int>
    var listeners: seq<nat>

    // suspended coroutines: callWithOptions, provider handlers, reRegister, doReconnect
    var calls: seq<Call>
    var attempts: seq<Attempt>
    var tasks: seq<In.Task>
    var replay: Option<Replaying>
    var connecting: bool

    // the transport and the clock
    var writable: bool
    var now: int

    // history, and the router's side
    var opens: seq<int>
    ghost var closes: seq<int>
    ghost var connects: nat
    ghost var received: multiset<In.Key>
    ghost var responded: multiset<In.Key>
    ghost var merged: multiset<In.Key>
    ghost var owner: map<nat, nat>
    ghost var routed: set<string>
    ghost var synced: bool
    ghost var sent: seq<string>
    ghost var snapshot: seq<string>

    ghost function View(): State
      reads this
    {
      State(now,
            Link(connected, writable, connecting, closedByUs, reconnectAttempt, reconnectTimer,
                 opens, closes, connects),
            Out(attempts, pending, calls, listeners),
            In.In(inFlightRequests, tasks, received, responded, merged, owner),
            Reg(providers, notifyHandlers, routed, replay, synced, sent, snapshot))
    }

    ghost function Outs(): Out
      reads `attempts, `pending, `calls, `listeners
    {
      Out(attempts, pending, calls, listeners)
    }

    ghost function Ins(): In.In
      reads `inFlightRequests, `tasks, `received, `responded, `merged, `owner
    {
      In.In(inFlightRequests, tasks, received, responded, merged, owner)
    }

    function Epoch(): nat
      reads `opens
    {
      if opens == [] then 0 else |opens| - 1
    }

    ghost predicate Valid()
      reads `attempts, `pending, `calls, `listeners, `msgid
    {
      Linked(Out(attempts, pending, calls, listeners)) && msgid == |attempts| % ID_SPACE
    }

    constructor (cfg: Config, t: int)
      ensures Valid() && this.cfg == cfg && View() == Initial(t)
    {
      this.cfg := cfg;
      msgid, pending, providers, notifyHandlers, inFlightRequests := 0, map[], map[], {}, map[];
      connected, closedByUs, reconnectAttempt, reconnectTimer, listeners := true, false, 0, None, [];
      calls, attempts, tasks, replay, connecting := [], [], [], None, false;
      writable, now := true, t;
      opens, closes, connects := [t], [], 0;
      received, responded, merged, owner := multiset{}, multiset{}, multiset{}, map[];
      routed, synced, sent, snapshot := {}, true, [], [];
    }

    // -------------------------------------------------------------- calls

    method NextMsgId() returns (id: nat)
      requires msgid == |attempts| % ID_SPACE
      modifies `msgid
      ensures id == IdOf(|attempts|) && msgid == (|attempts| + 1) % ID_SPACE
    {
      msgid := (msgid + 1) % ID_SPACE;
      id := msgid;
    }

    /** The catch clause of callWithOptions on a ConnectionError. */
    method CatchLost(c: nat)
      requires Valid() && c < |calls|
      modifies `calls, `listeners
      ensures Valid() && Outs() == Lose(old(Outs()), c, now)
    {
      var call := calls[c];
      if !call.idempotent {
        calls := calls[c := call.(phase := Settled(ConnectionLost, now))];
      } else {
        var remaining := call.deadline - now;
        if remaining <= 0 {
          calls := calls[c := call.(phase := Settled(TimedOut, now))];
        } else {
          calls := calls[c := call.(phase := Waiting)];
          listeners := listeners + [c];
        }
      }
    }

    /** One turn of the retry loop. */
    method TryCall(c: nat)
      requires Valid() && c < |calls|
      modifies `msgid, `pending, `attempts, `calls, `listeners
      ensures Valid() && Outs() == Try(old(Outs()), c, connected, Epoch(), now)
    {
      if !connected {
        CatchLost(c);
      } else {
        var remaining := Max(0, calls[c].deadline - now);
        var id := NextMsgId();
        var a := |attempts|;
        calls := calls[c := calls[c].(phase := InFlight(a))];
        attempts := attempts + [Attempt(c, Epoch(), now, now + remaining, None)];
        pending := pending[id := a];
      }
    }

    method CallWithOptions(kind: Kind, timeoutMs: int, idempotent: bool)
      requires Valid()
      modifies `msgid, `pending, `attempts, `calls, `listeners
      ensures Valid()
      ensures Outs() == Start(old(Outs()), kind, timeoutMs, idempotent, connected, Epoch(), now)
    {
      calls := calls + [Call(kind, now, now + timeoutMs, idempotent, Waiting)];
      TryCall(|calls| - 1);
    }

    /** Take `id` off `pending` and settle attempt `a` with the call it serves. */
    method Resolve(id: nat, a: nat, cause: Cause, outcome: Outcome)
      requires Valid() && a < |attempts|
      modifies `pending, `attempts, `calls
      ensures Valid()
      ensures Outs() == SetPhase(SetCause(old(Outs()).(pending := old(pending) - {id}), a, cause),
                                 old(attempts[a].call), Settled(outcome, now))
    {
      var c := attempts[a].call;
      pending := pending - {id};
      attempts := attempts[a := attempts[a].(cause := Some(cause))];
      calls := calls[c := calls[c].(phase := Settled(outcome, now))];
    }

    /** emit('reconnect'): once-listeners leave the list before they run. */
    method EmitReconnectEvent()
      requires Valid()
      modifies `msgid, `pending, `attempts, `calls, `listeners
      ensures Valid() && Outs() == Emit(old(Outs()), connected, Epoch(), now)
    {
      var list := listeners;
      listeners := [];
      RetryAll(list);
    }

    method RetryAll(cs: seq<nat>)
      requires Valid() && forall i :: 0 <= i < |cs| ==> cs[i] < |calls|
      modifies `msgid, `pending, `attempts, `calls, `listeners
      ensures Valid() && Outs() == TryAll(old(Outs()), cs, connected, Epoch(), now)
    {
      var i := 0;
      while i < |cs|
        invariant i <= |cs| && Valid() && |calls| == |old(calls)|
        invariant TryAll(Outs(), cs[i..], connected, Epoch(), now) == TryAll(old(Outs()), cs, connected, Epoch(), now)
      {
        TryAllNext(Outs(), cs, i, connected, Epoch(), now);
        TryCall(cs[i]);
        i := i + 1;
      }
      assert cs[i..] == [];
    }

    /** reRegister up to its next await, or to its end. */
    method ReRegister(queue: seq<string>, acked: bool)
      requires Valid()
      modifies `msgid, `pending, `attempts, `calls, `listeners, `replay, `synced, `sent
      ensures Valid()
      ensures queue == [] ==>
        && Outs() == Emit(old(Outs()), connected, Epoch(), now)
        && replay == None && synced == acked && sent == old(sent)
      ensures queue != [] ==>
        && Outs() == Start(old(Outs()), Replay(queue[0]), DEFAULT_TIMEOUT_MS, false, connected, Epoch(), now)
        && replay == Some(Replaying(queue[1..], |old(calls)|, acked))
        && synced == old(synced) && sent == old(sent) + [queue[0]]
    {
      if queue == [] {
        replay, synced := None, acked;
        EmitReconnectEvent();
      } else {
        replay := Some(Replaying(queue[1..], |calls|, acked));
        sent := sent + [queue[0]];
        CallWithOptions(Replay(queue[0]), DEFAULT_TIMEOUT_MS, false);
      }
    }

    /** What awaits the settled call. */
    method Resume(kind: Kind, ok: bool)
      requires Valid()
      modifies `msgid, `pending, `attempts, `calls, `listeners, `providers, `writable, `replay, `synced, `sent
      ensures Valid()
      ensures Outs() == Continue(old(View()), kind, ok).out
      ensures
        var reg' := Continue(old(View()), kind, ok).reg;
        providers == reg'.providers && replay == reg'.replay && synced == reg'.synced && sent == reg'.sent
      ensures writable == Continue(old(View()), kind, ok).link.writable
    {
      match kind
      case Provide(name, handler) =>
        if ok { providers := providers[name := handler]; }
      case Replay(_) =>
        if replay.Some? { ReRegister(replay.value.queue, replay.value.acked && ok); }
      case Reset => writable := false;
      case _ =>
    }

    /** handleMessage on a RESPONSE. */
    method HandleResponse(id: nat, ok: bool)
      requires Valid()
      modifies `msgid, `pending, `attempts, `calls, `listeners, `providers, `writable, `replay, `synced, `sent
      ensures Valid()
      ensures Outs() == OnResponse(old(View()), id, ok).out
      ensures
        var reg' := OnResponse(old(View()), id, ok).reg;
        providers == reg'.providers && replay == reg'.replay && synced == reg'.synced && sent == reg'.sent
      ensures writable == OnResponse(old(View()), id, ok).link.writable
    {
      if id in pending { SettlePending(id, ok); }
    }

    method SettlePending(id: nat, ok: bool)
      requires Valid() && id in pending
      modifies `msgid, `pending, `attempts, `calls, `listeners, `providers, `writable, `replay, `synced, `sent
      ensures Valid()
      ensures Outs() == OnResponse(old(View()), id, ok).out
      ensures
        var reg' := OnResponse(old(View()), id, ok).reg;
        providers == reg'.providers && replay == reg'.replay && synced == reg'.synced && sent == reg'.sent
      ensures writable == OnResponse(old(View()), id, ok).link.writable
    {
      var a := pending[id];
      var kind := calls[attempts[a].call].kind;
      Resolve(id, a, ByResponse, Answered(ok));
      Resume(kind, ok);
    }

    /** The timer armed by `attempt`. */
    method AttemptTimerFires(a: nat)
      requires Valid() && a < |attempts|
      modifies `msgid, `pending, `attempts, `calls, `listeners, `providers, `writable, `replay, `synced, `sent
      ensures Valid()
      ensures Outs() == OnAttemptTimer(old(View()), a).out
      ensures
        var reg' := OnAttemptTimer(old(View()), a).reg;
        providers == reg'.providers && replay == reg'.replay && synced == reg'.synced && sent == reg'.sent
      ensures writable == OnAttemptTimer(old(View()), a).link.writable
    {
      var kind := calls[attempts[a].call].kind;
      Resolve(IdOf(a), a, ByTimer, TimedOut);
      Resume(kind, false);
    }

    /** The timer armed by `waitForReconnect`. */
    method BudgetTimerFires(c: nat)
      requires Valid() && c < |calls|
      modifies `calls, `listeners
      ensures View() == old(View()).(out := GiveUp(old(Outs()), c, now))
    {
      listeners := Without(listeners, c);
      calls := calls[c := calls[c].(phase := Settled(TimedOut, now))];
    }

    // -------------------------------------------------------------- registrations

    method ProvideMethod(name: string, handler: nat)
      requires Valid()
      modifies `msgid, `pending, `attempts, `calls, `listeners, `providers
      ensures Valid()
      ensures Outs() == OnProvide(old(View()), name, handler).out
      ensures providers == OnProvide(old(View()), name, handler).reg.providers
    {
      if name in providers {
        providers := providers[name := handler];
      } else {
        CallWithOptions(Provide(name, handler), DEFAULT_TIMEOUT_MS, false);
      }
    }

    method OnNotify(name: string)
      requires Valid()
      modifies `msgid, `pending, `attempts, `calls, `listeners, `notifyHandlers
      ensures Valid()
      ensures Outs() == OnSubscribe(old(View()), name).out
      ensures notifyHandlers == OnSubscribe(old(View()), name).reg.notify
    {
      if name !in notifyHandlers {
        notifyHandlers := notifyHandlers + {name};
        if name !in providers {
          CallWithOptions(Subscribe(name), DEFAULT_TIMEOUT_MS, false);
        }
      }
    }

    // -------------------------------------------------------------- the connection

    method ScheduleReconnect()
      modifies `reconnectTimer, `reconnectAttempt
      ensures Rescheduled(cfg, closedByUs, old(reconnectTimer), old(reconnectAttempt),
                          reconnectTimer, reconnectAttempt, now)
    {
      if reconnectTimer.Some? || closedByUs { return; }
      var delay := Min(cfg.baseDelayMs * Pow2(reconnectAttempt), cfg.maxDelayMs);
      reconnectAttempt := reconnectAttempt + 1;
      reconnectTimer := Some(now + delay);
    }

    /** The loop of onTransportClose over `pending`, and the catch clauses its rejections run. */
    method RejectPending()
      requires Valid()
      modifies `pending, `attempts, `calls, `listeners
      ensures Valid() && Outs() == DropFrom(old(Outs()), 0, now)
    {
      var a := 0;
      while a < |attempts|
        invariant a <= |attempts| == |old(attempts)| && Valid()
        invariant DropFrom(Outs(), a, now) ==
          DropFrom(old(Outs()), 0, now)
      {
        RejectOne(a);
        a := a + 1;
      }
    }

    method RejectOne(a: nat)
      requires Valid() && a < |attempts|
      modifies `pending, `attempts, `calls, `listeners
      ensures Valid() && |attempts| == |old(attempts)| && Outs() == Drop(old(Outs()), a, now)
    {
      var id := IdOf(a);
      if id in pending && pending[id] == a {
        var c := attempts[a].call;
        pending := pending - {id};
        attempts := attempts[a := attempts[a].(cause := Some(ByClose))];
        CatchLost(c);
      }
    }

    /** reRegister's remaining names, each failing at once. */
    method FailReplay(queue: seq<string>)
      requires Valid() && !connected
      modifies `msgid, `pending, `attempts, `calls, `listeners
      ensures Valid() && Outs() == FailRest(old(Outs()), queue, Epoch(), now)
    {
      var i := 0;
      while i < |queue|
        invariant i <= |queue| && Valid()
        invariant FailRest(Outs(), queue[i..], Epoch(), now) ==
          FailRest(old(Outs()), queue, Epoch(), now)
      {
        FailRestNext(Outs(), queue, i, Epoch(), now);
        CallWithOptions(Replay(queue[i]), DEFAULT_TIMEOUT_MS, false);
        i := i + 1;
      }
      assert queue[i..] == [];
    }

    /** What a drop does to a reRegister under way: it runs to its end, and emits 'reconnect'. */
    method AbandonReplay()
      requires Valid() && !connected
      modifies `msgid, `pending, `attempts, `calls, `listeners, `replay
      ensures Valid() && replay == None
      ensures old(replay).None? ==> Outs() == old(Outs())
      ensures old(replay).Some? ==>
        Outs() == Emit(FailRest(old(Outs()), old(replay).value.queue, Epoch(), now), false, Epoch(), now)
    {
      if replay.Some? {
        var queue := replay.value.queue;
        replay := None;
        FailReplay(queue);
        EmitReconnectEvent();
      }
    }

    method RejectAndForget()
      requires Valid()
      modifies `pending, `attempts, `calls, `listeners, `connected, `writable, `closes, `inFlightRequests, `owner
      ensures Valid() && Outs() == DropFrom(old(Outs()), 0, now)
      ensures !connected && !writable && closes == old(closes) + [now]
      ensures inFlightRequests == map[] && owner == map[]
    {
      connected, writable, closes, inFlightRequests, owner := false, false, closes + [now], map[], map[];
      RejectPending();
    }

    method MaybeReconnect()
      modifies `reconnectTimer, `reconnectAttempt, `routed, `synced
      ensures routed == {} && !synced
      ensures Rescheduled(cfg, closedByUs || !cfg.reconnect, old(reconnectTimer), old(reconnectAttempt),
                          reconnectTimer, reconnectAttempt, now)
    {
      routed, synced := {}, false;
      if cfg.reconnect && !closedByUs { ScheduleReconnect(); }
    }

    /** onTransportClose up to the end of its own code. */
    method Disconnected()
      requires Valid()
      modifies `pending, `attempts, `calls, `listeners, `connected, `writable, `closes, `inFlightRequests, `owner,
               `reconnectTimer, `reconnectAttempt, `routed, `synced
      ensures Valid() && Outs() == DropFrom(old(Outs()), 0, now)
      ensures !connected && !writable && closes == old(closes) + [now]
      ensures inFlightRequests == map[] && owner == map[] && routed == {} && !synced
      ensures Rescheduled(cfg, closedByUs || !cfg.reconnect, old(reconnectTimer), old(reconnectAttempt),
                          reconnectTimer, reconnectAttempt, now)
    {
      RejectAndForget();
      MaybeReconnect();
    }

    method TransportClosed()
      requires Valid()
      modifies `msgid, `pending, `attempts, `calls, `listeners, `connected, `writable, `closes, `inFlightRequests,
               `owner, `reconnectTimer, `reconnectAttempt, `routed, `synced, `replay
      ensures Valid() && Outs() == CloseCalls(old(Outs()), old(replay), Epoch(), now)
      ensures !connected && !writable && closes == old(closes) + [now]
      ensures inFlightRequests == map[] && owner == map[] && routed == {} && !synced && replay == None
      ensures Rescheduled(cfg, closedByUs || !cfg.reconnect, old(reconnectTimer), old(reconnectAttempt),
                          reconnectTimer, reconnectAttempt, now)
    {
      Disconnected();
      AbandonReplay();
    }

    method ReconnectTimerFires()
      modifies `reconnectTimer, `connecting, `connects
      ensures
        var l := OnReconnectTimer(old(View())).link;
        reconnectTimer == l.reconnectTimer && connecting == l.connecting && connects == l.connects
    {
      reconnectTimer := None;
      if closedByUs { return; }
      connecting, connects := true, connects + 1;
    }

    method GoOnline(names: seq<string>)
      modifies `connecting, `connected, `writable, `reconnectAttempt, `opens, `sent, `snapshot
      ensures !connecting && connected && writable && reconnectAttempt == 0 && opens == old(opens) + [now]
      ensures sent == [] && snapshot == names
    {
      connecting, connected, writable, reconnectAttempt, opens := false, true, true, 0, opens + [now];
      sent, snapshot := [], names;
    }

    /** doReconnect after a successful transport.connect(). */
    method Reconnected(names: seq<string>)
      requires Valid()
      modifies `msgid, `pending, `attempts, `calls, `listeners, `connecting, `connected, `writable, `reconnectAttempt,
               `opens, `sent, `snapshot, `replay, `synced
      ensures Valid()
      ensures Outs() == OnConnectSuccess(old(View()), names).out
      ensures !connecting && connected && writable && reconnectAttempt == 0 && opens == old(opens) + [now]
      ensures
        var r := OnConnectSuccess(old(View()), names).reg;
        replay == r.replay && synced == r.synced && sent == r.sent && snapshot == r.snapshot
    {
      GoOnline(names);
      ReRegister(names, true);
    }

    method ReconnectFailed()
      modifies `connecting, `reconnectTimer, `reconnectAttempt
      ensures
        var l := OnConnectFailure(cfg, old(View())).link;
        connecting == l.connecting && reconnectTimer == l.reconnectTimer && reconnectAttempt == l.reconnectAttempt
    {
      connecting := false;
      if !closedByUs { ScheduleReconnect(); }
    }

    // -------------------------------------------------------------- inbound requests

    method WriteResponse(id: nat)
      modifies `responded
      ensures responded == if writable then old(responded) + multiset{In.Key(Epoch(), id)} else old(responded)
    {
      if writable { responded := responded + multiset{In.Key(Epoch(), id)}; }
    }

    method Track(id: nat, name: string, handler: nat)
      modifies `inFlightRequests, `tasks, `received, `merged, `owner
      ensures inFlightRequests == old(inFlightRequests)[id := name]
      ensures tasks == old(tasks) + [In.Task(id, handler, false)] && owner == old(owner)[id := |old(tasks)|]
      ensures received == old(received) + multiset{In.Key(Epoch(), id)}
      ensures merged == if id in old(inFlightRequests) then old(merged) + multiset{In.Key(Epoch(), id)} else old(merged)
    {
      received := received + multiset{In.Key(Epoch(), id)};
      merged := if id in inFlightRequests then merged + multiset{In.Key(Epoch(), id)} else merged;
      inFlightRequests, tasks, owner :=
        inFlightRequests[id := name], tasks + [In.Task(id, handler, false)], owner[id := |tasks|];
    }

    method RefuseRequest(id: nat, name: string)
      modifies `received, `responded
      ensures Ins() == In.Receive(old(Ins()), id, name, None, Epoch(), writable)
    {
      received := received + multiset{In.Key(Epoch(), id)};
      WriteResponse(id);
    }

    /** handleMessage on a REQUEST. */
    method HandleRequest(id: nat, name: string)
      modifies `inFlightRequests, `tasks, `received, `responded, `merged, `owner
      ensures Ins() == In.Receive(old(Ins()), id, name,
                                  if name in providers then Some(providers[name]) else None, Epoch(), writable)
    {
      if name in providers {
        Track(id, name, providers[name]);
      } else {
        RefuseRequest(id, name);
      }
    }

    /** A handler's result or error: answer it if its id could still be deleted. */
    method HandlerSettled(t: nat)
      requires t < |tasks|
      modifies `inFlightRequests, `tasks, `responded, `owner
      ensures Ins() == In.Finish(old(Ins()), t, Epoch(), writable)
    {
      var id := tasks[t].msgid;
      tasks := tasks[t := tasks[t].(done := true)];
      if id in inFlightRequests {
        inFlightRequests, owner := inFlightRequests - {id}, owner - {id};
        WriteResponse(id);
      }
    }

    function Drained(k: In.Key, ids: set<nat>): nat
      reads `writable, `opens
    {
      if writable && k.epoch == Epoch() && k.msgid in ids then 1 else 0
    }

    /** The drain loop of close(). */
    method DrainInFlight()
      modifies `inFlightRequests, `responded, `owner
      ensures inFlightRequests == map[] && owner == map[]
      ensures responded == In.Drain(old(Ins()), Epoch(), writable).responded
    {
      var inFlight := inFlightRequests.Keys;
      inFlightRequests, owner := map[], map[];
      var rest := inFlight;
      while rest != {}
        invariant rest <= inFlight && inFlightRequests == map[] && owner == map[]
        invariant forall k: In.Key :: responded[k] == old(responded)[k] + Drained(k, inFlight - rest)
        decreases rest
      {
        var id :| id in rest;
        rest := rest - {id};
        WriteResponse(id);
      }
      ghost var keys := set m | m in inFlight :: In.Key(Epoch(), m);
      assert forall k: In.Key :: multiset(keys)[k] == if k.epoch == Epoch() && k.msgid in inFlight then 1 else 0;
      assert responded == if writable then old(responded) + multiset(keys) else old(responded);
    }

    method BeginClose()
      modifies `closedByUs, `reconnectTimer, `inFlightRequests, `responded, `owner
      ensures closedByUs && reconnectTimer == None
      ensures inFlightRequests == (if connected then map[] else old(inFlightRequests))
      ensures owner == (if connected then map[] else old(owner))
      ensures responded ==
        (if connected then In.Drain(old(Ins()), Epoch(), writable).responded else old(responded))
    {
      closedByUs, reconnectTimer := true, None;
      if connected { DrainInFlight(); }
    }

    method Close()
      requires Valid()
      modifies `msgid, `pending, `attempts, `calls, `listeners, `closedByUs, `reconnectTimer, `inFlightRequests,
               `responded, `owner, `writable
      ensures Valid() && closedByUs && reconnectTimer == None
      ensures Outs() == OnClose(old(View())).out
      ensures writable == OnClose(old(View())).link.writable
      ensures inFlightRequests == OnClose(old(View())).inb.inFlight && responded == OnClose(old(View())).inb.responded
      ensures owner == OnClose(old(View())).inb.owner
    {
      BeginClose();
      if connected {
        CallWithOptions(Reset, RESET_TIMEOUT_MS, false);
      } else {
        writable := false;
      }
    }
  }
}
