/** Outbound settlement: what settles an attempt, and when its id is in `pending`. */
module BridgeSettlement {
  import opened Options
  import opened Outbound
  import opened BridgeState
  import opened BridgeRuns

  // ---------------------------------------------------------------- ids stay exact

  lemma StartExact(s: State, kind: Kind, timeoutMs: int, idempotent: bool)
    requires Exact(s.out)
    requires s.link.connected ==> Windowed(StartCall(s, kind, timeoutMs, idempotent).out)
    ensures Exact(StartCall(s, kind, timeoutMs, idempotent).out)
  {
    var o1 := Created(s.out, kind, timeoutMs, idempotent, s.now);
    assert forall a :: 0 <= a < |o1.attempts| ==> Pending(o1, a) == Pending(s.out, a);
    TryExact(o1, |s.out.calls|, s.link.connected, s.Epoch(), s.now);
  }

  lemma EmitExact(o: Out, up: bool, epoch: nat, now: int)
    requires Linked(o) && Exact(o) && (up ==> Windowed(Emit(o, up, epoch, now)))
    ensures Exact(Emit(o, up, epoch, now))
  {
    var o1 := o.(waiting := []);
    assert forall a :: 0 <= a < |o1.attempts| ==> Pending(o1, a) == Pending(o, a);
    TryAllExact(o1, o.waiting, up, epoch, now);
  }

  lemma NextNameExact(s: State, queue: seq<string>, acked: bool)
    requires Linked(s.out) && Exact(s.out)
    requires s.link.connected ==> Windowed(NextName(s, queue, acked).out)
    ensures Exact(NextName(s, queue, acked).out)
  {
    if queue == [] {
      EmitExact(s.out, s.link.connected, s.Epoch(), s.now);
    } else {
      var reg := s.reg.(replay := Some(Replaying(queue[1..], |s.out.calls|, acked)), sent := s.reg.sent + [queue[0]]);
      StartExact(s.(reg := reg), Replay(queue[0]), DEFAULT_TIMEOUT_MS, false);
    }
  }

  lemma ContinueExact(s: State, kind: Kind, ok: bool)
    requires Linked(s.out) && Exact(s.out)
    requires s.link.connected ==> Windowed(Continue(s, kind, ok).out)
    ensures Exact(Continue(s, kind, ok).out)
  {
    if kind.Replay? && s.reg.replay.Some? {
      NextNameExact(s, s.reg.replay.value.queue, s.reg.replay.value.acked && ok);
    }
  }

  lemma {:induction false} FailRestExact(o: Out, queue: seq<string>, epoch: nat, now: int)
    requires Exact(o)
    ensures Exact(FailRest(o, queue, epoch, now))
    decreases |queue|
  {
    if queue != [] {
      var o1 := Created(o, Replay(queue[0]), DEFAULT_TIMEOUT_MS, false, now);
      assert forall a :: 0 <= a < |o1.attempts| ==> Pending(o1, a) == Pending(o, a);
      TryExact(o1, |o.calls|, false, epoch, now);
      FailRestExact(Start(o, Replay(queue[0]), DEFAULT_TIMEOUT_MS, false, false, epoch, now), queue[1..], epoch, now);
    }
  }

  lemma CloseExact(cfg: Config, s: State)
    requires SysInv(cfg, s) && s.link.connected && Linked(s.out) && Exact(s.out)
    ensures Exact(OnTransportClose(cfg, s).out)
  {
    var dropped := DropFrom(s.out, 0, s.now);
    DropFromExact(s.out, 0, s.now);
    if s.reg.replay.Some? {
      FailRestExact(dropped, s.reg.replay.value.queue, s.Epoch(), s.now);
      EmitExact(FailRest(dropped, s.reg.replay.value.queue, s.Epoch(), s.now), false, s.Epoch(), s.now);
    }
  }

  lemma ResponseExact(s: State, id: nat, ok: bool)
    requires OutInv(s) && Linked(s.out) && Exact(s.out) && s.link.connected
    requires Windowed(OnResponse(s, id, ok).out)
    ensures Exact(OnResponse(s, id, ok).out)
  {
    if id in s.out.pending {
      var a := s.out.pending[id];
      assert PendingSound(s.out, id);
      var s1 := s.(out := Respond(s.out, id, ok, s.now));
      SettleExact(s.out, a, ByResponse, Answered(ok), s.now);
      ContinueExact(s1, s.out.calls[s.out.attempts[a].call].kind, ok);
    }
  }

  lemma TimerExact(s: State, a: nat)
    requires OutInv(s) && Linked(s.out) && Exact(s.out)
    requires a < |s.out.attempts| && s.out.attempts[a].cause == None
    requires Windowed(OnAttemptTimer(s, a).out)
    ensures Exact(OnAttemptTimer(s, a).out)
  {
    assert Pending(s.out, a);
    SettleExact(s.out, a, ByTimer, TimedOut, s.now);
    ContinueExact(s.(out := Expire(s.out, a, s.now)), s.out.calls[s.out.attempts[a].call].kind, false);
  }

  lemma TurnExact(cfg: Config, s: State, e: Event)
    requires SysInv(cfg, s) && Linked(s.out) && Enabled(s, e) && Exact(s.out)
    requires Windowed(Turn(cfg, s, e).out)
    ensures Exact(Turn(cfg, s, e).out)
  {
    match e
    case CallStarts(timeoutMs, idempotent) => StartExact(s, User, timeoutMs, idempotent);
    case ProvideCalled(name, handler) =>
      if name !in s.reg.providers { StartExact(s, Provide(name, handler), DEFAULT_TIMEOUT_MS, false); }
    case OnNotifyCalled(name) =>
      if name !in s.reg.notify && name !in s.reg.providers {
        StartExact(s.(reg := s.reg.(notify := s.reg.notify + {name})), Subscribe(name), DEFAULT_TIMEOUT_MS, false);
      }
    case ResponseArrives(id, ok) => ResponseExact(s, id, ok);
    case AttemptTimer(a) => TimerExact(s, a);
    case BudgetTimer(c) =>
      assert forall a :: 0 <= a < |s.out.attempts| ==> Pending(GiveUp(s.out, c, s.now), a) == Pending(s.out, a);
    case TransportCloses => CloseExact(cfg, s);
    case ConnectSucceeds(names) => ConnectExact(s, names);
    case CloseCalled => OurCloseExact(s);
    case RouterHandles(a) => RouterKeeps(cfg, s, a);
    case _ =>
  }

  lemma ConnectExact(s: State, names: seq<string>)
    requires Linked(s.out) && Exact(s.out) && Windowed(OnConnectSuccess(s, names).out)
    ensures Exact(OnConnectSuccess(s, names).out)
  {
    var l := s.link.(connecting := false, connected := true, writable := true, reconnectAttempt := 0,
                     opens := s.link.opens + [s.now]);
    NextNameExact(s.(link := l, reg := s.reg.(sent := [], snapshot := names)), names, true);
  }

  lemma OurCloseExact(s: State)
    requires Exact(s.out) && Windowed(OnClose(s).out)
    ensures Exact(OnClose(s).out)
  {
    if s.link.connected {
      StartExact(s.(link := OnClose(s).link, inb := OnClose(s).inb), Reset, RESET_TIMEOUT_MS, false);
    }
  }

  /** A legal run during which fewer than 2^31 ids are drawn in any one attempt's life. */
  ghost predicate WindowedRun(cfg: Config, s: State, ts: seq<Timed>)
    decreases |ts|
  {
    && Windowed(s.out)
    && (ts == [] || (Legal(s, ts[0]) && WindowedRun(cfg, Step(cfg, s, ts[0]), ts[1..])))
  }

  lemma StepExact(cfg: Config, s: State, t: Timed, rest: seq<Timed>)
    requires SysInv(cfg, s) && Exact(s.out) && Legal(s, t) && WindowedRun(cfg, Step(cfg, s, t), rest)
    ensures SysInv(cfg, Step(cfg, s, t)) && Exact(Step(cfg, s, t).out)
  {
    WaitKeeps(cfg, s, t.at);
    StepKeeps(cfg, s, t);
    TurnExact(cfg, s.(now := t.at), t.event);
  }

  lemma {:induction false} RunExact(cfg: Config, s: State, ts: seq<Timed>)
    requires SysInv(cfg, s) && Exact(s.out) && WindowedRun(cfg, s, ts)
    ensures LegalRun(cfg, s, ts) && SysInv(cfg, Run(cfg, s, ts)) && Exact(Run(cfg, s, ts).out)
    decreases |ts|
  {
    if ts != [] {
      StepExact(cfg, s, ts[0], ts[1..]);
      RunExact(cfg, Step(cfg, s, ts[0]), ts[1..]);
    }
  }

  /** An id is pending exactly while its attempt is unsettled, no id is shared, and no attempt outlives its timer. */
  ghost predicate IdsExact(o: Out, now: int) {
    && Exact(o)
    && (forall a, b :: 0 <= a < b < |o.attempts| && o.attempts[a].cause == None && o.attempts[b].cause == None
          ==> IdOf(a) != IdOf(b))
    && (forall a :: 0 <= a < |o.attempts| && o.attempts[a].cause == None ==> now <= o.attempts[a].due)
  }

  lemma ExactIds(o: Out, now: int)
    requires Indexed(o) && Exact(o) && Timely(o, now)
    ensures IdsExact(o, now)
  {
    forall a, b | 0 <= a < b < |o.attempts| && o.attempts[a].cause == None && o.attempts[b].cause == None
      ensures IdOf(a) != IdOf(b)
    {
      assert Pending(o, a) && Pending(o, b);
    }
    forall a | 0 <= a < |o.attempts| && o.attempts[a].cause == None ensures now <= o.attempts[a].due {
      assert AttemptTimely(o.attempts[a], o.calls[o.attempts[a].call], now);
    }
  }

  /** Holds of every run in which fewer than 2^31 ids are drawn in any one attempt's life. */
  lemma PendingIsUnsettled(cfg: Config, t: int, ts: seq<Timed>)
    requires WindowedRun(cfg, Initial(t), ts)
    ensures LegalRun(cfg, Initial(t), ts)
    ensures IdsExact(Run(cfg, Initial(t), ts).out, Run(cfg, Initial(t), ts).now)
  {
    InitialKeeps(cfg, t);
    RunExact(cfg, Initial(t), ts);
    var s := Run(cfg, Initial(t), ts);
    ExactIds(s.out, s.now);
  }

  // ---------------------------------------------------------------- what settles an attempt

  /** The cause an event gives unsettled attempt `a`: its own response, its own timer, or the socket closing. */
  function CauseGiven(e: Event, a: nat): Option<Cause> {
    match e
    case ResponseArrives(id, _) => if id == IdOf(a) then Some(ByResponse) else None
    case AttemptTimer(b) => if a == b then Some(ByTimer) else None
    case TransportCloses => Some(ByClose)
    case _ => None
  }

  lemma {:induction false} TryAllAppends(o: Out, cs: seq<nat>, up: bool, epoch: nat, now: int)
    requires forall i :: 0 <= i < |cs| ==> cs[i] < |o.calls|
    ensures o.attempts <= TryAll(o, cs, up, epoch, now).attempts
    decreases |cs|
  {
    if cs != [] {
      TryAllAppends(Try(o, cs[0], up, epoch, now), cs[1..], up, epoch, now);
    }
  }

  lemma ContinueAppends(s: State, kind: Kind, ok: bool)
    requires Linked(s.out)
    ensures s.out.attempts <= Continue(s, kind, ok).out.attempts
  {
    TryAllAppends(s.out.(waiting := []), s.out.waiting, s.link.connected, s.Epoch(), s.now);
  }

  lemma {:induction false} FailRestAppends(o: Out, queue: seq<string>, epoch: nat, now: int)
    ensures FailRest(o, queue, epoch, now).attempts == o.attempts
    decreases |queue|
  {
    if queue != [] {
      FailRestAppends(Start(o, Replay(queue[0]), DEFAULT_TIMEOUT_MS, false, false, epoch, now), queue[1..], epoch, now);
    }
  }

  lemma DropCauses(o: Out, a: nat, b: nat, now: int)
    requires Sound(o, []) && a < |o.attempts| && b < |o.attempts|
    ensures Drop(o, a, now).attempts[b].cause == if a == b && Pending(o, a) then Some(ByClose) else o.attempts[b].cause
    ensures Pending(Drop(o, a, now), b) ==> Pending(o, b)
    ensures a != b && Pending(o, b) ==> Pending(Drop(o, a, now), b)
  {
    DropPending(o, a, now);
    if a != b && Pending(o, b) && Pending(o, a) {
      assert IdOf(a) != IdOf(b);
    }
  }

  lemma {:induction false} DropFromCauses(o: Out, a: nat, b: nat, epoch: nat, now: int)
    requires Inv(o, [], false, epoch, now) && b < |o.attempts|
    ensures b < |DropFrom(o, a, now).attempts|
    ensures DropFrom(o, a, now).attempts[b].cause ==
      if a <= b && Pending(o, b) then Some(ByClose) else o.attempts[b].cause
    decreases |o.attempts| - a
  {
    if a < |o.attempts| {
      DropInv(o, a, epoch, now);
      DropCauses(o, a, b, now);
      DropFromCauses(Drop(o, a, now), a + 1, b, epoch, now);
    }
  }

  lemma CloseCauses(cfg: Config, s: State, a: nat)
    requires OutInv(s) && s.link.connected && Linked(s.out) && a < |s.out.attempts| && Pending(s.out, a)
    ensures
      var ts := OnTransportClose(cfg, s).out.attempts;
      a < |ts| && ts[a].cause == Some(ByClose)
  {
    GoDown(s.out, s.Epoch(), s.now);
    DropFromCauses(s.out, 0, a, s.Epoch(), s.now);
    if s.reg.replay.Some? {
      var dropped := DropFrom(s.out, 0, s.now);
      var failed := FailRest(dropped, s.reg.replay.value.queue, s.Epoch(), s.now);
      FailRestAppends(dropped, s.reg.replay.value.queue, s.Epoch(), s.now);
      TryAllAppends(failed.(waiting := []), failed.waiting, false, s.Epoch(), s.now);
    }
  }

  /**
    Each attempt is settled by exactly one of its own response, its own timer and the socket closing: in
    every turn an unsettled attempt gets the cause of that event, or stays unsettled if it is none of them.
   */
  lemma SettledByItsCause(cfg: Config, s: State, e: Event, a: nat)
    requires SysInv(cfg, s) && Exact(s.out) && Linked(s.out) && Enabled(s, e)
    requires a < |s.out.attempts| && s.out.attempts[a].cause == None
    ensures GetsCause(Turn(cfg, s, e).out, a, CauseGiven(e, a))
  {
    assert Pending(s.out, a);
    if e.ResponseArrives? {
      ResponseCauses(s, e.id, e.ok, a);
    } else if e.AttemptTimer? {
      ContinueAppends(s.(out := Expire(s.out, e.attempt, s.now)), s.out.calls[s.out.attempts[e.attempt].call].kind,
        false);
    } else if e.TransportCloses? {
      CloseCauses(cfg, s, a);
    } else if e.ConnectSucceeds? {
      assert false;
    } else {
      QuietCauses(cfg, s, e, a);
    }
  }

  predicate GetsCause(o: Out, a: nat, cause: Option<Cause>) { a < |o.attempts| && o.attempts[a].cause == cause }

  lemma ResponseCauses(s: State, id: nat, ok: bool, a: nat)
    requires OutInv(s) && Linked(s.out) && a < |s.out.attempts| && s.out.attempts[a].cause == None && Pending(s.out, a)
    ensures GetsCause(OnResponse(s, id, ok).out, a, CauseGiven(ResponseArrives(id, ok), a))
  {
    if id in s.out.pending {
      assert PendingSound(s.out, id);
      var kind := s.out.calls[s.out.attempts[s.out.pending[id]].call].kind;
      ContinueAppends(s.(out := Respond(s.out, id, ok, s.now)), kind, ok);
    }
  }

  /** Turns that settle no attempt. */
  lemma QuietCauses(cfg: Config, s: State, e: Event, a: nat)
    requires Linked(s.out) && Enabled(s, e) && a < |s.out.attempts| && s.out.attempts[a].cause == None
    requires !e.ResponseArrives? && !e.AttemptTimer? && !e.TransportCloses? && !e.ConnectSucceeds?
    ensures GetsCause(Turn(cfg, s, e).out, a, None)
  {
    if e.RouterHandles? { assert OnRouter(s, e.attempt).out == s.out; }
  }
}
