/** Which names the router has: between those whose registration it acknowledged and those it was asked for. */
module BridgeNames {
  import opened Common
  import opened Options
  import opened Outbound
  import opened BridgeState
  import opened BridgeRuns

  predicate Acked(k: Call) { k.phase.Settled? && k.phase.outcome == Answered(true) }

  /** Attempt `a` asked the router for `name` on connection `epoch`. */
  predicate Asks(o: Out, a: nat, epoch: nat, name: string)
    requires Indexed(o) && a < |o.attempts|
  {
    var kind := o.calls[o.attempts[a].call].kind;
    o.attempts[a].epoch == epoch && Registers(kind) && kind.name == name
  }

  /** A `$/register` REQUEST for `name` went out on that connection. */
  ghost predicate AskedOn(o: Out, epoch: nat, name: string)
    requires Indexed(o)
  {
    exists a :: 0 <= a < |o.attempts| && Asks(o, a, epoch, name)
  }

  /** And was acknowledged. */
  ghost predicate AckedOn(o: Out, epoch: nat, name: string)
    requires Indexed(o)
  {
    exists a :: 0 <= a < |o.attempts| && Asks(o, a, epoch, name) && Acked(o.calls[o.attempts[a].call])
  }

  // ---------------------------------------------------------------- the invariant

  ghost predicate OnlyCloseResets(s: State) {
    forall c :: 0 <= c < |s.out.calls| && s.out.calls[c].kind.Reset? ==> s.link.closedByUs
  }

  ghost predicate Bracketed(s: State)
    requires Indexed(s.out)
  {
    && (forall a :: 0 <= a < |s.out.attempts| ==> AckRouted(s, a))
    && (forall name :: name in s.reg.routed ==> AskedOn(s.out, s.Epoch(), name))
  }

  predicate AckRouted(s: State, a: nat)
    requires Indexed(s.out) && a < |s.out.attempts|
  {
    var k := s.out.calls[s.out.attempts[a].call];
    s.out.attempts[a].epoch == s.Epoch() && Registers(k.kind) && Acked(k) ==> k.kind.name in s.reg.routed
  }

  ghost predicate Names(s: State) {
    && Indexed(s.out) && OnlyCloseResets(s)
    && (!s.link.connected ==> s.reg.routed == {})
    && (s.link.connected && !s.link.closedByUs ==> Bracketed(s))
  }

  // ---------------------------------------------------------------- calls that gain no answer

  /** No call is newly acknowledged, and none added is a reset. */
  ghost predicate AddsNoAnswer(o: Out, o': Out) {
    && |o.calls| <= |o'.calls|
    && forall c :: 0 <= c < |o'.calls| ==>
         && (Acked(o'.calls[c]) ==> c < |o.calls| && o'.calls[c].phase == o.calls[c].phase)
         && (o'.calls[c].kind.Reset? ==> c < |o.calls| && o.calls[c].kind.Reset?)
  }

  lemma AddsTrans(o: Out, o1: Out, o2: Out)
    requires AddsNoAnswer(o, o1) && AddsNoAnswer(o1, o2)
    ensures AddsNoAnswer(o, o2)
  {
  }

  lemma TryAdds(o: Out, c: nat, up: bool, epoch: nat, now: int)
    requires c < |o.calls|
    ensures AddsNoAnswer(o, Try(o, c, up, epoch, now))
  {
  }

  lemma {:induction false} TryAllAdds(o: Out, cs: seq<nat>, up: bool, epoch: nat, now: int)
    requires forall i :: 0 <= i < |cs| ==> cs[i] < |o.calls|
    ensures AddsNoAnswer(o, TryAll(o, cs, up, epoch, now))
    decreases |cs|
  {
    if cs != [] {
      TryAdds(o, cs[0], up, epoch, now);
      TryAllAdds(Try(o, cs[0], up, epoch, now), cs[1..], up, epoch, now);
      AddsTrans(o, Try(o, cs[0], up, epoch, now), TryAll(o, cs, up, epoch, now));
    }
  }

  lemma EmitAdds(o: Out, up: bool, epoch: nat, now: int)
    requires Linked(o)
    ensures AddsNoAnswer(o, Emit(o, up, epoch, now))
  {
    TryAllAdds(o.(waiting := []), o.waiting, up, epoch, now);
  }

  lemma StartNoAnswer(o: Out, kind: Kind, timeoutMs: int, idempotent: bool, up: bool, epoch: nat, now: int)
    requires !kind.Reset?
    ensures AddsNoAnswer(o, Start(o, kind, timeoutMs, idempotent, up, epoch, now))
  {
    var o1 := Created(o, kind, timeoutMs, idempotent, now);
    TryAdds(o1, |o.calls|, up, epoch, now);
    AddsTrans(o, o1, Start(o, kind, timeoutMs, idempotent, up, epoch, now));
  }

  lemma {:induction false} FailRestAdds(o: Out, queue: seq<string>, epoch: nat, now: int)
    ensures AddsNoAnswer(o, FailRest(o, queue, epoch, now))
    decreases |queue|
  {
    if queue != [] {
      var o1 := Start(o, Replay(queue[0]), DEFAULT_TIMEOUT_MS, false, false, epoch, now);
      StartNoAnswer(o, Replay(queue[0]), DEFAULT_TIMEOUT_MS, false, false, epoch, now);
      FailRestAdds(o1, queue[1..], epoch, now);
      AddsTrans(o, o1, FailRest(o, queue, epoch, now));
    }
  }

  lemma {:induction false} DropFromAdds(o: Out, a: nat, now: int)
    requires Indexed(o)
    ensures AddsNoAnswer(o, DropFrom(o, a, now))
    decreases |o.attempts| - a
  {
    if a < |o.attempts| {
      DropAdds(o, a, now);
      DropFromAdds(Drop(o, a, now), a + 1, now);
      AddsTrans(o, Drop(o, a, now), DropFrom(o, a, now));
    }
  }

  lemma DropAdds(o: Out, a: nat, now: int)
    requires Indexed(o) && a < |o.attempts|
    ensures AddsNoAnswer(o, Drop(o, a, now))
  {
  }

  lemma CloseCallsAdds(o: Out, replay: Option<Replaying>, epoch: nat, now: int)
    requires Linked(o)
    ensures AddsNoAnswer(o, CloseCalls(o, replay, epoch, now))
  {
    var dropped := DropFrom(o, 0, now);
    DropFromAdds(o, 0, now);
    if replay.Some? {
      var failed := FailRest(dropped, replay.value.queue, epoch, now);
      FailRestAdds(dropped, replay.value.queue, epoch, now);
      AddsTrans(o, dropped, failed);
      EmitAdds(failed, false, epoch, now);
      AddsTrans(o, failed, CloseCalls(o, replay, epoch, now));
    }
  }

  lemma NextNameAdds(s: State, queue: seq<string>, acked: bool)
    requires Linked(s.out)
    ensures AddsNoAnswer(s.out, NextName(s, queue, acked).out) && NextName(s, queue, acked).reg.routed == s.reg.routed
  {
    if queue == [] {
      EmitAdds(s.out, s.link.connected, s.Epoch(), s.now);
    } else {
      StartNoAnswer(s.out, Replay(queue[0]), DEFAULT_TIMEOUT_MS, false, s.link.connected, s.Epoch(), s.now);
    }
  }

  lemma ContinueAdds(s: State, kind: Kind, ok: bool)
    requires Linked(s.out)
    ensures AddsNoAnswer(s.out, Continue(s, kind, ok).out) && Continue(s, kind, ok).reg.routed == s.reg.routed
  {
    if kind.Replay? && s.reg.replay.Some? {
      NextNameAdds(s, s.reg.replay.value.queue, s.reg.replay.value.acked && ok);
    }
  }

  // ---------------------------------------------------------------- every turn

  /** A turn that leaves the router alone and gains no answer. */
  lemma GrowNames(s: State, s': State)
    requires Names(s) && Within(s, s') && AddsNoAnswer(s.out, s'.out) && s'.reg.routed == s.reg.routed
    ensures Names(s')
  {
    assert Indexed(s'.out) by { SoundLinked(s'.out); }
    if s.link.connected && !s.link.closedByUs {
      GrowsKeeps(s.out, s'.out, s.link.connected, s.Epoch(), s.now);
      forall a | 0 <= a < |s'.out.attempts| ensures AckRouted(s', a) { AckKept(s, s', a); }
      forall name | name in s'.reg.routed
        ensures AskedOn(s'.out, s'.Epoch(), name)
      {
        AskedKept(s.out, s'.out, s.Epoch(), name);
      }
    }
  }

  lemma AckKept(s: State, s': State, a: nat)
    requires Indexed(s.out) && Indexed(s'.out) && Bracketed(s) && a < |s'.out.attempts|
    requires Grows(s.out, s'.out, s.link.connected, s.Epoch(), s.now) && AddsNoAnswer(s.out, s'.out)
    requires s'.reg.routed == s.reg.routed && s'.Epoch() == s.Epoch()
    ensures AckRouted(s', a)
  {
    if a < |s.out.attempts| {
      assert AckRouted(s, a) && SameAttempt(s.out.attempts[a], s'.out.attempts[a]);
      assert SameCall(s.out.calls[s.out.attempts[a].call], s'.out.calls[s.out.attempts[a].call]);
    } else {
      assert FreshAttempt(s.out, s'.out.attempts[a], s.link.connected, s.Epoch(), s.now);
    }
  }

  /** Attempts and kinds are kept, and calls acknowledged stay so. */
  ghost predicate Keeps(o: Out, o': Out)
    requires Indexed(o) && Indexed(o')
  {
    && |o.attempts| <= |o'.attempts| && |o.calls| <= |o'.calls|
    && (forall a :: 0 <= a < |o.attempts| ==>
         o'.attempts[a].call == o.attempts[a].call && o'.attempts[a].epoch == o.attempts[a].epoch)
    && (forall c :: 0 <= c < |o.calls| ==>
         o'.calls[c].kind == o.calls[c].kind && (Acked(o.calls[c]) ==> Acked(o'.calls[c])))
  }

  lemma AskedKept(o: Out, o': Out, epoch: nat, name: string)
    requires Indexed(o) && Indexed(o') && Keeps(o, o')
    ensures AskedOn(o, epoch, name) ==> AskedOn(o', epoch, name)
    ensures AckedOn(o, epoch, name) ==> AckedOn(o', epoch, name)
  {
    if AckedOn(o, epoch, name) {
      var a :| 0 <= a < |o.attempts| && Asks(o, a, epoch, name) && Acked(o.calls[o.attempts[a].call]);
      assert Asks(o', a, epoch, name);
    }
    if AskedOn(o, epoch, name) {
      var a :| 0 <= a < |o.attempts| && Asks(o, a, epoch, name);
      assert Asks(o', a, epoch, name);
    }
  }

  lemma GrowsKeeps(o: Out, o': Out, up: bool, epoch: nat, now: int)
    requires Indexed(o) && Indexed(o') && Grows(o, o', up, epoch, now)
    ensures Keeps(o, o')
  {
    forall a | 0 <= a < |o.attempts|
      ensures o'.attempts[a].call == o.attempts[a].call && o'.attempts[a].epoch == o.attempts[a].epoch
    {
      assert SameAttempt(o.attempts[a], o'.attempts[a]);
    }
    forall c | 0 <= c < |o.calls|
      ensures o'.calls[c].kind == o.calls[c].kind && (Acked(o.calls[c]) ==> Acked(o'.calls[c]))
    {
      assert SameCall(o.calls[c], o'.calls[c]);
    }
  }

  /** The router acknowledges only what it has registered. */
  lemma AnswerRouted(s: State, id: nat, ok: bool, a: nat)
    requires Linked(s.out) && Enabled(s, ResponseArrives(id, ok)) && id in s.out.pending
    requires a < |s.out.attempts| && AckRouted(s, a)
    ensures AckRouted(s.(out := Respond(s.out, id, ok, s.now)), a)
  {
  }

  lemma AnswerNames(s: State, id: nat, ok: bool)
    requires Names(s) && OutInv(s) && Linked(s.out) && Enabled(s, ResponseArrives(id, ok)) && id in s.out.pending
    ensures Names(s.(out := Respond(s.out, id, ok, s.now)))
  {
    if !s.link.closedByUs { AnswerBrackets(s, id, ok); }
  }

  lemma AnswerBrackets(s: State, id: nat, ok: bool)
    requires Indexed(s.out) && Bracketed(s) && OutInv(s) && Linked(s.out)
    requires Enabled(s, ResponseArrives(id, ok)) && id in s.out.pending
    ensures Bracketed(s.(out := Respond(s.out, id, ok, s.now)))
  {
    var s' := s.(out := Respond(s.out, id, ok, s.now));
    RespondKeeps(s.out, id, ok, s.link.connected, s.Epoch(), s.now);
    GrowsKeeps(s.out, s'.out, s.link.connected, s.Epoch(), s.now);
    forall a | 0 <= a < |s'.out.attempts| ensures AckRouted(s', a) { AnswerRouted(s, id, ok, a); }
    forall name | name in s'.reg.routed
      ensures AskedOn(s'.out, s'.Epoch(), name)
    {
      AskedKept(s.out, s'.out, s.Epoch(), name);
    }
  }

  lemma ResponseNames(s: State, id: nat, ok: bool)
    requires Names(s) && OutInv(s) && Linked(s.out) && Enabled(s, ResponseArrives(id, ok))
    ensures Names(OnResponse(s, id, ok))
  {
    if id in s.out.pending {
      var kind := s.out.calls[s.out.attempts[s.out.pending[id]].call].kind;
      var s1 := s.(out := Respond(s.out, id, ok, s.now));
      RespondKeeps(s.out, id, ok, s.link.connected, s.Epoch(), s.now);
      AnswerNames(s, id, ok);
      ContinueWithin(s1, kind, ok);
      ContinueAdds(s1, kind, ok);
      GrowNames(s1, OnResponse(s, id, ok));
    }
  }

  lemma TimerNames(s: State, a: nat)
    requires Names(s) && OutInv(s) && Linked(s.out) && a < |s.out.attempts| && s.out.attempts[a].cause == None
    ensures Names(OnAttemptTimer(s, a))
  {
    var s1 := s.(out := Expire(s.out, a, s.now));
    TimerWithin(s, a);
    ContinueAdds(s1, s.out.calls[s.out.attempts[a].call].kind, false);
    AddsTrans(s.out, s1.out, OnAttemptTimer(s, a).out);
    GrowNames(s, OnAttemptTimer(s, a));
  }

  lemma StartNames(s: State, kind: Kind, timeoutMs: int, idempotent: bool)
    requires Names(s) && OutInv(s) && !kind.Reset?
    ensures Names(StartCall(s, kind, timeoutMs, idempotent))
  {
    StartCallWithin(s, kind, timeoutMs, idempotent);
    StartNoAnswer(s.out, kind, timeoutMs, idempotent, s.link.connected, s.Epoch(), s.now);
    GrowNames(s, StartCall(s, kind, timeoutMs, idempotent));
  }

  lemma SubscribeNames(s: State, name: string)
    requires Names(s) && OutInv(s)
    ensures Names(OnSubscribe(s, name))
  {
    var s1 := s.(reg := s.reg.(notify := s.reg.notify + {name}));
    SameNames(s, s1);
    StartNames(s1, Subscribe(name), DEFAULT_TIMEOUT_MS, false);
  }

  lemma SameNames(s: State, s': State)
    requires Names(s) && s'.out == s.out && s'.reg.routed == s.reg.routed && s'.link.opens == s.link.opens
    requires s'.link.connected == s.link.connected && s'.link.closedByUs == s.link.closedByUs
    ensures Names(s')
  {
    if s.link.connected && !s.link.closedByUs {
      forall a | 0 <= a < |s'.out.attempts| ensures AckRouted(s', a) { assert AckRouted(s, a); }
      forall name | name in s'.reg.routed
        ensures AskedOn(s'.out, s'.Epoch(), name)
      {
        AskedKept(s.out, s'.out, s.Epoch(), name);
      }
    }
  }

  lemma BudgetNames(s: State, c: nat)
    requires Names(s) && OutInv(s) && c < |s.out.calls| && s.out.calls[c].phase.Waiting?
    ensures Names(s.(out := GiveUp(s.out, c, s.now)))
  {
    BudgetWithin(s, c);
    GrowNames(s, s.(out := GiveUp(s.out, c, s.now)));
  }

  lemma CallTurnNames(cfg: Config, s: State, e: Event)
    requires Names(s) && SysInv(cfg, s) && Linked(s.out) && Enabled(s, e)
    requires CallTurn(e)
    ensures Names(Turn(cfg, s, e))
  {
    match e
    case CallStarts(timeoutMs, idempotent) => StartNames(s, User, timeoutMs, idempotent);
    case ProvideCalled(name, handler) =>
      SameNames(s, s.(reg := s.reg.(providers := s.reg.providers[name := handler])));
      StartNames(s, Provide(name, handler), DEFAULT_TIMEOUT_MS, false);
    case OnNotifyCalled(name) => SubscribeNames(s, name);
    case ResponseArrives(id, ok) => ResponseNames(s, id, ok);
    case AttemptTimer(a) => TimerNames(s, a);
    case BudgetTimer(c) => BudgetNames(s, c);
  }

  lemma CloseNames(cfg: Config, s: State)
    requires Names(s) && OutInv(s) && Linked(s.out) && s.link.connected
    ensures Names(OnTransportClose(cfg, s))
  {
    CloseOut(cfg, s);
    CloseCallsAdds(s.out, s.reg.replay, s.Epoch(), s.now);
    var s' := OnTransportClose(cfg, s);
    assert Indexed(s'.out) by { SoundLinked(s'.out); }
    assert !s'.link.connected && s'.link.closedByUs == s.link.closedByUs;
  }

  lemma ConnectNames(cfg: Config, s: State, names: seq<string>)
    requires Names(s) && SysInv(cfg, s) && Linked(s.out) && s.link.connecting
    ensures Names(OnConnectSuccess(s, names))
  {
    var l := s.link.(connecting := false, connected := true, writable := true, reconnectAttempt := 0,
                     opens := s.link.opens + [s.now]);
    var s1 := s.(link := l, reg := s.reg.(sent := [], snapshot := names));
    ComeUp(s.out, s.Epoch(), s.now);
    forall a | 0 <= a < |s1.out.attempts| ensures AckRouted(s1, a) { assert OnConnection(s.out.attempts[a], s.link); }
    assert Names(s1);
    NextNameWithin(s1, names, true);
    NextNameAdds(s1, names, true);
    GrowNames(s1, OnConnectSuccess(s, names));
  }

  lemma RouterNames(s: State, a: nat)
    requires Names(s) && Linked(s.out) && Enabled(s, RouterHandles(a))
    ensures Names(OnRouter(s, a))
  {
    var s' := OnRouter(s, a);
    var kind := s.out.calls[s.out.attempts[a].call].kind;
    if !s.link.closedByUs {
      forall b | 0 <= b < |s'.out.attempts| ensures AckRouted(s', b) { assert AckRouted(s, b); }
      forall name | name in s'.reg.routed ensures AskedOn(s'.out, s'.Epoch(), name) {
        if name in s.reg.routed {
          AskedKept(s.out, s'.out, s.Epoch(), name);
        } else {
          assert Asks(s'.out, a, s'.Epoch(), name);
        }
      }
    }
  }

  lemma OurCloseNames(s: State)
    requires Names(s) && OutInv(s)
    ensures Names(OnClose(s))
  {
    if s.link.connected { assert Indexed(OnClose(s).out) by { SoundLinked(s.out); } }
  }

  lemma TurnNames(cfg: Config, s: State, e: Event)
    requires Names(s) && SysInv(cfg, s) && Linked(s.out) && Enabled(s, e)
    ensures Names(Turn(cfg, s, e))
  {
    if e.TransportCloses? {
      CloseNames(cfg, s);
    } else if e.ConnectSucceeds? {
      ConnectNames(cfg, s, e.names);
    } else if e.RouterHandles? {
      RouterNames(s, e.attempt);
    } else if e.CloseCalled? {
      OurCloseNames(s);
    } else if QuietTurn(e) {
      SameNames(s, Turn(cfg, s, e));
    } else {
      CallTurnNames(cfg, s, e);
    }
  }

  // ---------------------------------------------------------------- every run

  lemma {:induction false} RunNames(cfg: Config, s: State, ts: seq<Timed>)
    requires Names(s) && SysInv(cfg, s) && LegalRun(cfg, s, ts)
    ensures Names(Run(cfg, s, ts))
    decreases |ts|
  {
    if ts != [] {
      StepKeeps(cfg, s, ts[0]);
      WaitKeeps(cfg, s, ts[0].at);
      SameNames(s, s.(now := ts[0].at));
      TurnNames(cfg, s.(now := ts[0].at), ts[0].event);
      RunNames(cfg, Step(cfg, s, ts[0]), ts[1..]);
    }
  }

  lemma ReachableNames(cfg: Config, s: State)
    requires Reachable(cfg, s)
    ensures Names(s)
  {
    var t, ts :| LegalRun(cfg, Initial(t), ts) && Run(cfg, Initial(t), ts) == s;
    InitialKeeps(cfg, t);
    RunNames(cfg, Initial(t), ts);
  }

  /**
    In every run, while connected and before close(), the router has every name whose `$/register` it
    acknowledged on this connection, whatever became of other names, and no name it was not asked for on it.
    It may have a name whose acknowledgement was lost or is still to come.
   */
  lemma AcknowledgedAreRouted(cfg: Config, s: State, name: string)
    requires Reachable(cfg, s) && s.link.connected && !s.link.closedByUs
    ensures Indexed(s.out)
    ensures AckedOn(s.out, s.Epoch(), name) ==> name in s.reg.routed
    ensures name in s.reg.routed ==> AskedOn(s.out, s.Epoch(), name)
  {
    ReachableNames(cfg, s);
    if AckedOn(s.out, s.Epoch(), name) {
      var a :| 0 <= a < |s.out.attempts| && Asks(s.out, a, s.Epoch(), name) &&
        Acked(s.out.calls[s.out.attempts[a].call]);
      assert AckRouted(s, a);
    }
  }
}
