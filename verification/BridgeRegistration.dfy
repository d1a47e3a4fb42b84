/** Registrations: the replay after a reconnect brings the router back in step with the local handlers. */
module BridgeRegistration {
  import opened Common
  import opened Options
  import opened Outbound
  import opened BridgeState
  import opened BridgeRuns
  import opened BridgeSettlement
  import opened BridgeNames

  // ---------------------------------------------------------------- the invariant

  /** Only user calls are retried, and only close() sends a reset. */
  ghost predicate KindsOk(s: State) {
    forall c :: 0 <= c < |s.out.calls| ==>
      && (!s.out.calls[c].kind.User? ==> !s.out.calls[c].idempotent)
      && (s.out.calls[c].kind.Reset? ==> s.link.closedByUs)
  }

  function Queue(reg: Reg): seq<string> {
    if reg.replay.Some? then reg.replay.value.queue else []
  }

  /** The replay under way awaits the one unsettled replay call, for the name it sent last. */
  ghost predicate ReplayOk(s: State) {
    && (s.reg.replay.Some? ==> s.link.connected && Awaits(s, s.reg.replay.value.call))
    && (forall c :: 0 <= c < |s.out.calls| && s.out.calls[c].kind.Replay? && !s.out.calls[c].phase.Settled? ==>
          s.reg.replay.Some? && c == s.reg.replay.value.call)
    && (!s.link.connected ==> s.reg.replay == None && !s.reg.synced)
    && (s.link.connected ==> s.reg.sent + Queue(s.reg) == s.reg.snapshot && NoRepeats(s.reg.snapshot))
  }

  ghost predicate Awaits(s: State, c: nat) {
    && s.reg.sent != [] && c < |s.out.calls|
    && s.out.calls[c].kind == Replay(s.reg.sent[|s.reg.sent| - 1]) && s.out.calls[c].phase.InFlight?
  }

  /** The names of the last replay whose calls are settled. */
  function Through(reg: Reg): seq<string> {
    if reg.replay.Some? && reg.sent != [] then reg.sent[..|reg.sent| - 1] else reg.sent
  }

  /**
    Every provider was acknowledged on this connection or is for the last replay to register; and while that
    replay had every name acknowledged, those behind it were acknowledged on this connection.
   */
  ghost predicate Covered(o: Out, epoch: nat, reg: Reg)
    requires Indexed(o)
  {
    && (forall p :: p in reg.providers ==> p in reg.snapshot || AckedOn(o, epoch, p))
    && ((if reg.replay.Some? then reg.replay.value.acked else reg.synced) ==>
          forall p :: p in Through(reg) ==> AckedOn(o, epoch, p))
  }

  ghost predicate RegInv(s: State) {
    && Indexed(s.out) && KindsOk(s) && ReplayOk(s)
    && (s.link.connected && !s.link.closedByUs ==> Covered(s.out, s.Epoch(), s.reg))
  }

  /** RegInv between settling one replayed name and moving on to the next. */
  ghost predicate Between(s: State, queue: seq<string>, acked: bool) {
    && Indexed(s.out) && KindsOk(s) && s.link.connected
    && (forall c :: 0 <= c < |s.out.calls| && s.out.calls[c].kind.Replay? ==> s.out.calls[c].phase.Settled?)
    && s.reg.sent + queue == s.reg.snapshot && NoRepeats(s.reg.snapshot)
    && (!s.link.closedByUs ==>
          && (forall p :: p in s.reg.providers ==> p in s.reg.snapshot || AckedOn(s.out, s.Epoch(), p))
          && (acked ==> forall p :: p in s.reg.sent ==> AckedOn(s.out, s.Epoch(), p)))
  }

  // ---------------------------------------------------------------- continuations

  /** `o'` has the calls of `o`, with kinds unchanged and non-user calls untouched. */
  ghost predicate OnlyUsersMove(o: Out, o': Out) {
    && |o'.calls| == |o.calls|
    && (forall c :: 0 <= c < |o.calls| ==>
          && o'.calls[c].kind == o.calls[c].kind && o'.calls[c].idempotent == o.calls[c].idempotent
          && (!o.calls[c].kind.User? ==> o'.calls[c] == o.calls[c]))
  }

  lemma {:induction false} TryAllUsers(o: Out, cs: seq<nat>, up: bool, epoch: nat, now: int)
    requires forall i :: 0 <= i < |cs| ==> cs[i] < |o.calls| && o.calls[cs[i]].kind.User?
    ensures OnlyUsersMove(o, TryAll(o, cs, up, epoch, now))
    decreases |cs|
  {
    if cs != [] {
      TryAllUsers(Try(o, cs[0], up, epoch, now), cs[1..], up, epoch, now);
    }
  }

  lemma EmitUsers(o: Out, up: bool, epoch: nat, now: int)
    requires Sound(o, []) && Linked(o)
    requires forall c :: 0 <= c < |o.calls| && !o.calls[c].kind.User? ==> !o.calls[c].idempotent
    ensures OnlyUsersMove(o, Emit(o, up, epoch, now))
  {
    forall i | 0 <= i < |o.waiting| ensures o.waiting[i] < |o.calls| && o.calls[o.waiting[i]].kind.User? {
      assert o.waiting[i] in o.waiting;
    }
    TryAllUsers(o.(waiting := []), o.waiting, up, epoch, now);
  }

  /** One call more, of the given kind; a call not to be retried is in flight or already failed. */
  lemma StartAdds(s: State, kind: Kind, timeoutMs: int, idempotent: bool)
    ensures
      var n, o' := |s.out.calls|, StartCall(s, kind, timeoutMs, idempotent).out;
      && |o'.calls| == n + 1 && (forall c :: 0 <= c < n ==> o'.calls[c] == s.out.calls[c])
      && o'.calls[n].kind == kind && o'.calls[n].idempotent == idempotent
      && (s.link.connected ==> o'.calls[n].phase.InFlight?)
      && (!s.link.connected && !idempotent ==> o'.calls[n].phase.Settled?)
  {
  }

  lemma StartOtherKeeps(s: State, kind: Kind, timeoutMs: int, idempotent: bool)
    requires OutInv(s) && RegInv(s) && !kind.Replay?
    requires (kind.Reset? ==> s.link.closedByUs) && (!kind.User? ==> !idempotent)
    ensures RegInv(StartCall(s, kind, timeoutMs, idempotent))
  {
    StartAdds(s, kind, timeoutMs, idempotent);
    StartCallWithin(s, kind, timeoutMs, idempotent);
    CoveredKept(s, StartCall(s, kind, timeoutMs, idempotent));
  }

  /** A continuation that moves no registration leaves the names covered. */
  lemma CoveredKept(s: State, s': State)
    requires Indexed(s.out) && Within(s, s') && s'.reg == s.reg
    ensures Indexed(s'.out) && s'.Epoch() == s.Epoch()
    ensures Covered(s.out, s.Epoch(), s.reg) ==> Covered(s'.out, s'.Epoch(), s'.reg)
  {
    SoundLinked(s'.out);
    GrowsKeeps(s.out, s'.out, s.link.connected, s.Epoch(), s.now);
    forall p
      ensures AckedOn(s.out, s.Epoch(), p) ==> AckedOn(s'.out, s'.Epoch(), p)
    {
      AskedKept(s.out, s'.out, s.Epoch(), p);
    }
  }

  lemma NextNameKeeps(s: State, queue: seq<string>, acked: bool)
    requires OutInv(s) && Linked(s.out) && Between(s, queue, acked)
    ensures RegInv(NextName(s, queue, acked))
  {
    if queue == [] {
      LastNameKeeps(s, acked);
    } else {
      MoreNamesKeep(s, queue, acked);
    }
  }

  lemma LastNameKeeps(s: State, acked: bool)
    requires OutInv(s) && Linked(s.out) && Between(s, [], acked)
    ensures RegInv(NextName(s, [], acked))
  {
    LastNameKinds(s, acked);
    LastNameCovered(s, acked);
  }

  lemma LastNameKinds(s: State, acked: bool)
    requires OutInv(s) && Linked(s.out) && Between(s, [], acked)
    ensures KindsOk(NextName(s, [], acked)) && ReplayOk(NextName(s, [], acked))
  {
    EmitUsers(s.out, s.link.connected, s.Epoch(), s.now);
    assert s.reg.sent + [] == s.reg.sent;
  }

  lemma LastNameCovered(s: State, acked: bool)
    requires OutInv(s) && Linked(s.out) && Between(s, [], acked)
    ensures
      var s' := NextName(s, [], acked);
      Indexed(s'.out) && (s'.link.connected && !s'.link.closedByUs ==> Covered(s'.out, s'.Epoch(), s'.reg))
  {
    var s1 := s.(reg := s.reg.(replay := None, synced := acked));
    assert s.link.connected && !s.link.closedByUs ==> Covered(s1.out, s1.Epoch(), s1.reg);
    EmitCovered(s1);
  }

  lemma EmitCovered(s: State)
    requires OutInv(s) && Linked(s.out) && Indexed(s.out)
    requires s.link.connected && !s.link.closedByUs ==> Covered(s.out, s.Epoch(), s.reg)
    ensures
      var s' := EmitReconnect(s);
      && Indexed(s'.out) && s'.reg == s.reg && s'.link == s.link
      && (s'.link.connected && !s'.link.closedByUs ==> Covered(s'.out, s'.Epoch(), s'.reg))
  {
    EmitWithin(s);
    CoveredKept(s, EmitReconnect(s));
  }

  lemma MoreNamesKeep(s: State, queue: seq<string>, acked: bool)
    requires OutInv(s) && Linked(s.out) && queue != [] && Between(s, queue, acked)
    ensures RegInv(NextName(s, queue, acked))
  {
    var s1 := s.(reg :=
      s.reg.(replay := Some(Replaying(queue[1..], |s.out.calls|, acked)), sent := s.reg.sent + [queue[0]]));
    StartAdds(s1, Replay(queue[0]), DEFAULT_TIMEOUT_MS, false);
    assert s.reg.sent + [queue[0]] + queue[1..] == s.reg.sent + queue;
    assert Through(s1.reg) == s.reg.sent;
    StartCallWithin(s1, Replay(queue[0]), DEFAULT_TIMEOUT_MS, false);
    CoveredKept(s1, NextName(s, queue, acked));
  }

  /** The state once call `c` has been settled, before its awaiter runs. */
  ghost predicate JustSettled(s: State, o': Out, c: nat) {
    && c < |s.out.calls| && |o'.calls| == |s.out.calls| && s.out.calls[c].phase.InFlight?
    && o'.calls[c].kind == s.out.calls[c].kind && o'.calls[c].idempotent == s.out.calls[c].idempotent
    && o'.calls[c].phase.Settled?
    && (forall k :: 0 <= k < |o'.calls| && k != c ==> o'.calls[k] == s.out.calls[k])
    && |o'.attempts| == |s.out.attempts|
    && (forall a :: 0 <= a < |o'.attempts| ==>
          o'.attempts[a].call == s.out.attempts[a].call && o'.attempts[a].epoch == s.out.attempts[a].epoch)
  }

  lemma SettledKeeps(s: State, o': Out, c: nat)
    requires Indexed(s.out) && Indexed(o') && JustSettled(s, o', c)
    ensures forall p :: AckedOn(s.out, s.Epoch(), p) ==> AckedOn(o', s.Epoch(), p)
  {
    forall p ensures AckedOn(s.out, s.Epoch(), p) ==> AckedOn(o', s.Epoch(), p) { AskedKept(s.out, o', s.Epoch(), p); }
  }

  lemma ReplayAnswered(s: State, o': Out, c: nat, ok: bool)
    requires RegInv(s) && Indexed(o') && JustSettled(s, o', c) && s.out.calls[c].kind.Replay?
    requires ok ==> AckedOn(o', s.Epoch(), s.out.calls[c].kind.name)
    ensures s.reg.replay.Some? && s.reg.replay.value.call == c
    ensures Between(s.(out := o'), s.reg.replay.value.queue, s.reg.replay.value.acked && ok)
  {
    assert s.reg.sent + Queue(s.reg) == s.reg.snapshot;
    SettledKeeps(s, o', c);
    assert s.reg.sent == Through(s.reg) + [s.reg.sent[|s.reg.sent| - 1]];
  }

  lemma ReplayContinues(s: State, o': Out, c: nat, ok: bool)
    requires RegInv(s) && OutInv(s.(out := o')) && Linked(o') && JustSettled(s, o', c)
    requires s.out.calls[c].kind.Replay? && (ok ==> AckedOn(o', s.Epoch(), s.out.calls[c].kind.name))
    ensures RegInv(Continue(s.(out := o'), s.out.calls[c].kind, ok))
  {
    ReplayAnswered(s, o', c, ok);
    NextNameKeeps(s.(out := o'), s.reg.replay.value.queue, s.reg.replay.value.acked && ok);
  }

  lemma OtherContinues(s: State, o': Out, c: nat, ok: bool)
    requires RegInv(s) && JustSettled(s, o', c) && Linked(o') && !s.out.calls[c].kind.Replay?
    requires ok && Registers(s.out.calls[c].kind) ==> AckedOn(o', s.Epoch(), s.out.calls[c].kind.name)
    ensures RegInv(Continue(s.(out := o'), s.out.calls[c].kind, ok))
  {
    OtherSettled(s, o', c);
    var kind := s.out.calls[c].kind;
    if kind.Provide? && ok { ProviderStored(s.(out := o'), kind.name, kind.handler); }
  }

  lemma OtherSettled(s: State, o': Out, c: nat)
    requires RegInv(s) && JustSettled(s, o', c) && Linked(o') && !s.out.calls[c].kind.Replay?
    ensures RegInv(s.(out := o'))
  {
    SettledKeeps(s, o', c);
  }

  lemma ProviderStored(s: State, name: string, handler: nat)
    requires RegInv(s) && AckedOn(s.out, s.Epoch(), name)
    ensures RegInv(s.(reg := s.reg.(providers := s.reg.providers[name := handler])))
  {
  }

  lemma ContinueKeepsReg(s: State, o': Out, c: nat, ok: bool)
    requires RegInv(s) && OutInv(s.(out := o')) && Linked(o') && JustSettled(s, o', c)
    requires ok && Registers(s.out.calls[c].kind) ==> AckedOn(o', s.Epoch(), s.out.calls[c].kind.name)
    ensures RegInv(Continue(s.(out := o'), s.out.calls[c].kind, ok))
  {
    if s.out.calls[c].kind.Replay? {
      ReplayContinues(s, o', c, ok);
    } else {
      OtherContinues(s, o', c, ok);
    }
  }

  /** The answer to an attempt acknowledges its call's name on the live connection. */
  lemma AnswerAcks(s: State, id: nat)
    requires OutInv(s) && Linked(s.out) && id in s.out.pending
    requires Registers(s.out.calls[s.out.attempts[s.out.pending[id]].call].kind)
    ensures
      var name := s.out.calls[s.out.attempts[s.out.pending[id]].call].kind.name;
      AckedOn(Respond(s.out, id, true, s.now), s.Epoch(), name)
  {
    var a, o' := s.out.pending[id], Respond(s.out, id, true, s.now);
    assert PendingSound(s.out, id) && Pending(s.out, a);
    assert Asks(o', a, s.Epoch(), o'.calls[o'.attempts[a].call].kind.name) && Acked(o'.calls[o'.attempts[a].call]);
  }

  lemma ResponseKeepsReg(s: State, id: nat, ok: bool)
    requires OutInv(s) && RegInv(s) && Linked(s.out) && Enabled(s, ResponseArrives(id, ok))
    ensures RegInv(OnResponse(s, id, ok))
  {
    if id in s.out.pending {
      var c := s.out.attempts[s.out.pending[id]].call;
      AnswerSettles(s, id, ok);
      if ok && Registers(s.out.calls[c].kind) { AnswerAcks(s, id); }
      ContinueKeepsReg(s, Respond(s.out, id, ok, s.now), c, ok);
    }
  }

  lemma AnswerSettles(s: State, id: nat, ok: bool)
    requires OutInv(s) && Linked(s.out) && id in s.out.pending
    ensures OutInv(s.(out := Respond(s.out, id, ok, s.now))) && Linked(Respond(s.out, id, ok, s.now))
    ensures JustSettled(s, Respond(s.out, id, ok, s.now), s.out.attempts[s.out.pending[id]].call)
  {
    assert PendingSound(s.out, id);
    RespondKeeps(s.out, id, ok, s.link.connected, s.Epoch(), s.now);
  }

  lemma TimerKeepsReg(s: State, a: nat)
    requires OutInv(s) && RegInv(s) && Linked(s.out) && a < |s.out.attempts| && s.out.attempts[a].cause == None
    ensures RegInv(OnAttemptTimer(s, a))
  {
    SettleKeeps(s.out, a, ByTimer, TimedOut, s.link.connected, s.Epoch(), s.now);
    ContinueKeepsReg(s, Expire(s.out, a, s.now), s.out.attempts[a].call, false);
  }

  // ---------------------------------------------------------------- connections

  lemma {:induction false} FailRestKinds(o: Out, queue: seq<string>, epoch: nat, now: int)
    ensures
      var o' := FailRest(o, queue, epoch, now);
      && |o.calls| <= |o'.calls|
      && (forall c :: 0 <= c < |o.calls| ==> o'.calls[c] == o.calls[c])
      && (forall c :: |o.calls| <= c < |o'.calls| ==> o'.calls[c].kind.Replay? && !o'.calls[c].idempotent)
    decreases |queue|
  {
    if queue != [] {
      var o1 := Start(o, Replay(queue[0]), DEFAULT_TIMEOUT_MS, false, false, epoch, now);
      assert |o1.calls| == |o.calls| + 1 && forall c :: 0 <= c < |o.calls| ==> o1.calls[c] == o.calls[c];
      assert o1.calls[|o.calls|].kind.Replay? && !o1.calls[|o.calls|].idempotent;
      FailRestKinds(o1, queue[1..], epoch, now);
    }
  }

  lemma {:induction false} DropFromKinds(o: Out, a: nat, now: int)
    requires Indexed(o)
    ensures
      var o' := DropFrom(o, a, now);
      && |o'.calls| == |o.calls|
      && (forall c :: 0 <= c < |o.calls| ==>
           o'.calls[c].kind == o.calls[c].kind && o'.calls[c].idempotent == o.calls[c].idempotent)
    decreases |o.attempts| - a
  {
    if a < |o.attempts| {
      DropFromKinds(Drop(o, a, now), a + 1, now);
    }
  }

  /** Only user calls are retried. */
  ghost predicate OthersOnce(o: Out) {
    forall c :: 0 <= c < |o.calls| && !o.calls[c].kind.User? ==> !o.calls[c].idempotent
  }

  /** Calls keep their kinds, and new ones are replays not to be retried. */
  ghost predicate OnlyReplaysAdded(o: Out, o': Out) {
    && |o.calls| <= |o'.calls|
    && (forall c :: 0 <= c < |o.calls| ==>
         o'.calls[c].kind == o.calls[c].kind && o'.calls[c].idempotent == o.calls[c].idempotent)
    && (forall c :: |o.calls| <= c < |o'.calls| ==> o'.calls[c].kind.Replay? && !o'.calls[c].idempotent)
  }

  lemma AbandonKinds(o: Out, queue: seq<string>, epoch: nat, now: int)
    requires Inv(o, [], false, epoch, now) && Linked(o) && OthersOnce(o)
    ensures OnlyReplaysAdded(o, Emit(FailRest(o, queue, epoch, now), false, epoch, now))
  {
    FailRestKinds(o, queue, epoch, now);
    FailRestKeeps(o, queue, epoch, now);
    EmitUsers(FailRest(o, queue, epoch, now), false, epoch, now);
  }

  lemma CloseCallKinds(o: Out, replay: Option<Replaying>, epoch: nat, now: int)
    requires Inv(o, [], true, epoch, now) && Linked(o) && OthersOnce(o)
    ensures OnlyReplaysAdded(o, CloseCalls(o, replay, epoch, now))
  {
    GoDown(o, epoch, now);
    DropFromKinds(o, 0, now);
    DropFromKeeps(o, 0, epoch, now);
    if replay.Some? { AbandonKinds(DropFrom(o, 0, now), replay.value.queue, epoch, now); }
  }

  lemma CloseKinds(cfg: Config, s: State)
    requires OutInv(s) && Linked(s.out) && s.link.connected && KindsOk(s)
    ensures KindsOk(OnTransportClose(cfg, s))
  {
    CloseCallKinds(s.out, s.reg.replay, s.Epoch(), s.now);
  }

  lemma NothingUnsettled(o: Out)
    requires Exact(o) && o.pending == map[]
    ensures forall a :: 0 <= a < |o.attempts| ==> o.attempts[a].cause.Some?
  {
    assert forall a :: 0 <= a < |o.attempts| ==> !Pending(o, a);
  }

  /** With nothing unsettled, only calls awaiting 'reconnect' are left, and those are user calls. */
  lemma OnlyUsersLeft(o: Out)
    requires Sound(o, []) && Exact(o) && o.pending == map[]
    requires forall c :: 0 <= c < |o.calls| && !o.calls[c].kind.User? ==> !o.calls[c].idempotent
    ensures forall c :: 0 <= c < |o.calls| && !o.calls[c].kind.User? ==> o.calls[c].phase.Settled?
  {
    assert o.waiting + [] == o.waiting;
    NothingUnsettled(o);
    assert forall c :: 0 <= c < |o.calls| ==> !o.calls[c].phase.InFlight? || !Holds(o, o.calls[c].phase.attempt, c);
  }

  lemma CloseKeepsReg(cfg: Config, s: State)
    requires SysInv(cfg, s) && RegInv(s) && Exact(s.out) && Linked(s.out) && s.link.connected
    ensures RegInv(OnTransportClose(cfg, s))
  {
    CloseKinds(cfg, s);
    CloseOut(cfg, s);
    CloseExact(cfg, s);
    SoundLinked(OnTransportClose(cfg, s).out);
    OnlyUsersLeft(OnTransportClose(cfg, s).out);
    if cfg.reconnect && !s.link.closedByUs { ScheduleConnected(cfg, s); }
  }

  predicate Unmoved(l: Link, l': Link) {
    l'.connected == l.connected && l'.closedByUs == l.closedByUs && l'.opens == l.opens
  }

  lemma ScheduleConnected(cfg: Config, s: State)
    ensures forall l :: Unmoved(l, Schedule(cfg, l, s.now))
  {
  }

  lemma ConnectKeepsReg(cfg: Config, s: State, names: seq<string>)
    requires SysInv(cfg, s) && RegInv(s) && Exact(s.out) && Linked(s.out) && Enabled(s, ConnectSucceeds(names))
    ensures RegInv(OnConnectSuccess(s, names))
  {
    var l := s.link.(connecting := false, connected := true, writable := true, reconnectAttempt := 0,
                     opens := s.link.opens + [s.now]);
    var s1 := s.(link := l, reg := s.reg.(sent := [], snapshot := names));
    ComeUp(s.out, s.Epoch(), s.now);
    assert [] + names == names;
    assert Between(s1, names, true);
    NextNameKeeps(s1, names, true);
  }

  lemma CallTurnKeepsReg(cfg: Config, s: State, e: Event)
    requires OutInv(s) && RegInv(s) && Linked(s.out) && Enabled(s, e)
    requires CallTurn(e)
    ensures RegInv(Turn(cfg, s, e))
  {
    match e
    case CallStarts(timeoutMs, idempotent) => StartOtherKeeps(s, User, timeoutMs, idempotent);
    case ProvideCalled(name, handler) => ProvideKeepsReg(s, name, handler);
    case OnNotifyCalled(name) => SubscribeKeepsReg(s, name);
    case ResponseArrives(id, ok) => ResponseKeepsReg(s, id, ok);
    case AttemptTimer(a) => TimerKeepsReg(s, a);
    case BudgetTimer(c) => BudgetKeepsReg(s, c);
  }

  lemma ProvideKeepsReg(s: State, name: string, handler: nat)
    requires OutInv(s) && RegInv(s)
    ensures RegInv(OnProvide(s, name, handler))
  {
    if name !in s.reg.providers { StartOtherKeeps(s, Provide(name, handler), DEFAULT_TIMEOUT_MS, false); }
  }

  lemma SubscribeKeepsReg(s: State, name: string)
    requires OutInv(s) && RegInv(s)
    ensures RegInv(OnSubscribe(s, name))
  {
    var s1 := s.(reg := s.reg.(notify := s.reg.notify + {name}));
    StartOtherKeeps(s1, Subscribe(name), DEFAULT_TIMEOUT_MS, false);
  }

  lemma TurnKeepsReg(cfg: Config, s: State, e: Event)
    requires SysInv(cfg, s) && RegInv(s) && Exact(s.out) && Linked(s.out) && Enabled(s, e)
    ensures RegInv(Turn(cfg, s, e))
  {
    if e.TransportCloses? {
      CloseKeepsReg(cfg, s);
    } else if e.ConnectSucceeds? {
      ConnectKeepsReg(cfg, s, e.names);
    } else if e.RouterHandles? {
      RouterKeepsReg(s, e.attempt);
    } else if e.CloseCalled? {
      OurCloseKeepsReg(s);
    } else if QuietTurn(e) {
      QuietKeepsReg(cfg, s, e);
    } else {
      CallTurnKeepsReg(cfg, s, e);
    }
  }

  /** Turns that touch neither calls nor registrations. */
  lemma QuietKeepsReg(cfg: Config, s: State, e: Event)
    requires RegInv(s) && Linked(s.out) && Enabled(s, e)
    requires QuietTurn(e)
    ensures RegInv(Turn(cfg, s, e))
  {
    QuietLeaves(cfg, s, e);
    SameKeepsReg(s, Turn(cfg, s, e));
  }

  lemma QuietLeaves(cfg: Config, s: State, e: Event)
    requires Linked(s.out) && Enabled(s, e) && QuietTurn(e)
    ensures
      var s' := Turn(cfg, s, e);
      s'.out == s.out && s'.reg == s.reg && Unmoved(s.link, s'.link)
  {
  }

  lemma SameKeepsReg(s: State, s': State)
    requires RegInv(s) && s'.out == s.out && s'.reg == s.reg && Unmoved(s.link, s'.link)
    ensures RegInv(s')
  {
  }

  lemma BudgetKeepsReg(s: State, c: nat)
    requires OutInv(s) && RegInv(s) && c < |s.out.calls| && s.out.calls[c].phase.Waiting?
    ensures RegInv(s.(out := GiveUp(s.out, c, s.now)))
  {
    assert s.out.waiting + [] == s.out.waiting;
    assert c in s.out.waiting && s.out.calls[c].idempotent;
    BudgetWithin(s, c);
    CoveredKept(s, s.(out := GiveUp(s.out, c, s.now)));
  }

  lemma RouterKeepsReg(s: State, a: nat)
    requires RegInv(s) && Linked(s.out) && a < |s.out.attempts|
    ensures RegInv(OnRouter(s, a))
  {
    assert s.out.attempts[a].call < |s.out.calls|;
  }

  lemma OurCloseKeepsReg(s: State)
    requires OutInv(s) && RegInv(s)
    ensures RegInv(OnClose(s))
  {
    var s1 := s.(link := s.link.(closedByUs := true, reconnectTimer := None), inb := OnClose(s).inb);
    if s.link.connected {
      StartOtherKeeps(s1, Reset, RESET_TIMEOUT_MS, false);
    }
  }
}
