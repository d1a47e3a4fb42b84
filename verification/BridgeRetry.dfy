/**
  The retry contract of callWithOptions: which calls wait for 'reconnect', which attempt again, and what
  every other call is told, over every run.
 */
module BridgeRetry {
  import opened Common
  import opened Options
  import opened Outbound
  import opened BridgeState
  import opened BridgeRuns
  import opened BridgeTheorems

  // ---------------------------------------------------------------- what an outcome means

  /** Only a call not to be retried is told its connection was lost; a timeout comes at the deadline, not before. */
  predicate OutcomeOk(k: Call) {
    && Given(k.kind, k.deadline - k.start, k.idempotent)
    && (k.phase.Settled? ==>
         && (k.phase.outcome == ConnectionLost ==> !k.idempotent)
         && (k.phase.outcome == TimedOut ==> k.phase.at == Max(k.start, k.deadline)))
  }

  /** The bridge's own calls have five seconds, `$/reset` half of one, and none of them is retried. */
  predicate Given(kind: Kind, budget: int, idempotent: bool) {
    match kind
    case User => true
    case Reset => budget == 500 && !idempotent
    case _ => budget == 5000 && !idempotent
  }

  ghost predicate OutcomesOk(o: Out) {
    forall c :: 0 <= c < |o.calls| ==> OutcomeOk(o.calls[c])
  }

  /** The clock is within the call's life. */
  predicate Alive(k: Call, now: int) { k.start <= now <= Max(k.start, k.deadline) }

  lemma TryOutcomes(o: Out, c: nat, up: bool, epoch: nat, now: int)
    requires OutcomesOk(o) && c < |o.calls| && Alive(o.calls[c], now)
    ensures OutcomesOk(Try(o, c, up, epoch, now))
  {
  }

  lemma {:induction false} TryAllOutcomes(o: Out, cs: seq<nat>, up: bool, epoch: nat, now: int)
    requires OutcomesOk(o) && forall i :: 0 <= i < |cs| ==> cs[i] < |o.calls| && Alive(o.calls[cs[i]], now)
    ensures OutcomesOk(TryAll(o, cs, up, epoch, now))
    decreases |cs|
  {
    if cs != [] {
      TryOutcomes(o, cs[0], up, epoch, now);
      TryAllOutcomes(Try(o, cs[0], up, epoch, now), cs[1..], up, epoch, now);
    }
  }

  lemma EmitOutcomes(o: Out, up: bool, epoch: nat, now: int)
    requires Inv(o, [], up, epoch, now) && Linked(o) && OutcomesOk(o)
    ensures OutcomesOk(Emit(o, up, epoch, now))
  {
    forall i | 0 <= i < |o.waiting| ensures Alive(o.calls[o.waiting[i]], now) {
      assert o.waiting[i] in o.waiting + [] && CallTimely(o.calls[o.waiting[i]], now);
    }
    TryAllOutcomes(o.(waiting := []), o.waiting, up, epoch, now);
  }

  lemma StartOutcomes(o: Out, kind: Kind, timeoutMs: int, idempotent: bool, up: bool, epoch: nat, now: int)
    requires OutcomesOk(o) && Given(kind, timeoutMs, idempotent)
    ensures OutcomesOk(Start(o, kind, timeoutMs, idempotent, up, epoch, now))
  {
    TryOutcomes(Created(o, kind, timeoutMs, idempotent, now), |o.calls|, up, epoch, now);
  }

  lemma {:induction false} FailRestOutcomes(o: Out, queue: seq<string>, epoch: nat, now: int)
    requires OutcomesOk(o)
    ensures OutcomesOk(FailRest(o, queue, epoch, now))
    decreases |queue|
  {
    if queue != [] {
      StartOutcomes(o, Replay(queue[0]), DEFAULT_TIMEOUT_MS, false, false, epoch, now);
      var o1 := Start(o, Replay(queue[0]), DEFAULT_TIMEOUT_MS, false, false, epoch, now);
      FailRestOutcomes(o1, queue[1..], epoch, now);
    }
  }

  /** The call of an unsettled attempt is alive, and due at its deadline. */
  lemma AttemptAlive(o: Out, a: nat, up: bool, epoch: nat, now: int)
    requires Inv(o, [], up, epoch, now) && a < |o.attempts| && o.attempts[a].cause == None
    ensures
      var k := o.calls[o.attempts[a].call];
      Alive(k, now) && o.attempts[a].due == Max(k.start, k.deadline) && k.phase == InFlight(a)
  {
    assert AttemptTimely(o.attempts[a], o.calls[o.attempts[a].call], now);
  }

  lemma DropOutcomes(o: Out, a: nat, epoch: nat, now: int)
    requires Inv(o, [], false, epoch, now) && OutcomesOk(o) && a < |o.attempts|
    ensures OutcomesOk(Drop(o, a, now))
  {
    if Pending(o, a) {
      assert PendingSound(o, IdOf(a));
      AttemptAlive(o, a, false, epoch, now);
    }
  }

  lemma {:induction false} DropFromOutcomes(o: Out, a: nat, epoch: nat, now: int)
    requires Inv(o, [], false, epoch, now) && OutcomesOk(o)
    ensures OutcomesOk(DropFrom(o, a, now))
    decreases |o.attempts| - a
  {
    if a < |o.attempts| {
      DropInv(o, a, epoch, now);
      DropOutcomes(o, a, epoch, now);
      DropFromOutcomes(Drop(o, a, now), a + 1, epoch, now);
    }
  }

  lemma CloseOutcomes(cfg: Config, s: State)
    requires OutInv(s) && s.link.connected && Linked(s.out) && OutcomesOk(s.out)
    ensures OutcomesOk(OnTransportClose(cfg, s).out)
  {
    GoDown(s.out, s.Epoch(), s.now);
    var dropped := DropFrom(s.out, 0, s.now);
    DropFromOutcomes(s.out, 0, s.Epoch(), s.now);
    DropFromInv(s.out, 0, s.Epoch(), s.now);
    if s.reg.replay.Some? {
      FailRestKeeps(dropped, s.reg.replay.value.queue, s.Epoch(), s.now);
      FailRestOutcomes(dropped, s.reg.replay.value.queue, s.Epoch(), s.now);
      EmitOutcomes(FailRest(dropped, s.reg.replay.value.queue, s.Epoch(), s.now), false, s.Epoch(), s.now);
    }
  }

  lemma NextNameOutcomes(s: State, queue: seq<string>, acked: bool)
    requires OutInv(s) && Linked(s.out) && OutcomesOk(s.out)
    ensures OutcomesOk(NextName(s, queue, acked).out)
  {
    if queue == [] {
      EmitOutcomes(s.out, s.link.connected, s.Epoch(), s.now);
    } else {
      StartOutcomes(s.out, Replay(queue[0]), DEFAULT_TIMEOUT_MS, false, s.link.connected, s.Epoch(), s.now);
    }
  }

  lemma ContinueOutcomes(s: State, kind: Kind, ok: bool)
    requires OutInv(s) && Linked(s.out) && OutcomesOk(s.out)
    ensures OutcomesOk(Continue(s, kind, ok).out)
  {
    if kind.Replay? && s.reg.replay.Some? {
      NextNameOutcomes(s, s.reg.replay.value.queue, s.reg.replay.value.acked && ok);
    }
  }

  lemma ResponseOutcomes(s: State, id: nat, ok: bool)
    requires OutInv(s) && Linked(s.out) && OutcomesOk(s.out)
    ensures OutcomesOk(OnResponse(s, id, ok).out)
  {
    if id in s.out.pending {
      var kind := s.out.calls[s.out.attempts[s.out.pending[id]].call].kind;
      AnswerInv(s, id, ok);
      ContinueOutcomes(s.(out := Respond(s.out, id, ok, s.now)), kind, ok);
    }
  }

  lemma TimerOutcomes(s: State, a: nat)
    requires OutInv(s) && Linked(s.out) && OutcomesOk(s.out) && Enabled(s, AttemptTimer(a))
    ensures OutcomesOk(OnAttemptTimer(s, a).out)
  {
    AttemptAlive(s.out, a, s.link.connected, s.Epoch(), s.now);
    SettleKeeps(s.out, a, ByTimer, TimedOut, s.link.connected, s.Epoch(), s.now);
    ContinueOutcomes(s.(out := Expire(s.out, a, s.now)), s.out.calls[s.out.attempts[a].call].kind, false);
  }

  lemma BudgetOutcomes(s: State, c: nat)
    requires OutInv(s) && OutcomesOk(s.out) && c < |s.out.calls|
    requires s.out.calls[c].phase.Waiting? && s.out.calls[c].deadline == s.now
    ensures OutcomesOk(GiveUp(s.out, c, s.now))
  {
    assert CallTimely(s.out.calls[c], s.now);
  }

  lemma ConnectOutcomes(cfg: Config, s: State, names: seq<string>)
    requires SysInv(cfg, s) && Linked(s.out) && OutcomesOk(s.out) && s.link.connecting
    ensures OutcomesOk(OnConnectSuccess(s, names).out)
  {
    var l := s.link.(connecting := false, connected := true, writable := true, reconnectAttempt := 0,
                     opens := s.link.opens + [s.now]);
    var s1 := s.(link := l, reg := s.reg.(sent := [], snapshot := names));
    ComeUp(s.out, s.Epoch(), s.now);
    NextNameOutcomes(s1, names, true);
  }

  lemma CallTurnOutcomes(cfg: Config, s: State, e: Event)
    requires SysInv(cfg, s) && Linked(s.out) && Enabled(s, e) && OutcomesOk(s.out) && CallTurn(e)
    ensures OutcomesOk(Turn(cfg, s, e).out)
  {
    match e
    case CallStarts(timeoutMs, idempotent) =>
      StartOutcomes(s.out, User, timeoutMs, idempotent, s.link.connected, s.Epoch(), s.now);
    case ProvideCalled(name, handler) =>
      StartOutcomes(s.out, Provide(name, handler), DEFAULT_TIMEOUT_MS, false, s.link.connected, s.Epoch(), s.now);
    case OnNotifyCalled(name) =>
      StartOutcomes(s.out, Subscribe(name), DEFAULT_TIMEOUT_MS, false, s.link.connected, s.Epoch(), s.now);
    case ResponseArrives(id, ok) => ResponseOutcomes(s, id, ok);
    case AttemptTimer(a) => TimerOutcomes(s, a);
    case BudgetTimer(c) => BudgetOutcomes(s, c);
  }

  lemma TurnOutcomes(cfg: Config, s: State, e: Event)
    requires SysInv(cfg, s) && Linked(s.out) && Enabled(s, e) && OutcomesOk(s.out)
    ensures OutcomesOk(Turn(cfg, s, e).out)
  {
    if CallTurn(e) {
      CallTurnOutcomes(cfg, s, e);
    } else if e.TransportCloses? {
      CloseOutcomes(cfg, s);
    } else if e.ConnectSucceeds? {
      ConnectOutcomes(cfg, s, e.names);
    } else if e.CloseCalled? {
      StartOutcomes(s.out, Reset, RESET_TIMEOUT_MS, false, s.link.connected, s.Epoch(), s.now);
    }
  }

  // ---------------------------------------------------------------- every run

  ghost predicate Contract(s: State) { OutcomesOk(s.out) && (s.reg.replay.Some? ==> s.link.connected) }

  lemma TurnReplayUp(cfg: Config, s: State, e: Event)
    requires Linked(s.out) && Enabled(s, e) && (s.reg.replay.Some? ==> s.link.connected)
    ensures Turn(cfg, s, e).reg.replay.Some? ==> Turn(cfg, s, e).link.connected
  {
  }

  lemma {:induction false} RunContract(cfg: Config, s: State, ts: seq<Timed>)
    requires SysInv(cfg, s) && Contract(s) && LegalRun(cfg, s, ts)
    ensures Contract(Run(cfg, s, ts))
    decreases |ts|
  {
    if ts != [] {
      WaitKeeps(cfg, s, ts[0].at);
      TurnOutcomes(cfg, s.(now := ts[0].at), ts[0].event);
      TurnReplayUp(cfg, s.(now := ts[0].at), ts[0].event);
      StepKeeps(cfg, s, ts[0]);
      RunContract(cfg, Step(cfg, s, ts[0]), ts[1..]);
    }
  }

  lemma ReachableContract(cfg: Config, s: State)
    requires Reachable(cfg, s)
    ensures SysInv(cfg, s) && Contract(s)
  {
    var t, ts :| LegalRun(cfg, Initial(t), ts) && Run(cfg, Initial(t), ts) == s;
    InitialKeeps(cfg, t);
    RunKeeps(cfg, Initial(t), ts);
    RunContract(cfg, Initial(t), ts);
  }

  /**
    In every run a call is told that its connection was lost only if it is not to be retried, and that it
    timed out only at its deadline, or at once if it was given no time.
   */
  lemma OutcomesMean(cfg: Config, s: State, c: nat)
    requires Reachable(cfg, s) && c < |s.out.calls| && s.out.calls[c].phase.Settled?
    ensures
      var k := s.out.calls[c];
      && (k.phase.outcome == ConnectionLost ==> !k.idempotent)
      && (k.phase.outcome == TimedOut ==> k.phase.at == Max(k.start, k.deadline))
  {
    ReachableContract(cfg, s);
    assert OutcomeOk(s.out.calls[c]);
  }

  /** In every run the bridge's own calls have their fixed budgets and are not retried. */
  lemma OwnCalls(cfg: Config, s: State, c: nat)
    requires Reachable(cfg, s) && c < |s.out.calls| && !s.out.calls[c].kind.User?
    ensures !s.out.calls[c].idempotent
    ensures s.out.calls[c].deadline == s.out.calls[c].start + (if s.out.calls[c].kind.Reset? then 500 else 5000)
  {
    ReachableContract(cfg, s);
    assert OutcomeOk(s.out.calls[c]);
  }

  // ---------------------------------------------------------------- one call through one turn

  /** What a call is left with when it loses its connection. */
  predicate Lost(k: Call, p: Phase, now: int) {
    if !k.idempotent then p == Settled(ConnectionLost, now)
    else if k.deadline <= now then p == Settled(TimedOut, now)
    else p == Waiting
  }

  /** Only the phase changes, and only if the connection is `lost`. */
  predicate LostIf(lost: bool, k: Call, k': Call, now: int) {
    if lost then k' == k.(phase := k'.phase) && Lost(k, k'.phase, now) else k' == k
  }

  lemma TryCall(o: Out, c: nat, up: bool, epoch: nat, now: int)
    requires c < |o.calls|
    ensures
      var o' := Try(o, c, up, epoch, now);
      && (forall d :: 0 <= d < |o.calls| && d != c ==> o'.calls[d] == o.calls[d])
      && o'.calls[c] == o.calls[c].(phase := o'.calls[c].phase)
      && (if up then o'.calls[c].phase == InFlight(|o.attempts|) else Lost(o.calls[c], o'.calls[c].phase, now))
  {
  }

  lemma {:induction false} TryAllCall(o: Out, cs: seq<nat>, up: bool, epoch: nat, now: int, c: nat)
    requires c < |o.calls| && NoRepeats(cs) && forall i :: 0 <= i < |cs| ==> cs[i] < |o.calls|
    ensures |TryAll(o, cs, up, epoch, now).calls| == |o.calls|
    ensures
      var k' := TryAll(o, cs, up, epoch, now).calls[c];
      && (c !in cs ==> k' == o.calls[c])
      && (c in cs ==> if up then k'.phase.InFlight? else Lost(o.calls[c], k'.phase, now))
    decreases |cs|
  {
    if cs != [] {
      assert cs == [cs[0]] + cs[1..];
      ConsNoRepeats(cs[0], cs[1..]);
      TryCall(o, cs[0], up, epoch, now);
      TryAllCall(Try(o, cs[0], up, epoch, now), cs[1..], up, epoch, now, c);
    }
  }

  lemma EmitCall(o: Out, up: bool, epoch: nat, now: int, c: nat)
    requires Sound(o, []) && Linked(o) && c < |o.calls|
    ensures |Emit(o, up, epoch, now).calls| == |o.calls|
    ensures
      var k' := Emit(o, up, epoch, now).calls[c];
      && (!o.calls[c].phase.Waiting? ==> k' == o.calls[c])
      && (o.calls[c].phase.Waiting? ==> if up then k'.phase.InFlight? else Lost(o.calls[c], k'.phase, now))
  {
    assert o.waiting + [] == o.waiting;
    TryAllCall(o.(waiting := []), o.waiting, up, epoch, now, c);
  }

  lemma DropCall(o: Out, a: nat, c: nat, now: int)
    requires Sound(o, []) && a < |o.attempts| && c < |o.calls|
    ensures
      var k' := Drop(o, a, now).calls[c];
      && LostIf(Pending(o, a) && o.attempts[a].call == c, o.calls[c], k', now)
      && (Pending(o, a) && o.attempts[a].call == c ==> o.calls[c].phase == InFlight(a))
  {
    if Pending(o, a) { assert PendingSound(o, IdOf(a)); }
  }

  /** Call `c` is in flight under an attempt that `pending` still holds, number `a` or later. */
  predicate Held(o: Out, a: nat, c: nat)
    requires c < |o.calls|
  {
    o.calls[c].phase.InFlight? && o.calls[c].phase.attempt >= a && Pending(o, o.calls[c].phase.attempt)
  }

  lemma {:induction false} DropFromCall(o: Out, a: nat, c: nat, epoch: nat, now: int)
    requires Inv(o, [], false, epoch, now) && c < |o.calls|
    ensures |DropFrom(o, a, now).calls| == |o.calls|
    ensures LostIf(Held(o, a, c), o.calls[c], DropFrom(o, a, now).calls[c], now)
    decreases |o.attempts| - a
  {
    if a < |o.attempts| {
      var o1 := Drop(o, a, now);
      DropInv(o, a, epoch, now);
      assert |o1.calls| == |o.calls|;
      DropFromCall(o1, a + 1, c, epoch, now);
      DropThen(o, a, c, DropFrom(o1, a + 1, now).calls[c], now);
    } else {
      NotHeldPast(o, a, c);
    }
  }

  lemma NotHeldPast(o: Out, a: nat, c: nat)
    requires Sound(o, []) && c < |o.calls| && a >= |o.attempts|
    ensures !Held(o, a, c)
  {
    if o.calls[c].phase.InFlight? { assert Holds(o, o.calls[c].phase.attempt, c); }
  }

  lemma DropThen(o: Out, a: nat, c: nat, k: Call, now: int)
    requires Sound(o, []) && a < |o.attempts| && c < |o.calls| && c < |Drop(o, a, now).calls|
    requires LostIf(Held(Drop(o, a, now), a + 1, c), Drop(o, a, now).calls[c], k, now)
    ensures LostIf(Held(o, a, c), o.calls[c], k, now)
  {
    DropCall(o, a, c, now);
    if o.calls[c].phase.InFlight? { StillHeld(o, a, c, now); }
  }

  lemma StillHeld(o: Out, a: nat, c: nat, now: int)
    requires Sound(o, []) && a < |o.attempts| && c < |o.calls| && o.calls[c].phase.InFlight?
    ensures Drop(o, a, now).calls[c] == o.calls[c] ==>
      Held(Drop(o, a, now), a + 1, c) == (Held(o, a, c) && o.calls[c].phase.attempt != a)
  {
    var b := o.calls[c].phase.attempt;
    assert Holds(o, b, c);
    DropPending(o, a, now);
    if Pending(o, b) && Pending(o, a) && a != b { assert IdOf(a) != IdOf(b); }
  }

  /** A settled call stays as it is, and one that is not goes on. */
  predicate GoesOn(k: Call, k': Call) {
    if k.phase.Settled? then k' == k else !k'.phase.Settled?
  }

  lemma StartOthers(o: Out, kind: Kind, timeoutMs: int, idempotent: bool, up: bool, epoch: nat, now: int, c: nat)
    requires c < |o.calls|
    ensures
      var o' := Start(o, kind, timeoutMs, idempotent, up, epoch, now);
      |o'.calls| == |o.calls| + 1 && o'.calls[c] == o.calls[c]
  {
  }

  lemma NextNameCall(s: State, queue: seq<string>, acked: bool, c: nat)
    requires OutInv(s) && Linked(s.out) && s.link.connected && c < |s.out.calls|
    ensures c < |NextName(s, queue, acked).out.calls|
    ensures GoesOn(s.out.calls[c], NextName(s, queue, acked).out.calls[c])
  {
    if queue == [] {
      EmitCall(s.out, true, s.Epoch(), s.now, c);
    } else {
      StartOthers(s.out, Replay(queue[0]), DEFAULT_TIMEOUT_MS, false, true, s.Epoch(), s.now, c);
    }
  }

  lemma ContinueCall(s: State, kind: Kind, ok: bool, c: nat)
    requires OutInv(s) && Linked(s.out) && c < |s.out.calls| && (s.reg.replay.Some? ==> s.link.connected)
    ensures c < |Continue(s, kind, ok).out.calls|
    ensures GoesOn(s.out.calls[c], Continue(s, kind, ok).out.calls[c])
  {
    if kind.Replay? && s.reg.replay.Some? {
      NextNameCall(s, s.reg.replay.value.queue, s.reg.replay.value.acked && ok, c);
    }
  }

  /** A timer of call `c`'s fires: its attempt's, or the one it waits under. */
  predicate TimerOf(s: State, e: Event, c: nat) {
    || (e.AttemptTimer? && e.attempt < |s.out.attempts| && s.out.attempts[e.attempt].call == c)
    || (e.BudgetTimer? && e.call == c)
  }

  /** A response for it arrives. */
  predicate AnswerTo(s: State, e: Event, c: nat) {
    && e.ResponseArrives? && e.id in s.out.pending && s.out.pending[e.id] < |s.out.attempts|
    && s.out.attempts[s.out.pending[e.id]].call == c
  }

  /** Where the turn of `e` takes call `c` from `k` to phase `p`. */
  predicate Becomes(s: State, e: Event, c: nat, k: Call, p: Phase) {
    if TimerOf(s, e, c) then p == Settled(TimedOut, s.now)
    else if AnswerTo(s, e, c) then p == Settled(Answered(e.ok), s.now)
    else if e.TransportCloses? then
      if k.phase.InFlight? then if Pending(s.out, k.phase.attempt) then Lost(k, p, s.now) else p == k.phase
      else if s.reg.replay.Some? then Lost(k, p, s.now) else p == k.phase
    else !p.Settled?
  }

  lemma ResponseCall(s: State, id: nat, ok: bool, c: nat)
    requires OutInv(s) && Linked(s.out) && c < |s.out.calls| && !s.out.calls[c].phase.Settled?
    requires s.reg.replay.Some? ==> s.link.connected
    ensures c < |OnResponse(s, id, ok).out.calls|
    ensures Becomes(s, ResponseArrives(id, ok), c, s.out.calls[c], OnResponse(s, id, ok).out.calls[c].phase)
  {
    if id in s.out.pending {
      var kind := s.out.calls[s.out.attempts[s.out.pending[id]].call].kind;
      AnswerInv(s, id, ok);
      ContinueCall(s.(out := Respond(s.out, id, ok, s.now)), kind, ok, c);
    }
  }

  lemma AnswerInv(s: State, id: nat, ok: bool)
    requires OutInv(s)
    ensures Linked(s.out) && OutInv(s.(out := Respond(s.out, id, ok, s.now)))
  {
    RespondKeeps(s.out, id, ok, s.link.connected, s.Epoch(), s.now);
  }

  lemma TimerCall(s: State, a: nat, c: nat)
    requires OutInv(s) && Linked(s.out) && c < |s.out.calls| && !s.out.calls[c].phase.Settled?
    requires Enabled(s, AttemptTimer(a)) && (s.reg.replay.Some? ==> s.link.connected)
    ensures c < |OnAttemptTimer(s, a).out.calls|
    ensures Becomes(s, AttemptTimer(a), c, s.out.calls[c], OnAttemptTimer(s, a).out.calls[c].phase)
  {
    SettleKeeps(s.out, a, ByTimer, TimedOut, s.link.connected, s.Epoch(), s.now);
    ContinueCall(s.(out := Expire(s.out, a, s.now)), s.out.calls[s.out.attempts[a].call].kind, false, c);
  }

  lemma {:induction false} FailRestCall(o: Out, queue: seq<string>, epoch: nat, now: int, c: nat)
    requires c < |o.calls|
    ensures c < |FailRest(o, queue, epoch, now).calls| && FailRest(o, queue, epoch, now).calls[c] == o.calls[c]
    decreases |queue|
  {
    if queue != [] {
      StartOthers(o, Replay(queue[0]), DEFAULT_TIMEOUT_MS, false, false, epoch, now, c);
      FailRestCall(Start(o, Replay(queue[0]), DEFAULT_TIMEOUT_MS, false, false, epoch, now), queue[1..], epoch, now, c);
    }
  }

  /** A replay under way runs out, and emits 'reconnect' to calls that cannot attempt. */
  lemma AbandonCall(o: Out, queue: seq<string>, epoch: nat, now: int, c: nat)
    requires Inv(o, [], false, epoch, now) && Linked(o) && c < |o.calls|
    ensures
      var o' := Emit(FailRest(o, queue, epoch, now), false, epoch, now);
      && c < |o'.calls|
      && (if o.calls[c].phase.Waiting? then Lost(o.calls[c], o'.calls[c].phase, now) else o'.calls[c] == o.calls[c])
  {
    FailRestCall(o, queue, epoch, now, c);
    FailRestKeeps(o, queue, epoch, now);
    EmitCall(FailRest(o, queue, epoch, now), false, epoch, now, c);
  }

  lemma CloseCall(cfg: Config, s: State, c: nat)
    requires OutInv(s) && Linked(s.out) && s.link.connected && c < |s.out.calls| && !s.out.calls[c].phase.Settled?
    ensures c < |OnTransportClose(cfg, s).out.calls|
    ensures Becomes(s, TransportCloses, c, s.out.calls[c], OnTransportClose(cfg, s).out.calls[c].phase)
  {
    var dropped := DropFrom(s.out, 0, s.now);
    GoDown(s.out, s.Epoch(), s.now);
    DropFromCall(s.out, 0, c, s.Epoch(), s.now);
    DropFromInv(s.out, 0, s.Epoch(), s.now);
    if s.reg.replay.Some? { AbandonCall(dropped, s.reg.replay.value.queue, s.Epoch(), s.now, c); }
  }

  lemma ConnectCall(cfg: Config, s: State, names: seq<string>, c: nat)
    requires SysInv(cfg, s) && Linked(s.out) && s.link.connecting && c < |s.out.calls|
    ensures c < |OnConnectSuccess(s, names).out.calls|
    ensures GoesOn(s.out.calls[c], OnConnectSuccess(s, names).out.calls[c])
  {
    var l := s.link.(connecting := false, connected := true, writable := true, reconnectAttempt := 0,
                     opens := s.link.opens + [s.now]);
    var s1 := s.(link := l, reg := s.reg.(sent := [], snapshot := names));
    ComeUp(s.out, s.Epoch(), s.now);
    NextNameCall(s1, names, true, c);
  }

  lemma QuietCall(cfg: Config, s: State, e: Event, c: nat)
    requires Linked(s.out) && Enabled(s, e) && c < |s.out.calls| && !s.out.calls[c].phase.Settled?
    requires !e.ResponseArrives? && !e.AttemptTimer? && !e.TransportCloses? && !e.ConnectSucceeds?
    ensures c < |Turn(cfg, s, e).out.calls|
    ensures Becomes(s, e, c, s.out.calls[c], Turn(cfg, s, e).out.calls[c].phase)
  {
    if e.RouterHandles? { assert OnRouter(s, e.attempt).out == s.out; }
  }

  lemma TurnCall(cfg: Config, s: State, e: Event, c: nat)
    requires SysInv(cfg, s) && Contract(s) && Linked(s.out) && Enabled(s, e)
    requires c < |s.out.calls| && !s.out.calls[c].phase.Settled?
    ensures c < |Turn(cfg, s, e).out.calls|
    ensures Becomes(s, e, c, s.out.calls[c], Turn(cfg, s, e).out.calls[c].phase)
  {
    match e
    case ResponseArrives(id, ok) => ResponseCall(s, id, ok, c);
    case AttemptTimer(a) => TimerCall(s, a, c);
    case TransportCloses => CloseCall(cfg, s, c);
    case ConnectSucceeds(names) => ConnectCall(cfg, s, names, c);
    case _ => QuietCall(cfg, s, e, c);
  }

  /**
    In every run, what one turn makes of a call that is not settled. Its timers time it out and its response
    answers it. When the connection drops, a call in flight that is not to be retried is told so, one out of
    time is timed out, and any other waits for 'reconnect'; a call already waiting goes on waiting, if it has
    time left. Nothing else settles it.
   */
  lemma SettledHow(cfg: Config, s: State, at: int, e: Event, c: nat)
    requires Reachable(cfg, s) && Legal(s, Timed(at, e)) && c < |s.out.calls| && !s.out.calls[c].phase.Settled?
    ensures c < |Step(cfg, s, Timed(at, e)).out.calls|
    ensures
      var k, p := s.out.calls[c], Step(cfg, s, Timed(at, e)).out.calls[c].phase;
      && (TimerOf(s, e, c) ==> p == Settled(TimedOut, at))
      && (AnswerTo(s, e, c) ==> p == Settled(Answered(e.ok), at))
      && (e.TransportCloses? && k.phase.InFlight? && Pending(s.out, k.phase.attempt) ==>
            p == if !k.idempotent then Settled(ConnectionLost, at)
                 else if k.deadline <= at then Settled(TimedOut, at) else Waiting)
      && (e.TransportCloses? && k.phase.Waiting? && at < k.deadline ==> p == Waiting)
      && (!TimerOf(s, e, c) && !AnswerTo(s, e, c) && !e.TransportCloses? ==> !p.Settled?)
  {
    ReachableContract(cfg, s);
    WaitKeeps(cfg, s, at);
    TurnCall(cfg, s.(now := at), e, c);
    if s.out.calls[c].phase.Waiting? { WaitersRetry(s.out, c); }
  }

  lemma WaitersRetry(o: Out, c: nat)
    requires Sound(o, []) && c < |o.calls| && o.calls[c].phase.Waiting?
    ensures o.calls[c].idempotent && c in o.waiting
  {
    assert o.waiting + [] == o.waiting;
  }

  // ---------------------------------------------------------------- calls that start

  /**
    A call started while connected makes one attempt at once, with a timer for its whole time; started while
    disconnected it makes none, and waits for 'reconnect' if it may be retried and has time.
   */
  lemma StartsHow(cfg: Config, s: State, at: int, timeoutMs: int, idempotent: bool)
    requires Legal(s, Timed(at, CallStarts(timeoutMs, idempotent)))
    ensures
      var o', n := Step(cfg, s, Timed(at, CallStarts(timeoutMs, idempotent))).out, |s.out.calls|;
      && |o'.calls| == n + 1 && o'.calls[..n] == s.out.calls
      && o'.calls[n] == Call(User, at, at + timeoutMs, idempotent, o'.calls[n].phase)
      && (if s.link.connected then
            && o'.calls[n].phase == InFlight(|s.out.attempts|) && o'.waiting == s.out.waiting
            && o'.attempts == s.out.attempts + [Attempt(n, s.Epoch(), at, Max(at, at + timeoutMs), None)]
          else
            && o'.attempts == s.out.attempts
            && o'.calls[n].phase == (if !idempotent then Settled(ConnectionLost, at)
                                     else if timeoutMs <= 0 then Settled(TimedOut, at) else Waiting)
            && o'.waiting == s.out.waiting + (if idempotent && timeoutMs > 0 then [n] else []))
  {
  }

  // ---------------------------------------------------------------- 'reconnect'

  /** Attempt `a` is a new one of call `c`'s, under the call's own deadline. */
  predicate FreshFor(o: Out, o': Out, a: nat, c: nat, epoch: nat, now: int)
    requires c < |o.calls|
  {
    && a < |o'.attempts| && o'.attempts[a] == Attempt(c, epoch, now, Max(now, o.calls[c].deadline), None)
    && c < |o'.calls| && o'.calls[c] == o.calls[c].(phase := InFlight(a))
  }

  lemma {:induction false} TryAllUp(o: Out, cs: seq<nat>, epoch: nat, now: int)
    requires NoRepeats(cs) && forall i :: 0 <= i < |cs| ==> cs[i] < |o.calls|
    ensures
      var o', n := TryAll(o, cs, true, epoch, now), |o.attempts|;
      && |o'.attempts| == n + |cs| && o'.waiting == o.waiting
      && (forall a :: 0 <= a < n ==> o'.attempts[a] == o.attempts[a])
      && forall i :: 0 <= i < |cs| ==> FreshFor(o, o', n + i, cs[i], epoch, now)
    decreases |cs|
  {
    if cs != [] {
      var o1, n := Try(o, cs[0], true, epoch, now), |o.attempts|;
      var o' := TryAll(o, cs, true, epoch, now);
      assert cs == [cs[0]] + cs[1..];
      ConsNoRepeats(cs[0], cs[1..]);
      TryAllUp(o1, cs[1..], epoch, now);
      TryAllCall(o1, cs[1..], true, epoch, now, cs[0]);
      forall i | 0 <= i < |cs| ensures FreshFor(o, o', n + i, cs[i], epoch, now) {
        if i > 0 { assert FreshFor(o1, o', n + 1 + (i - 1), cs[1..][i - 1], epoch, now); }
      }
    }
  }

  /** Every call that waited in `o` has made its next attempt in `o'`, one each, in the order they began to wait. */
  ghost predicate Retried(o: Out, o': Out, epoch: nat, now: int)
    requires Linked(o)
  {
    && NoRepeats(o.waiting) && (forall c :: 0 <= c < |o.calls| && o.calls[c].phase.Waiting? ==> c in o.waiting)
    && |o'.attempts| == |o.attempts| + |o.waiting| && o'.waiting == []
    && forall i :: 0 <= i < |o.waiting| ==> FreshFor(o, o', |o.attempts| + i, o.waiting[i], epoch, now)
  }

  lemma EmitRetries(o: Out, epoch: nat, now: int)
    requires Sound(o, []) && Linked(o)
    ensures Retried(o, Emit(o, true, epoch, now), epoch, now)
  {
    assert o.waiting + [] == o.waiting;
    var o1, o' := o.(waiting := []), Emit(o, true, epoch, now);
    TryAllUp(o1, o.waiting, epoch, now);
    forall i | 0 <= i < |o.waiting| ensures FreshFor(o, o', |o.attempts| + i, o.waiting[i], epoch, now) {
      assert FreshFor(o1, o', |o1.attempts| + i, o.waiting[i], epoch, now);
    }
  }

  /** `o1` is `o` with calls settled that were in flight, so the calls that wait are the same. */
  ghost predicate SameWaiters(o: Out, o1: Out) {
    && Linked(o) && Linked(o1) && Sound(o1, [])
    && o1.waiting == o.waiting && |o1.attempts| == |o.attempts| && |o1.calls| == |o.calls|
    && (forall c :: 0 <= c < |o.calls| && o.calls[c].phase.Waiting? ==> o1.calls[c] == o.calls[c])
    && (forall i :: 0 <= i < |o.waiting| ==> o.calls[o.waiting[i]].phase.Waiting?)
  }

  lemma SettledRetries(o: Out, o1: Out, epoch: nat, now: int)
    requires SameWaiters(o, o1)
    ensures Retried(o, Emit(o1, true, epoch, now), epoch, now)
  {
    var o' := Emit(o1, true, epoch, now);
    EmitRetries(o1, epoch, now);
    forall i | 0 <= i < |o.waiting| ensures FreshFor(o, o', |o.attempts| + i, o.waiting[i], epoch, now) {
      assert FreshFor(o1, o', |o1.attempts| + i, o.waiting[i], epoch, now);
    }
  }

  lemma WaitingWait(o: Out)
    requires Sound(o, [])
    ensures forall i :: 0 <= i < |o.waiting| ==> o.waiting[i] < |o.calls| && o.calls[o.waiting[i]].phase.Waiting?
  {
    assert o.waiting + [] == o.waiting;
    forall i | 0 <= i < |o.waiting| ensures o.waiting[i] < |o.calls| && o.calls[o.waiting[i]].phase.Waiting? {
      assert o.waiting[i] in o.waiting;
    }
  }

  /** The replay ends with this turn: its last name is answered or timed out, or there was none to send. */
  predicate ReplayEnds(s: State, e: Event, s': State) {
    s'.link.connected && s'.reg.replay == None && (e.ConnectSucceeds? || s.reg.replay.Some?)
  }

  lemma ConnectRetries(cfg: Config, s: State, names: seq<string>)
    requires SysInv(cfg, s) && Linked(s.out) && s.link.connecting
    requires OnConnectSuccess(s, names).reg.replay == None
    ensures Retried(s.out, OnConnectSuccess(s, names).out, OnConnectSuccess(s, names).Epoch(), s.now)
  {
    EmitRetries(s.out, |s.link.opens|, s.now);
  }

  lemma ResponseRetries(s: State, id: nat, ok: bool)
    requires OutInv(s) && Linked(s.out) && s.link.connected && s.reg.replay.Some?
    requires OnResponse(s, id, ok).reg.replay == None
    ensures Retried(s.out, OnResponse(s, id, ok).out, s.Epoch(), s.now)
  {
    ResponseEmits(s, id, ok);
    AnswerLeaves(s, id, ok);
    SettledRetries(s.out, Respond(s.out, id, ok, s.now), s.Epoch(), s.now);
  }

  lemma ResponseEmits(s: State, id: nat, ok: bool)
    requires Linked(s.out) && s.link.connected && s.reg.replay.Some? && OnResponse(s, id, ok).reg.replay == None
    ensures OnResponse(s, id, ok).out == Emit(Respond(s.out, id, ok, s.now), true, s.Epoch(), s.now)
  {
  }

  lemma AnswerLeaves(s: State, id: nat, ok: bool)
    requires OutInv(s) && Linked(s.out)
    ensures SameWaiters(s.out, Respond(s.out, id, ok, s.now))
  {
    RespondKeeps(s.out, id, ok, s.link.connected, s.Epoch(), s.now);
    WaitingWait(s.out);
    if id in s.out.pending { assert PendingSound(s.out, id); }
  }

  lemma TimerRetries(s: State, a: nat)
    requires OutInv(s) && Linked(s.out) && s.link.connected && s.reg.replay.Some? && Enabled(s, AttemptTimer(a))
    requires OnAttemptTimer(s, a).reg.replay == None
    ensures Retried(s.out, OnAttemptTimer(s, a).out, s.Epoch(), s.now)
  {
    ExpiryLeaves(s, a);
    SettledRetries(s.out, Expire(s.out, a, s.now), s.Epoch(), s.now);
  }

  lemma ExpiryLeaves(s: State, a: nat)
    requires OutInv(s) && Linked(s.out) && Enabled(s, AttemptTimer(a))
    ensures SameWaiters(s.out, Expire(s.out, a, s.now))
  {
    SettleKeeps(s.out, a, ByTimer, TimedOut, s.link.connected, s.Epoch(), s.now);
    WaitingWait(s.out);
  }

  lemma TurnRetries(cfg: Config, s: State, e: Event)
    requires SysInv(cfg, s) && Contract(s) && Linked(s.out) && Enabled(s, e) && ReplayEnds(s, e, Turn(cfg, s, e))
    ensures Retried(s.out, Turn(cfg, s, e).out, Turn(cfg, s, e).Epoch(), s.now)
  {
    EndsBy(cfg, s, e);
    match e
    case ConnectSucceeds(names) => ConnectRetries(cfg, s, names);
    case ResponseArrives(id, ok) => ResponseRetries(s, id, ok);
    case AttemptTimer(a) => TimerRetries(s, a);
    case _ =>
  }

  /** Only these events end a replay, and the last two only while connected. */
  lemma EndsBy(cfg: Config, s: State, e: Event)
    requires Contract(s) && Linked(s.out) && Enabled(s, e) && ReplayEnds(s, e, Turn(cfg, s, e))
    ensures e.ConnectSucceeds? || e.ResponseArrives? || e.AttemptTimer?
    ensures !e.ConnectSucceeds? ==> s.link.connected && s.reg.replay.Some? && Turn(cfg, s, e).Epoch() == s.Epoch()
  {
  }

  /**
    In every run the turn that ends a replay, and emits 'reconnect', gives each call waiting for it exactly
    one new attempt, on the connection then live and under the deadline it started with.
   */
  lemma ReconnectRetries(cfg: Config, s: State, at: int, e: Event)
    requires Reachable(cfg, s) && Legal(s, Timed(at, e)) && ReplayEnds(s, e, Step(cfg, s, Timed(at, e)))
    ensures Linked(s.out)
    ensures Retried(s.out, Step(cfg, s, Timed(at, e)).out, Step(cfg, s, Timed(at, e)).Epoch(), at)
  {
    ReachableContract(cfg, s);
    WaitKeeps(cfg, s, at);
    TurnRetries(cfg, s.(now := at), e);
  }
}
