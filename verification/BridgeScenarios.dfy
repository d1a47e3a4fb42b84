/** Runs of the bridge that end where its comments do not say. */
module BridgeScenarios {
  import opened Common
  import opened Options
  import opened Outbound
  import opened BridgeState
  import opened BridgeRuns
  import opened BridgeNames
  import opened BridgeTheorems
  import In = Inbound

  // ---------------------------------------------------------------- reaching a state step by step

  lemma {:induction false} RunSnoc(cfg: Config, s: State, ts: seq<Timed>, t: Timed)
    requires LegalRun(cfg, s, ts) && Legal(Run(cfg, s, ts), t)
    ensures LegalRun(cfg, s, ts + [t]) && Run(cfg, s, ts + [t]) == Step(cfg, Run(cfg, s, ts), t)
    decreases |ts|
  {
    if ts == [] {
      assert [t][1..] == [];
    } else {
      assert (ts + [t])[1..] == ts[1..] + [t];
      RunSnoc(cfg, Step(cfg, s, ts[0]), ts[1..], t);
    }
  }

  lemma Reaches(cfg: Config, s: State, t: Timed, s': State)
    requires Reachable(cfg, s) && Legal(s, t) && Step(cfg, s, t) == s'
    ensures Reachable(cfg, s')
  {
    var begun, ts :| LegalRun(cfg, Initial(begun), ts) && Run(cfg, Initial(begun), ts) == s;
    RunSnoc(cfg, Initial(begun), ts, t);
  }

  lemma StartReaches(cfg: Config, t: int)
    ensures Reachable(cfg, Initial(t))
  {
    assert LegalRun(cfg, Initial(t), []) && Run(cfg, Initial(t), []) == Initial(t);
  }

  // ---------------------------------------------------------------- a registration that fails

  /** The replay under way awaits its call for `name`, a provider's, which nobody has routed. */
  ghost predicate AwaitsUnrouted(s: State, name: string) {
    && Linked(s.out) && s.reg.replay.Some?
    && s.reg.replay.value.call < |s.out.calls| && s.out.calls[s.reg.replay.value.call].kind == Replay(name)
    && name in s.reg.providers && name !in s.reg.routed
  }

  /**
    A replay one of whose names times out goes on to the next, or ends, as one not to be trusted; but the
    name stays a provider the router lacks, and `provide` still takes it for registered and makes no call.
   */
  lemma TimedOutReplayTrusted(s: State, a: nat, name: string, handler: nat)
    requires AwaitsUnrouted(s, name) && a < |s.out.attempts| && s.out.attempts[a].call == s.reg.replay.value.call
    ensures
      var queue, s' := s.reg.replay.value.queue, OnAttemptTimer(s, a);
      && (queue == [] ==> s'.reg.replay == None && !s'.reg.synced)
      && (queue != [] ==> s'.reg.replay == Some(Replaying(queue[1..], |s.out.calls|, false)))
      && name in s'.reg.providers && name !in s'.reg.routed
      && OnProvide(s', name, handler).out == s'.out && OnProvide(s', name, handler).reg.routed == s'.reg.routed
  {
  }

  /**
    A notification name is stored before its registration is answered, so one whose registration fails is
    kept: later subscribers make no call for it, and only the next reconnect registers it again.
   */
  lemma FailedSubscriptionKept(s: State, id: nat, name: string)
    requires Linked(s.out) && name in s.reg.notify && id in s.out.pending
    requires s.out.calls[s.out.attempts[s.out.pending[id]].call].kind == Subscribe(name)
    ensures
      var s' := OnResponse(s, id, false);
      s'.reg == s.reg && OnSubscribe(s', name) == s'
  {
  }

  /** A first subscription asked for, or refused. */
  function Subscribed(t: int, name: string, refused: bool): State {
    State(t, FirstLink(t),
          Out([Attempt(0, 0, t, t + DEFAULT_TIMEOUT_MS, if refused then Some(ByResponse) else None)],
              if refused then map[] else map[1 := 0],
              [Call(Subscribe(name), t, t + DEFAULT_TIMEOUT_MS, false,
                    if refused then Settled(Answered(false), t) else InFlight(0))], []),
          In.EMPTY, Reg(map[], {name}, {}, None, true, [], []))
  }

  lemma SubscribeStep(cfg: Config, t: int, name: string)
    ensures
      var e := Timed(t, OnNotifyCalled(name));
      Legal(Initial(t), e) && Step(cfg, Initial(t), e) == Subscribed(t, name, false)
  {
    assert {} + {name} == {name};
  }

  lemma RefuseStep(cfg: Config, t: int, name: string)
    ensures
      var s, e := Subscribed(t, name, false), Timed(t, ResponseArrives(1, false));
      Legal(s, e) && Step(cfg, s, e) == Subscribed(t, name, true)
  {
    assert map[1 := 0] - {1} == map[];
  }

  /** That comes about: the bridge is connected and idle, holds the name, and will not ask the router for it. */
  lemma SubscriptionLost(cfg: Config, t: int, name: string)
    ensures Reachable(cfg, Subscribed(t, name, true))
    ensures
      var s := Subscribed(t, name, true);
      && s.link.connected && s.out.pending == map[]
      && name in s.reg.notify && name !in s.reg.routed && OnSubscribe(s, name) == s
  {
    StartReaches(cfg, t);
    SubscribeStep(cfg, t, name);
    Reaches(cfg, Initial(t), Timed(t, OnNotifyCalled(name)), Subscribed(t, name, false));
    RefuseStep(cfg, t, name);
    Reaches(cfg, Subscribed(t, name, false), Timed(t, ResponseArrives(1, false)), Subscribed(t, name, true));
  }

  // ---------------------------------------------------------------- one provider, one reconnect

  /** A bridge that connects at `t` and provides `name`. */
  datatype Scene = Scene(cfg: Config, t: int, name: string, handler: nat) {
    /** When it is connected again after dropping at once, and when the replay's call times out. */
    function Up(): int { t + Delay(cfg, 0) }

    function Due(): int { Up() + DEFAULT_TIMEOUT_MS }
  }

  function FirstLink(t: int): Link { Link(true, true, false, false, 0, None, [t], [], 0) }

  function ProvideCall(x: Scene, phase: Phase): Call {
    Call(Provide(x.name, x.handler), x.t, x.t + DEFAULT_TIMEOUT_MS, false, phase)
  }

  /** After the call; `routed` as the router then has it. */
  function Asked(x: Scene, routed: set<string>): State {
    State(x.t, FirstLink(x.t),
          Out([Attempt(0, 0, x.t, x.t + DEFAULT_TIMEOUT_MS, None)], map[1 := 0], [ProvideCall(x, InFlight(0))], []),
          In.EMPTY, Reg(map[], {}, routed, None, true, [], []))
  }

  /** Acknowledged, with the inbound side as given. */
  function Provided(x: Scene, inb: In.In): State {
    State(x.t, FirstLink(x.t),
          Out([Attempt(0, 0, x.t, x.t + DEFAULT_TIMEOUT_MS, Some(ByResponse))], map[],
              [ProvideCall(x, Settled(Answered(true), x.t))], []),
          inb, Reg(map[x.name := x.handler], {}, {x.name}, None, true, [], []))
  }

  /** Dropped: the reconnect timer armed, or fired and `connecting`. */
  function Down(x: Scene, connecting: bool, inb: In.In): State {
    var p := Provided(x, inb);
    State(if connecting then x.Up() else x.t,
          Link(false, false, connecting, false, 1, if connecting then None else Some(x.Up()), [x.t], [x.t],
               if connecting then 1 else 0),
          p.out, inb, p.reg.(routed := {}, synced := false))
  }

  /** Up again, the replay of the name awaited, or timed out. */
  function Replays(x: Scene, expired: bool, inb: In.In): State {
    var p := Provided(x, inb);
    var phase := if expired then Settled(TimedOut, x.Due()) else InFlight(1);
    State(if expired then x.Due() else x.Up(), Link(true, true, false, false, 0, None, [x.t, x.Up()], [x.t], 1),
          Out(p.out.attempts + [Attempt(1, 1, x.Up(), x.Due(), if expired then Some(ByTimer) else None)],
              if expired then map[] else map[2 := 1],
              p.out.calls + [Call(Replay(x.name), x.Up(), x.Due(), false, phase)], []),
          inb,
          p.reg.(routed := {}, synced := false, sent := [x.name], snapshot := [x.name],
                 replay := if expired then None else Some(Replaying([], 1, true))))
  }

  lemma AskStep(x: Scene)
    ensures
      var e := Timed(x.t, ProvideCalled(x.name, x.handler));
      Legal(Initial(x.t), e) && Step(x.cfg, Initial(x.t), e) == Asked(x, {})
  {
  }

  lemma RouteStep(x: Scene)
    ensures
      var s, e := Asked(x, {}), Timed(x.t, RouterHandles(0));
      Legal(s, e) && Step(x.cfg, s, e) == Asked(x, {x.name})
  {
    assert {} + {x.name} == {x.name};
  }

  lemma AnswerStep(x: Scene)
    ensures
      var s, e := Asked(x, {x.name}), Timed(x.t, ResponseArrives(1, true));
      Legal(s, e) && Step(x.cfg, s, e) == Provided(x, In.EMPTY)
  {
    assert map[1 := 0] - {1} == map[];
    var no: map<string, nat> := map[];
    assert no[x.name := x.handler] == map[x.name := x.handler];
  }

  lemma DropStep(x: Scene, inb: In.In)
    requires x.cfg.reconnect
    ensures
      var s, e := Provided(x, inb), Timed(x.t, TransportCloses);
      Legal(s, e) && Step(x.cfg, s, e) == Down(x, false, In.Forget(inb))
  {
    var o := Provided(x, inb).out;
    assert Drop(o, 0, x.t) == o && DropFrom(o, 1, x.t) == o;
    assert [] + [x.t] == [x.t];
  }

  lemma TimerStep(x: Scene, inb: In.In)
    ensures
      var s, e := Down(x, false, inb), Timed(x.Up(), ReconnectTimer);
      Legal(s, e) && Step(x.cfg, s, e) == Down(x, true, inb)
  {
  }

  lemma ReconnectEnabled(x: Scene, inb: In.In)
    ensures Legal(Down(x, true, inb), Timed(x.Up(), ConnectSucceeds([x.name])))
  {
  }

  lemma ReplayStarts(x: Scene, inb: In.In)
    ensures Linked(Down(x, true, inb).out)
    ensures OnConnectSuccess(Down(x, true, inb), [x.name]) == Replays(x, false, inb)
  {
    var no: map<nat, nat> := map[];
    assert [x.t] + [x.Up()] == [x.t, x.Up()];
    assert [] + [x.name] == [x.name] && [x.name][1..] == [] && no[2 := 1] == map[2 := 1];
  }

  lemma ReconnectStep(x: Scene, inb: In.In)
    ensures
      var s, e := Down(x, true, inb), Timed(x.Up(), ConnectSucceeds([x.name]));
      Legal(s, e) && Step(x.cfg, s, e) == Replays(x, false, inb)
  {
    ReconnectEnabled(x, inb);
    ReplayStarts(x, inb);
  }

  lemma ExpireStep(x: Scene, inb: In.In)
    ensures
      var s, e := Replays(x, false, inb), Timed(x.Due(), AttemptTimer(1));
      Legal(s, e) && Step(x.cfg, s, e) == Replays(x, true, inb)
  {
    assert map[2 := 1] - {2} == map[];
  }

  /** The router has a name whose acknowledgement is still to come. */
  lemma RoutedUnacknowledged(x: Scene)
    ensures Reachable(x.cfg, Asked(x, {x.name}))
    ensures
      var s := Asked(x, {x.name});
      s.link.connected && Indexed(s.out) && x.name in s.reg.routed && !AckedOn(s.out, s.Epoch(), x.name)
  {
    StartReaches(x.cfg, x.t);
    AskStep(x);
    Reaches(x.cfg, Initial(x.t), Timed(x.t, ProvideCalled(x.name, x.handler)), Asked(x, {}));
    RouteStep(x);
    Reaches(x.cfg, Asked(x, {}), Timed(x.t, RouterHandles(0)), Asked(x, {x.name}));
  }

  lemma ProvidedReached(x: Scene)
    ensures Reachable(x.cfg, Provided(x, In.EMPTY))
  {
    RoutedUnacknowledged(x);
    AnswerStep(x);
    Reaches(x.cfg, Asked(x, {x.name}), Timed(x.t, ResponseArrives(1, true)), Provided(x, In.EMPTY));
  }

  lemma DownReached(x: Scene, inb: In.In)
    requires x.cfg.reconnect && Reachable(x.cfg, Provided(x, inb))
    ensures Reachable(x.cfg, Down(x, true, In.Forget(inb)))
  {
    DropStep(x, inb);
    Reaches(x.cfg, Provided(x, inb), Timed(x.t, TransportCloses), Down(x, false, In.Forget(inb)));
    TimerStep(x, In.Forget(inb));
    Reaches(x.cfg, Down(x, false, In.Forget(inb)), Timed(x.Up(), ReconnectTimer), Down(x, true, In.Forget(inb)));
  }

  lemma ReplayReached(x: Scene, inb: In.In)
    requires x.cfg.reconnect && Reachable(x.cfg, Provided(x, inb))
    ensures Reachable(x.cfg, Replays(x, false, In.Forget(inb)))
  {
    var lost := In.Forget(inb);
    DownReached(x, inb);
    ReconnectStep(x, lost);
    Reaches(x.cfg, Down(x, true, lost), Timed(x.Up(), ConnectSucceeds([x.name])), Replays(x, false, lost));
  }

  /**
    A name provided and acknowledged, a drop, and a replay that times out: the bridge is then up and idle; it
    holds a provider the router does not, and providing it again makes no call.
   */
  lemma ProviderLost(x: Scene, again: nat)
    requires x.cfg.reconnect
    ensures Reachable(x.cfg, Replays(x, true, In.EMPTY))
    ensures
      var s := Replays(x, true, In.EMPTY);
      && s.link.connected && s.reg.replay == None && s.out.pending == map[]
      && x.name in s.reg.providers && x.name !in s.reg.routed
      && OnProvide(s, x.name, again).out == s.out && OnProvide(s, x.name, again).reg.routed == s.reg.routed
  {
    ProvidedReached(x);
    ReplayReached(x, In.EMPTY);
    ExpireStep(x, In.EMPTY);
    Reaches(x.cfg, Replays(x, false, In.EMPTY), Timed(x.Due(), AttemptTimer(1)), Replays(x, true, In.EMPTY));
  }

  // ---------------------------------------------------------------- a handler that answers another's request

  /** A request for the provider, read on the first connection, and on the second. */
  function Read(x: Scene, inb: In.In, m: nat, epoch: nat): In.In {
    In.Receive(inb, m, x.name, Some(x.handler), epoch, true)
  }

  lemma ReadStep(x: Scene, inb: In.In, m: nat)
    ensures
      var s, e := Provided(x, inb), Timed(x.t, RequestArrives(m, x.name));
      Legal(s, e) && Step(x.cfg, s, e) == Provided(x, Read(x, inb, m, 0))
  {
  }

  lemma ReadAgainStep(x: Scene, inb: In.In, m: nat)
    ensures
      var s, e := Replays(x, false, inb), Timed(x.Up(), RequestArrives(m, x.name));
      Legal(s, e) && Step(x.cfg, s, e) == Replays(x, false, Read(x, inb, m, 1))
  {
  }

  lemma ReadReached(x: Scene, m: nat)
    ensures Reachable(x.cfg, Provided(x, Read(x, In.EMPTY, m, 0)))
  {
    ProvidedReached(x);
    ReadStep(x, In.EMPTY, m);
    Reaches(x.cfg, Provided(x, In.EMPTY), Timed(x.t, RequestArrives(m, x.name)), Provided(x, Read(x, In.EMPTY, m, 0)));
  }

  /** Two handlers run for id `m`, which the second's request holds; the first settles, then the second. */
  lemma FirstAnswersForSecond(i: In.In, m: nat, h: nat, epoch: nat)
    requires i.tasks == [In.Task(m, h, false), In.Task(m, h, false)] && i.responded == multiset{}
    requires i.inFlight.Keys == {m} && i.owner == map[m := 1]
    ensures !In.AnswersOwn(i, 0)
    ensures
      var i' := In.Finish(i, 0, epoch, true);
      i'.responded == multiset{In.Key(epoch, m)} && In.Finish(i', 1, epoch, true).responded == i'.responded
  {
    assert m !in In.Finish(i, 0, epoch, true).inFlight;
  }

  /** The inbound side once both requests have come, on one connection and across a drop. */
  function BothRead(x: Scene, m: nat): In.In { Read(x, Read(x, In.EMPTY, m, 0), m, 0) }

  function ReadAcross(x: Scene, m: nat): In.In { Read(x, In.Forget(Read(x, In.EMPTY, m, 0)), m, 1) }

  lemma BothReached(x: Scene, m: nat)
    ensures Reachable(x.cfg, Provided(x, BothRead(x, m)))
  {
    var first := Read(x, In.EMPTY, m, 0);
    ReadReached(x, m);
    ReadStep(x, first, m);
    Reaches(x.cfg, Provided(x, first), Timed(x.t, RequestArrives(m, x.name)), Provided(x, BothRead(x, m)));
  }

  lemma AcrossReached(x: Scene, m: nat)
    requires x.cfg.reconnect
    ensures Reachable(x.cfg, Replays(x, false, ReadAcross(x, m)))
  {
    var first := Read(x, In.EMPTY, m, 0);
    ReadReached(x, m);
    ReplayReached(x, first);
    ReadAgainStep(x, In.Forget(first), m);
    Reaches(x.cfg, Replays(x, false, In.Forget(first)), Timed(x.Up(), RequestArrives(m, x.name)),
            Replays(x, false, ReadAcross(x, m)));
  }

  /** What the two handlers write for id `m`, settling in the order they began. */
  ghost predicate FirstAnswers(cfg: Config, s: State, m: nat) {
    && Legal(s, Timed(s.now, HandlerSettles(0))) && |s.inb.tasks| == 2 && s.link.writable
    && m in s.inb.inFlight && !In.AnswersOwn(s.inb, 0)
    && var s' := Step(cfg, s, Timed(s.now, HandlerSettles(0)));
    && s'.inb.responded == s.inb.responded + multiset{In.Key(s.Epoch(), m)}
    && In.Finish(s'.inb, 1, s.Epoch(), true).responded == s'.inb.responded
  }

  lemma SettleStep(cfg: Config, s: State, m: nat, h: nat)
    requires Linked(s.out) && MayWaitUntil(s, s.now) && s.link.writable && s.inb.responded == multiset{}
    requires s.inb.tasks == [In.Task(m, h, false), In.Task(m, h, false)]
    requires s.inb.inFlight.Keys == {m} && s.inb.owner == map[m := 1]
    ensures FirstAnswers(cfg, s, m)
  {
    FirstAnswersForSecond(s.inb, m, h, s.Epoch());
  }

  /**
    Two requests of one id on one connection: the first handler's response is the only one, though the request
    in flight under the id is by then the second's.
   */
  lemma ReusedIdAnswered(x: Scene, m: nat)
    ensures Reachable(x.cfg, Provided(x, BothRead(x, m))) && FirstAnswers(x.cfg, Provided(x, BothRead(x, m)), m)
  {
    BothReached(x, m);
    SettleStep(x.cfg, Provided(x, BothRead(x, m)), m, x.handler);
  }

  /**
    A request, a drop, a reconnect, and a request of the same id: the handler left over from the lost
    connection answers the new request, whose own handler then writes nothing.
   */
  lemma StaleHandlerAnswers(x: Scene, m: nat)
    requires x.cfg.reconnect
    ensures
      var s := Replays(x, false, ReadAcross(x, m));
      Reachable(x.cfg, s) && s.Epoch() == 1 && FirstAnswers(x.cfg, s, m)
  {
    AcrossReached(x, m);
    SettleStep(x.cfg, Replays(x, false, ReadAcross(x, m)), m, x.handler);
  }
}
