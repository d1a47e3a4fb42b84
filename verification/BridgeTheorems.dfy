/** The bridge's promises to its callers and to the router, over every run from a fresh connection. */
module BridgeTheorems {
  import opened Common
  import opened Options
  import opened Outbound
  import opened BridgeState
  import opened BridgeRuns
  import In = Inbound

  // ---------------------------------------------------------------- bounded replay

  /** REQUESTs sent so far on behalf of call `c`. */
  function RequestsOf(ts: seq<Attempt>, c: nat): nat {
    if ts == [] then 0
    else RequestsOf(ts[..|ts| - 1], c) + (if ts[|ts| - 1].call == c then 1 else 0)
  }

  lemma {:induction false} OpensGrow(cfg: Config, l: Link, now: int, d: nat, e: nat)
    requires LinkInv(cfg, l, now) && d <= e < |l.opens|
    ensures l.opens[d] <= l.opens[e]
  {
    if d < e {
      OpensGrow(cfg, l, now, d, e - 1);
      assert l.opens[e - 1] <= l.closes[e - 1] && l.closes[e - 1] + Gap(cfg) <= l.opens[e - 1 + 1];
    }
  }

  /** Two attempts of one call are on different connections, a backoff delay apart. */
  lemma AttemptsApart(cfg: Config, s: State, a: nat, b: nat)
    requires SysInv(cfg, s) && a < b < |s.out.attempts| && s.out.attempts[a].call == s.out.attempts[b].call
    ensures s.out.attempts[a].epoch < s.out.attempts[b].epoch
    ensures s.out.attempts[a].sentAt + Gap(cfg) <= s.out.attempts[b].sentAt
  {
    var x, y := s.out.attempts[a], s.out.attempts[b];
    assert OnConnection(x, s.link) && OnConnection(y, s.link);
    assert s.link.closes[x.epoch] + Gap(cfg) <= s.link.opens[x.epoch + 1];
    OpensGrow(cfg, s.link, s.now, x.epoch + 1, y.epoch);
  }

  /** Requests of call `c` start no earlier than `start` and are at least `gap` apart. */
  ghost predicate Apart(ts: seq<Attempt>, c: nat, start: int, gap: int) {
    && (forall a :: 0 <= a < |ts| && ts[a].call == c ==> start <= ts[a].sentAt)
    && (forall a, b :: 0 <= a < b < |ts| && ts[a].call == c && ts[b].call == c ==> ts[a].sentAt + gap <= ts[b].sentAt)
  }

  lemma OneMoreGap(start: int, n: nat, gap: int, prior: int, last: int)
    requires start + (n - 1) * gap <= prior && prior + gap <= last
    ensures start + n * gap <= last
  {
    assert n * gap == (n - 1) * gap + gap;
  }

  /** The latest of several requests of one call was sent that many delays, less one, after the call began. */
  lemma {:induction false} LatestOf(ts: seq<Attempt>, c: nat, start: int, gap: int) returns (last: nat)
    requires Apart(ts, c, start, gap) && RequestsOf(ts, c) >= 1
    ensures last < |ts| && ts[last].call == c
    ensures start + (RequestsOf(ts, c) - 1) * gap <= ts[last].sentAt
  {
    var front := ts[..|ts| - 1];
    var before := RequestsOf(front, c);
    if ts[|ts| - 1].call != c {
      last := LatestOf(front, c, start, gap);
    } else {
      last := |ts| - 1;
      if before >= 1 {
        var prior := LatestOf(front, c, start, gap);
        OneMoreGap(start, before, gap, ts[prior].sentAt, ts[last].sentAt);
      }
    }
  }

  lemma {:induction false} NoneOf(ts: seq<Attempt>, c: nat)
    requires forall a :: 0 <= a < |ts| ==> ts[a].call != c
    ensures RequestsOf(ts, c) == 0
  {
    if ts != [] { NoneOf(ts[..|ts| - 1], c); }
  }

  lemma {:induction false} AtMostOneOf(ts: seq<Attempt>, c: nat)
    requires forall a, b :: 0 <= a < b < |ts| ==> !(ts[a].call == c && ts[b].call == c)
    ensures RequestsOf(ts, c) <= 1
  {
    if ts != [] {
      var front := ts[..|ts| - 1];
      if ts[|ts| - 1].call == c {
        NoneOf(front, c);
      } else {
        AtMostOneOf(front, c);
      }
    }
  }

  /** The REQUESTs sent on connection `e`. */
  function OnEpoch(ts: seq<Attempt>, e: nat): seq<Attempt> {
    if ts == [] then []
    else OnEpoch(ts[..|ts| - 1], e) + (if ts[|ts| - 1].epoch == e then [ts[|ts| - 1]] else [])
  }

  lemma {:induction false} OnePerConnection(ts: seq<Attempt>, c: nat, e: nat)
    requires forall a, b :: 0 <= a < b < |ts| && ts[a].call == ts[b].call ==> ts[a].epoch < ts[b].epoch
    ensures RequestsOf(OnEpoch(ts, e), c) <= 1
    ensures (forall a :: 0 <= a < |ts| && ts[a].call == c ==> ts[a].epoch < e) ==> RequestsOf(OnEpoch(ts, e), c) == 0
  {
    if ts != [] {
      var front, t := ts[..|ts| - 1], ts[|ts| - 1];
      assert forall a :: 0 <= a < |front| ==> front[a] == ts[a];
      OnePerConnection(front, c, e);
      if t.epoch == e {
        var es := OnEpoch(front, e) + [t];
        assert es[..|es| - 1] == OnEpoch(front, e);
      } else {
        assert OnEpoch(ts, e) == OnEpoch(front, e);
      }
    }
  }

  /** What a caller can rely on about call `c`. */
  ghost predicate CallPromise(cfg: Config, s: State, c: nat)
    requires c < |s.out.calls|
  {
    var k, n := s.out.calls[c], RequestsOf(s.out.attempts, c);
    && (forall e: nat :: RequestsOf(OnEpoch(s.out.attempts, e), c) <= 1)
    && (!k.idempotent ==> n <= 1)
    && (Gap(cfg) > 0 ==> n <= 1 + Max(0, k.deadline - k.start) / Gap(cfg))
    && (!k.phase.Settled? ==> s.now <= Max(k.start, k.deadline))
    && (k.phase.Settled? ==> k.start <= k.phase.at <= Max(k.start, k.deadline))
  }

  lemma CallApart(cfg: Config, s: State, c: nat)
    requires SysInv(cfg, s) && c < |s.out.calls|
    ensures Apart(s.out.attempts, c, s.out.calls[c].start, Gap(cfg))
  {
    var ts := s.out.attempts;
    forall a | 0 <= a < |ts| && ts[a].call == c ensures s.out.calls[c].start <= ts[a].sentAt {
      assert AttemptTimely(ts[a], s.out.calls[c], s.now);
    }
    forall a, b | 0 <= a < b < |ts| && ts[a].call == c && ts[b].call == c
      ensures ts[a].sentAt + Gap(cfg) <= ts[b].sentAt
    {
      AttemptsApart(cfg, s, a, b);
    }
  }

  lemma CountWithin(ts: seq<Attempt>, c: nat, start: int, gap: int, limit: int)
    requires Apart(ts, c, start, gap) && gap > 0 && start <= limit
    requires forall a :: 0 <= a < |ts| && ts[a].call == c ==> ts[a].sentAt <= limit
    ensures RequestsOf(ts, c) <= 1 + (limit - start) / gap
  {
    if RequestsOf(ts, c) >= 1 {
      var last := LatestOf(ts, c, start, gap);
      DivideBound(RequestsOf(ts, c) - 1, gap, limit - start);
    }
  }

  lemma SentWithin(s: State, c: nat)
    requires OutInv(s) && c < |s.out.calls|
    ensures
      var ts, k := s.out.attempts, s.out.calls[c];
      forall a :: 0 <= a < |ts| && ts[a].call == c ==> ts[a].sentAt <= Limit(k)
  {
    var ts, k := s.out.attempts, s.out.calls[c];
    forall a | 0 <= a < |ts| && ts[a].call == c ensures ts[a].sentAt <= Limit(k) {
      assert AttemptTimely(ts[a], k, s.now);
    }
  }

  lemma BudgetBounds(cfg: Config, s: State, c: nat)
    requires SysInv(cfg, s) && c < |s.out.calls| && Gap(cfg) > 0
    ensures RequestsOf(s.out.attempts, c) <= 1 + Max(0, s.out.calls[c].deadline - s.out.calls[c].start) / Gap(cfg)
  {
    CallApart(cfg, s, c);
    SentWithin(s, c);
    CallCount(s.out.attempts, c, s.out.calls[c], Gap(cfg));
  }

  lemma CallCount(ts: seq<Attempt>, c: nat, k: Call, gap: int)
    requires Apart(ts, c, k.start, gap) && gap > 0
    requires forall a :: 0 <= a < |ts| && ts[a].call == c ==> ts[a].sentAt <= Limit(k)
    ensures RequestsOf(ts, c) <= 1 + Max(0, k.deadline - k.start) / gap
  {
    CountWithin(ts, c, k.start, gap, Limit(k));
    BudgetIs(k, gap);
  }

  lemma BudgetIs(k: Call, gap: int)
    requires gap > 0
    ensures (Limit(k) - k.start) / gap == Max(0, k.deadline - k.start) / gap
  {
  }

  lemma DivideBound(n: nat, d: int, total: int)
    requires d > 0 && n * d <= total
    ensures n <= total / d
  {
    assert total < (total / d + 1) * d;
    assert n * d < (total / d + 1) * d;
  }

  lemma DeadlineKept(cfg: Config, s: State, c: nat)
    requires SysInv(cfg, s) && c < |s.out.calls|
    ensures
      var k := s.out.calls[c];
      && (!k.phase.Settled? ==> s.now <= Max(k.start, k.deadline))
      && (k.phase.Settled? ==> k.start <= k.phase.at <= Max(k.start, k.deadline))
  {
    var k := s.out.calls[c];
    assert CallTimely(k, s.now);
    if k.phase.InFlight? {
      assert Holds(s.out, k.phase.attempt, c);
      assert AttemptTimely(s.out.attempts[k.phase.attempt], k, s.now);
    }
  }

  lemma PromiseKept(cfg: Config, s: State, c: nat)
    requires SysInv(cfg, s) && c < |s.out.calls|
    ensures CallPromise(cfg, s, c)
  {
    var ts := s.out.attempts;
    forall e: nat ensures RequestsOf(OnEpoch(ts, e), c) <= 1 {
      OnePerConnection(ts, c, e);
    }
    if !s.out.calls[c].idempotent { AtMostOneOf(ts, c); }
    if Gap(cfg) > 0 { BudgetBounds(cfg, s, c); }
    DeadlineKept(cfg, s, c);
  }

  /**
    Bounded replay. In every run each call puts at most one REQUEST on any one connection, at most one in
    all unless idempotent, and otherwise no more than its budget divided by the least backoff delay, plus
    one; and it is settled by its deadline.
   */
  lemma BoundedReplay(cfg: Config, s: State, c: nat)
    requires Reachable(cfg, s) && c < |s.out.calls|
    ensures CallPromise(cfg, s, c)
  {
    ReachableKeeps(cfg, s);
    PromiseKept(cfg, s, c);
  }

  // ---------------------------------------------------------------- a settled call stays settled

  /** What a turn may add to the outbound log: nothing for settled calls, and nothing rewritten. */
  ghost predicate Frozen(o: Out, o': Out) {
    && |o.attempts| <= |o'.attempts| && |o.calls| <= |o'.calls|
    && (forall a :: 0 <= a < |o.attempts| ==> SameAttempt(o.attempts[a], o'.attempts[a]))
    && (forall c :: 0 <= c < |o.calls| ==> SameCall(o.calls[c], o'.calls[c]))
    && (forall a :: |o.attempts| <= a < |o'.attempts| ==> NotForSettled(o, o'.attempts[a]))
  }

  predicate NotForSettled(o: Out, t: Attempt) {
    t.call < |o.calls| ==> !o.calls[t.call].phase.Settled?
  }

  lemma GrowsFrozen(o: Out, o': Out, up: bool, epoch: nat, now: int)
    requires Grows(o, o', up, epoch, now)
    ensures Frozen(o, o')
  {
    forall a | |o.attempts| <= a < |o'.attempts| ensures NotForSettled(o, o'.attempts[a]) {
      assert FreshAttempt(o, o'.attempts[a], up, epoch, now);
    }
  }

  lemma FrozenTrans(o: Out, o1: Out, o2: Out)
    requires Frozen(o, o1) && Frozen(o1, o2)
    ensures Frozen(o, o2)
  {
    forall a | 0 <= a < |o.attempts| ensures SameAttempt(o.attempts[a], o2.attempts[a]) {
      assert SameAttempt(o.attempts[a], o1.attempts[a]) && SameAttempt(o1.attempts[a], o2.attempts[a]);
    }
    forall c | 0 <= c < |o.calls| ensures SameCall(o.calls[c], o2.calls[c]) {
      assert SameCall(o.calls[c], o1.calls[c]) && SameCall(o1.calls[c], o2.calls[c]);
    }
    forall a | |o.attempts| <= a < |o2.attempts| ensures NotForSettled(o, o2.attempts[a]) {
      if a < |o1.attempts| {
        assert NotForSettled(o, o1.attempts[a]) && SameAttempt(o1.attempts[a], o2.attempts[a]);
      } else {
        assert NotForSettled(o1, o2.attempts[a]);
        var c := o2.attempts[a].call;
        assert c < |o.calls| ==> SameCall(o.calls[c], o1.calls[c]);
      }
    }
  }

  lemma TurnFrozen(cfg: Config, s: State, e: Event)
    requires SysInv(cfg, s) && Linked(s.out) && Enabled(s, e)
    ensures Frozen(s.out, Turn(cfg, s, e).out)
  {
    GrowsSelf(s.out, s.link.connected, s.Epoch(), s.now);
    GrowsFrozen(s.out, s.out, s.link.connected, s.Epoch(), s.now);
    if e.TransportCloses? {
      CloseOut(cfg, s);
      GrowsFrozen(s.out, Turn(cfg, s, e).out, false, s.Epoch(), s.now);
    } else if e.ConnectSucceeds? {
      ConnectFrozen(cfg, s, e.names);
    } else if e.CloseCalled? {
      OurCloseFrozen(cfg, s);
    } else if CallTurn(e) {
      CallTurnKeeps(cfg, s, e);
      GrowsFrozen(s.out, Turn(cfg, s, e).out, s.link.connected, s.Epoch(), s.now);
    }
  }

  lemma ConnectFrozen(cfg: Config, s: State, names: seq<string>)
    requires SysInv(cfg, s) && s.link.connecting && Linked(s.out)
    ensures Frozen(s.out, OnConnectSuccess(s, names).out)
  {
    var l := s.link.(connecting := false, connected := true, writable := true, reconnectAttempt := 0,
                     opens := s.link.opens + [s.now]);
    var s1 := s.(link := l, reg := s.reg.(sent := [], snapshot := names));
    ComeUp(s.out, s.Epoch(), s.now);
    NextNameWithin(s1, names, true);
    GrowsFrozen(s.out, OnConnectSuccess(s, names).out, true, s1.Epoch(), s.now);
  }

  lemma OurCloseFrozen(cfg: Config, s: State)
    requires SysInv(cfg, s)
    ensures Frozen(s.out, OnClose(s).out)
  {
    GrowsSelf(s.out, s.link.connected, s.Epoch(), s.now);
    GrowsFrozen(s.out, s.out, s.link.connected, s.Epoch(), s.now);
    StartKeeps(s.out, Reset, RESET_TIMEOUT_MS, false, s.link.connected, s.Epoch(), s.now);
    GrowsFrozen(s.out, Start(s.out, Reset, RESET_TIMEOUT_MS, false, s.link.connected, s.Epoch(), s.now),
                s.link.connected, s.Epoch(), s.now);
  }

  lemma {:induction false} RunFrozen(cfg: Config, s: State, ts: seq<Timed>)
    requires SysInv(cfg, s) && LegalRun(cfg, s, ts)
    ensures Frozen(s.out, Run(cfg, s, ts).out)
    decreases |ts|
  {
    if ts == [] {
      GrowsSelf(s.out, s.link.connected, s.Epoch(), s.now);
      GrowsFrozen(s.out, s.out, s.link.connected, s.Epoch(), s.now);
    } else {
      WaitKeeps(cfg, s, ts[0].at);
      TurnFrozen(cfg, s.(now := ts[0].at), ts[0].event);
      StepKeeps(cfg, s, ts[0]);
      RunFrozen(cfg, Step(cfg, s, ts[0]), ts[1..]);
      FrozenTrans(s.out, Step(cfg, s, ts[0]).out, Run(cfg, s, ts).out);
    }
  }

  lemma {:induction false} RequestsFixed(xs: seq<Attempt>, ys: seq<Attempt>, c: nat)
    requires |xs| <= |ys|
    requires forall a :: 0 <= a < |xs| ==> ys[a].call == xs[a].call
    requires forall a :: |xs| <= a < |ys| ==> ys[a].call != c
    ensures RequestsOf(ys, c) == RequestsOf(xs, c)
    decreases |ys|
  {
    if |ys| > |xs| {
      RequestsFixed(xs, ys[..|ys| - 1], c);
    } else if xs != [] {
      RequestsFixed(xs[..|xs| - 1], ys[..|ys| - 1], c);
    }
  }

  /** Once settled, by a timeout or otherwise, a call keeps its outcome and never sends another REQUEST. */
  lemma SettledForGood(cfg: Config, s: State, ts: seq<Timed>, c: nat)
    requires Reachable(cfg, s) && LegalRun(cfg, s, ts)
    requires c < |s.out.calls| && s.out.calls[c].phase.Settled?
    ensures
      var o' := Run(cfg, s, ts).out;
      && c < |o'.calls| && o'.calls[c].phase == s.out.calls[c].phase
      && RequestsOf(o'.attempts, c) == RequestsOf(s.out.attempts, c)
  {
    ReachableKeeps(cfg, s);
    RunFrozen(cfg, s, ts);
    var o, o' := s.out, Run(cfg, s, ts).out;
    assert SameCall(o.calls[c], o'.calls[c]);
    forall a | 0 <= a < |o.attempts| ensures o'.attempts[a].call == o.attempts[a].call {
      assert SameAttempt(o.attempts[a], o'.attempts[a]);
    }
    forall a | |o.attempts| <= a < |o'.attempts| ensures o'.attempts[a].call != c {
      assert NotForSettled(o, o'.attempts[a]);
    }
    RequestsFixed(o.attempts, o'.attempts, c);
  }

  // ---------------------------------------------------------------- inbound requests

  /**
    Inbound conservation. In every run, for every message id on every connection, the responses written
    plus one if the request is still in flight never exceed the requests read; on a connection still
    writable the two differ by exactly the requests that reused an id while it was in flight.
   */
  lemma InboundConservation(cfg: Config, s: State, k: In.Key)
    requires Reachable(cfg, s)
    ensures s.inb.responded[k] + In.Open(s.inb, k, s.Epoch()) <= s.inb.received[k]
    ensures k.epoch == s.Epoch() && s.link.writable ==>
      s.inb.responded[k] + In.Open(s.inb, k, s.Epoch()) + s.inb.merged[k] == s.inb.received[k]
  {
    ReachableKeeps(cfg, s);
    assert In.KeyConserved(s.inb, k, s.Epoch(), s.link.writable);
  }

  lemma TurnInbound(cfg: Config, s: State, e: Event)
    requires SysInv(cfg, s) && Linked(s.out) && Enabled(s, e)
    requires s.inb.inFlight == map[] && !e.RequestArrives?
    ensures Turn(cfg, s, e).inb.inFlight == map[] && Turn(cfg, s, e).inb.responded == s.inb.responded
  {
    if e.HandlerSettles? {
      In.FinishSilent(s.inb, e.task, s.Epoch(), s.link.writable);
    } else if CallTurn(e) {
      CallTurnKeeps(cfg, s, e);
    } else if e.RouterHandles? {
      RouterKeeps(cfg, s, e.attempt);
    } else if e.CloseCalled? {
      assert (set m | m in s.inb.inFlight.Keys :: In.Key(s.Epoch(), m)) == {};
    }
  }

  /** Nothing is in flight, and `r` is what has been answered. */
  ghost predicate Answered(cfg: Config, s: State, r: multiset<In.Key>) {
    SysInv(cfg, s) && s.inb.inFlight == map[] && s.inb.responded == r
  }

  lemma QuietStep(cfg: Config, s: State, t: Timed, r: multiset<In.Key>)
    requires Answered(cfg, s, r) && Legal(s, t) && !t.event.RequestArrives?
    ensures Answered(cfg, Step(cfg, s, t), r)
  {
    WaitKeeps(cfg, s, t.at);
    TurnInbound(cfg, s.(now := t.at), t.event);
    StepKeeps(cfg, s, t);
  }

  lemma {:induction false} QuietRun(cfg: Config, s: State, ts: seq<Timed>, r: multiset<In.Key>)
    requires Answered(cfg, s, r) && LegalRun(cfg, s, ts)
    requires forall i :: 0 <= i < |ts| ==> !ts[i].event.RequestArrives?
    ensures Answered(cfg, Run(cfg, s, ts), r)
    decreases |ts|
  {
    if ts != [] {
      QuietStep(cfg, s, ts[0], r);
      QuietRun(cfg, Step(cfg, s, ts[0]), ts[1..], r);
    }
  }

  lemma CloseDrains(cfg: Config, s: State, at: int, m: nat)
    requires SysInv(cfg, s) && Legal(s, Timed(at, CloseCalled)) && s.link.writable
    ensures
      var s', k := Step(cfg, s, Timed(at, CloseCalled)), In.Key(s.Epoch(), m);
      && Answered(cfg, s', s'.inb.responded)
      && s'.inb.responded[k] == s.inb.responded[k] + (if m in s.inb.inFlight then 1 else 0)
      && (s.inb.received[k] == 1 ==> s'.inb.responded[k] == 1)
  {
    StepKeeps(cfg, s, Timed(at, CloseCalled));
    In.DrainAnswersAll(s.inb, s.Epoch(), m);
  }

  /**
    Exactly one response. When close() begins on a writable connection, every request in flight gets one
    response in that turn, an id read once has then been answered exactly once, and however the run goes
    on without further requests, no handler that settles later adds another.
   */
  lemma CloseAnswersOnce(cfg: Config, s: State, at: int, after: seq<Timed>, m: nat)
    requires Reachable(cfg, s) && s.link.writable && Legal(s, Timed(at, CloseCalled))
    requires LegalRun(cfg, Step(cfg, s, Timed(at, CloseCalled)), after)
    requires forall i :: 0 <= i < |after| ==> !after[i].event.RequestArrives?
    ensures
      var final := Run(cfg, Step(cfg, s, Timed(at, CloseCalled)), after).inb;
      var k := In.Key(s.Epoch(), m);
      && final.responded[k] == s.inb.responded[k] + (if m in s.inb.inFlight then 1 else 0)
      && (s.inb.received[k] == 1 ==> final.responded[k] == 1)
  {
    ReachableKeeps(cfg, s);
    var closing := Step(cfg, s, Timed(at, CloseCalled));
    CloseDrains(cfg, s, at, m);
    QuietRun(cfg, closing, after, closing.inb.responded);
  }

  // ---------------------------------------------------------------- whose request a handler answers

  /** Turns other than a request, a handler settling, a drop and close() leave the inbound side alone. */
  lemma TurnElsewhere(cfg: Config, s: State, e: Event)
    requires SysInv(cfg, s) && Linked(s.out) && Enabled(s, e)
    requires !e.RequestArrives? && !e.HandlerSettles? && !e.TransportCloses? && !e.CloseCalled?
    ensures Turn(cfg, s, e).inb == s.inb
  {
    if e.RouterHandles? {
      RouterKeeps(cfg, s, e.attempt);
    } else if e.ConnectSucceeds? {
      ConnectElsewhere(cfg, s, e.names);
    } else if !e.SocketFails? && !e.ReconnectTimer? && !e.ConnectFails? {
      CallTurnKeeps(cfg, s, e);
    }
  }

  lemma ConnectElsewhere(cfg: Config, s: State, names: seq<string>)
    requires SysInv(cfg, s) && Linked(s.out)
    ensures OnConnectSuccess(s, names).inb == s.inb
  {
  }

  lemma TurnOwned(cfg: Config, s: State, e: Event)
    requires SysInv(cfg, s) && Linked(s.out) && Enabled(s, e) && In.Owned(s.inb)
    ensures In.Owned(Turn(cfg, s, e).inb)
  {
    if e.RequestArrives? {
      In.ReceiveOwned(s.inb, e.msgid, e.name, HandlerOf(s.reg, e.name), s.Epoch(), s.link.writable);
    } else if e.HandlerSettles? {
      In.FinishOwned(s.inb, e.task, s.Epoch(), s.link.writable);
    } else if !e.TransportCloses? && !e.CloseCalled? {
      TurnElsewhere(cfg, s, e);
    }
  }

  lemma {:induction false} RunOwned(cfg: Config, s: State, ts: seq<Timed>)
    requires SysInv(cfg, s) && In.Owned(s.inb) && LegalRun(cfg, s, ts)
    ensures In.Owned(Run(cfg, s, ts).inb)
    decreases |ts|
  {
    if ts != [] {
      StepKeeps(cfg, s, ts[0]);
      WaitKeeps(cfg, s, ts[0].at);
      TurnOwned(cfg, s.(now := ts[0].at), ts[0].event);
      RunOwned(cfg, Step(cfg, s, ts[0]), ts[1..]);
    }
  }

  lemma ReachableOwned(cfg: Config, s: State)
    requires Reachable(cfg, s)
    ensures In.Owned(s.inb)
  {
    var t, ts :| LegalRun(cfg, Initial(t), ts) && Run(cfg, Initial(t), ts) == s;
    InitialKeeps(cfg, t);
    RunOwned(cfg, Initial(t), ts);
  }

  /**
    In every run a settling handler answers just when its id is in flight, and then answers the request it was
    started for if and only if no handler was started since for a request of the same id, on this connection
    or a later one. Otherwise it answers that later request, whose own handler then writes nothing.
   */
  lemma HandlerAnswersOwnIff(cfg: Config, s: State, at: int, t: nat)
    requires Reachable(cfg, s) && Legal(s, Timed(at, HandlerSettles(t)))
    ensures t < |s.inb.tasks|
    ensures
      var m, s' := s.inb.tasks[t].msgid, Step(cfg, s, Timed(at, HandlerSettles(t)));
      && s'.inb.responded == s.inb.responded
           + (if m in s.inb.inFlight && s.link.writable then multiset{In.Key(s.Epoch(), m)} else multiset{})
      && (m in s.inb.inFlight ==> (In.AnswersOwn(s.inb, t) <==> In.LastOfItsId(s.inb, t)))
      && (m in s.inb.inFlight && !In.LastOfItsId(s.inb, t) ==>
            && m in s.inb.owner && t < s.inb.owner[m] < |s'.inb.tasks|
            && In.Finish(s'.inb, s.inb.owner[m], s.Epoch(), s.link.writable).responded == s'.inb.responded)
  {
    ReachableOwned(cfg, s);
    assert Enabled(s.(now := at), HandlerSettles(t));
    if s.inb.tasks[t].msgid in s.inb.inFlight {
      In.AnswersOwnIff(s.inb, t);
      if !In.LastOfItsId(s.inb, t) { In.AnswersAnother(s.inb, t, s.Epoch(), s.link.writable); }
    }
  }

  /** The router never reuses an id while a handler for it runs. */
  ghost predicate NoReuse(s: State, e: Event) {
    e.RequestArrives? && e.name in s.reg.providers ==> In.Unused(s.inb, e.msgid)
  }

  ghost predicate NeverReuses(cfg: Config, s: State, ts: seq<Timed>)
    requires LegalRun(cfg, s, ts)
    decreases |ts|
  {
    ts == [] || (NoReuse(s, ts[0].event) && NeverReuses(cfg, Step(cfg, s, ts[0]), ts[1..]))
  }

  lemma TurnApart(cfg: Config, s: State, e: Event)
    requires SysInv(cfg, s) && Linked(s.out) && Enabled(s, e) && In.RunningApart(s.inb) && NoReuse(s, e)
    ensures In.RunningApart(Turn(cfg, s, e).inb)
  {
    if e.RequestArrives? {
      In.ReceiveApart(s.inb, e.msgid, e.name, HandlerOf(s.reg, e.name), s.Epoch(), s.link.writable);
    } else if e.HandlerSettles? {
      In.FinishApart(s.inb, e.task, s.Epoch(), s.link.writable);
    } else if e.TransportCloses? || e.CloseCalled? {
      In.SameTasksApart(s.inb, Turn(cfg, s, e).inb);
    } else {
      TurnElsewhere(cfg, s, e);
    }
  }

  lemma {:induction false} RunApart(cfg: Config, s: State, ts: seq<Timed>)
    requires SysInv(cfg, s) && In.RunningApart(s.inb) && LegalRun(cfg, s, ts) && NeverReuses(cfg, s, ts)
    ensures In.RunningApart(Run(cfg, s, ts).inb)
    decreases |ts|
  {
    if ts != [] {
      StepKeeps(cfg, s, ts[0]);
      WaitKeeps(cfg, s, ts[0].at);
      TurnApart(cfg, s.(now := ts[0].at), ts[0].event);
      RunApart(cfg, Step(cfg, s, ts[0]), ts[1..]);
    }
  }

  /** If the router keeps to that, every handler that settles with its id in flight answers its own request. */
  lemma UnusedIdsSuffice(cfg: Config, begun: int, ts: seq<Timed>, t: nat)
    requires LegalRun(cfg, Initial(begun), ts) && NeverReuses(cfg, Initial(begun), ts)
    requires t < |Run(cfg, Initial(begun), ts).inb.tasks|
    ensures
      var i := Run(cfg, Initial(begun), ts).inb;
      !i.tasks[t].done && i.tasks[t].msgid in i.inFlight ==> In.AnswersOwn(i, t)
  {
    var i := Run(cfg, Initial(begun), ts).inb;
    InitialKeeps(cfg, begun);
    RunOwned(cfg, Initial(begun), ts);
    RunApart(cfg, Initial(begun), ts);
    if !i.tasks[t].done && i.tasks[t].msgid in i.inFlight { In.AnswersOwnIff(i, t); }
  }

  // ---------------------------------------------------------------- no reconnect after close()

  lemma TurnStaysClosed(cfg: Config, s: State, e: Event)
    requires SysInv(cfg, s) && Linked(s.out) && Enabled(s, e) && s.link.closedByUs
    ensures Turn(cfg, s, e).link.closedByUs && Turn(cfg, s, e).link.connects == s.link.connects
  {
    if CallTurn(e) {
      CallTurnKeeps(cfg, s, e);
    } else if e.RouterHandles? {
      RouterKeeps(cfg, s, e.attempt);
    } else if e.ConnectSucceeds? {
      ConnectKeeps(cfg, s, e.names);
    }
  }

  lemma {:induction false} RunStaysClosed(cfg: Config, s: State, ts: seq<Timed>)
    requires SysInv(cfg, s) && LegalRun(cfg, s, ts) && s.link.closedByUs
    ensures Run(cfg, s, ts).link.connects == s.link.connects
    decreases |ts|
  {
    if ts != [] {
      WaitKeeps(cfg, s, ts[0].at);
      TurnStaysClosed(cfg, s.(now := ts[0].at), ts[0].event);
      StepKeeps(cfg, s, ts[0]);
      RunStaysClosed(cfg, Step(cfg, s, ts[0]), ts[1..]);
    }
  }

  /** Once close() has begun, no connect attempt starts. */
  lemma NoConnectAfterClose(cfg: Config, s: State, ts: seq<Timed>)
    requires Reachable(cfg, s) && LegalRun(cfg, s, ts) && s.link.closedByUs
    ensures Run(cfg, s, ts).link.connects == s.link.connects
  {
    ReachableKeeps(cfg, s);
    RunStaysClosed(cfg, s, ts);
  }
}
