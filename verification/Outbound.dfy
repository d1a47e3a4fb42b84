/**
  The outbound half of packages/bridge/src/bridge.ts: calls, their attempts, message ids, the `pending`
  map and the retry loop of callWithOptions, as pure transitions on one record. Times are milliseconds.
  An attempt is numbered by how many ids were drawn before its own.
 */
module Outbound {

  import opened Common
  import opened Options

  const ID_SPACE: nat := 0x8000_0000

  /** Who awaits the call, and what its answer lets them do. */
  datatype Kind = User | Provide(name: string, handler: nat) | Subscribe(name: string) | Replay(name: string) | Reset

  datatype Outcome = Answered(ok: bool) | TimedOut | ConnectionLost

  datatype Cause = ByResponse | ByTimer | ByClose

  /** Where a call's coroutine is suspended, or how it ended. */
  datatype Phase = InFlight(attempt: nat) | Waiting | Settled(outcome: Outcome, at: int)

  datatype Call = Call(kind: Kind, start: int, deadline: int, idempotent: bool, phase: Phase)

  /** One REQUEST and the promise awaiting its RESPONSE; its timer is live while `cause` is None. */
  datatype Attempt = Attempt(call: nat, epoch: nat, sentAt: int, due: int, cause: Option<Cause>)

  /** `waiting` is the listener list of the 'reconnect' event. */
  datatype Out = Out(attempts: seq<Attempt>, pending: map<nat, nat>, calls: seq<Call>, waiting: seq<nat>)

  /** The id `nextMsgId` hands to attempt number `a`: (a + 1) & 0x7fffffff. */
  function IdOf(a: nat): nat { (a + 1) % ID_SPACE }

  // ---------------------------------------------------------------- transitions

  predicate Indexed(o: Out) {
    forall a :: 0 <= a < |o.attempts| ==> o.attempts[a].call < |o.calls|
  }

  /** Every attempt's call, every pending id's attempt and every listener exists. */
  ghost predicate Linked(o: Out) {
    && Indexed(o)
    && (forall id :: id in o.pending ==> o.pending[id] < |o.attempts|)
    && (forall i :: 0 <= i < |o.waiting| ==> o.waiting[i] < |o.calls|)
  }

  function SetPhase(o: Out, c: nat, p: Phase): Out
    requires c < |o.calls|
  {
    o.(calls := o.calls[c := o.calls[c].(phase := p)])
  }

  function SetCause(o: Out, a: nat, cause: Cause): Out
    requires a < |o.attempts|
  {
    o.(attempts := o.attempts[a := o.attempts[a].(cause := Some(cause))])
  }

  /** The catch clause of the retry loop on a ConnectionError: give up, time out, or await 'reconnect'. */
  function Lose(o: Out, c: nat, now: int): (o': Out)
    requires c < |o.calls|
    ensures Linked(o) ==> Linked(o')
  {
    if !o.calls[c].idempotent then SetPhase(o, c, Settled(ConnectionLost, now))
    else if o.calls[c].deadline - now <= 0 then SetPhase(o, c, Settled(TimedOut, now))
    else SetPhase(o, c, Waiting).(waiting := o.waiting + [c])
  }

  /** `attempt()`: fail fast while disconnected, otherwise draw an id, arm the timer and write the REQUEST. */
  function Try(o: Out, c: nat, up: bool, epoch: nat, now: int): (o': Out)
    requires c < |o.calls|
    ensures |o'.calls| == |o.calls| && (Linked(o) ==> Linked(o'))
  {
    if !up then Lose(o, c, now)
    else
      var a := |o.attempts|;
      SetPhase(o, c, InFlight(a)).(
        attempts := o.attempts + [Attempt(c, epoch, now, now + Max(0, o.calls[c].deadline - now), None)],
        pending := o.pending[IdOf(a) := a])
  }

  /** A call created and about to make its first attempt. */
  function Created(o: Out, kind: Kind, timeoutMs: int, idempotent: bool, now: int): Out {
    o.(calls := o.calls + [Call(kind, now, now + timeoutMs, idempotent, Waiting)])
  }

  function Start(o: Out, kind: Kind, timeoutMs: int, idempotent: bool, up: bool, epoch: nat, now: int): (o': Out)
    ensures Linked(o) ==> Linked(o')
  {
    Try(Created(o, kind, timeoutMs, idempotent, now), |o.calls|, up, epoch, now)
  }

  /** Settle attempt `a` and its call, deleting the attempt's id from `pending`. */
  function Settle(o: Out, a: nat, cause: Cause, outcome: Outcome, now: int): Out
    requires a < |o.attempts| && o.attempts[a].call < |o.calls|
  {
    SetPhase(SetCause(o.(pending := o.pending - {IdOf(a)}), a, cause), o.attempts[a].call, Settled(outcome, now))
  }

  /** A RESPONSE: settle the attempt pending under its id, if there is one. */
  function Respond(o: Out, id: nat, ok: bool, now: int): (o': Out)
    requires Linked(o)
    ensures Linked(o')
  {
    if id !in o.pending then o
    else
      var a := o.pending[id];
      SetPhase(SetCause(o.(pending := o.pending - {id}), a, ByResponse), o.attempts[a].call, Settled(Answered(ok), now))
  }

  /** An attempt's timer: delete its id, whoever holds it, and reject with TimeoutError. */
  function Expire(o: Out, a: nat, now: int): (o': Out)
    requires Linked(o) && a < |o.attempts|
    ensures Linked(o')
  {
    Settle(o, a, ByTimer, TimedOut, now)
  }

  /** The budget timer of a call awaiting 'reconnect'. */
  function GiveUp(o: Out, c: nat, now: int): Out
    requires c < |o.calls|
  {
    SetPhase(o, c, Settled(TimedOut, now)).(waiting := Without(o.waiting, c))
  }

  predicate Pending(o: Out, a: nat) {
    IdOf(a) in o.pending && o.pending[IdOf(a)] == a
  }

  /** The socket closed under attempt `a`: reject it with ConnectionError if it is still pending. */
  function Drop(o: Out, a: nat, now: int): (o': Out)
    requires Indexed(o) && a < |o.attempts|
    ensures Indexed(o') && |o'.attempts| == |o.attempts| && (Linked(o) ==> Linked(o'))
  {
    if Pending(o, a) then Lose(SetCause(o.(pending := o.pending - {IdOf(a)}), a, ByClose), o.attempts[a].call, now)
    else o
  }

  /** onTransportClose over `pending`, oldest attempt first. */
  function DropFrom(o: Out, a: nat, now: int): (o': Out)
    requires Indexed(o)
    ensures Linked(o) ==> Linked(o')
    decreases |o.attempts| - a
  {
    if a >= |o.attempts| then o else DropFrom(Drop(o, a, now), a + 1, now)
  }

  function TryAll(o: Out, cs: seq<nat>, up: bool, epoch: nat, now: int): (o': Out)
    requires forall i :: 0 <= i < |cs| ==> cs[i] < |o.calls|
    ensures Linked(o) ==> Linked(o')
    decreases |cs|
  {
    if cs == [] then o else TryAll(Try(o, cs[0], up, epoch, now), cs[1..], up, epoch, now)
  }

  /** emit('reconnect'): every waiting call leaves the listener list and attempts again. */
  function Emit(o: Out, up: bool, epoch: nat, now: int): (o': Out)
    requires Linked(o)
    ensures Linked(o')
  {
    TryAll(o.(waiting := []), o.waiting, up, epoch, now)
  }

  // ---------------------------------------------------------------- invariants

  /**
    How calls, attempts, `pending` and the listener list fit together. `todo` are calls taken off the
    listener list in the current turn that have yet to attempt again; it is empty between turns.
   */
  ghost predicate Sound(o: Out, todo: seq<nat>) {
    && Indexed(o)
    && NoRepeats(o.waiting + todo)
    && (forall c :: c in o.waiting + todo ==> c < |o.calls|)
    && (forall c :: c in o.waiting ==> c < |o.calls| && o.calls[c].idempotent)
    && (forall c :: 0 <= c < |o.calls| ==> (o.calls[c].phase.Waiting? <==> c in o.waiting + todo))
    && (forall c :: 0 <= c < |o.calls| && o.calls[c].phase.InFlight? ==> Holds(o, o.calls[c].phase.attempt, c))
    && (forall a :: 0 <= a < |o.attempts| && o.attempts[a].cause == None ==>
         o.calls[o.attempts[a].call].phase == InFlight(a))
    && (forall id :: id in o.pending ==> PendingSound(o, id))
  }

  /** Attempt `a` is call `c`'s and still unsettled. */
  predicate Holds(o: Out, a: nat, c: nat) {
    a < |o.attempts| && o.attempts[a].call == c && o.attempts[a].cause == None
  }

  predicate PendingSound(o: Out, id: nat)
    requires id in o.pending
  {
    o.pending[id] < |o.attempts| && IdOf(o.pending[id]) == id && o.attempts[o.pending[id]].cause == None
  }

  function Limit(k: Call): int { Max(k.start, k.deadline) }

  /** Every moment a call records lies between its start and its deadline, in order. */
  ghost predicate Timely(o: Out, now: int)
    requires Indexed(o)
  {
    && (forall c :: 0 <= c < |o.calls| ==> CallTimely(o.calls[c], now))
    && (forall a :: 0 <= a < |o.attempts| ==> AttemptTimely(o.attempts[a], o.calls[o.attempts[a].call], now))
  }

  predicate CallTimely(k: Call, now: int) {
    && k.start <= now
    && (k.phase.Waiting? ==> now <= Limit(k))
    && (k.phase.Settled? ==> k.start <= k.phase.at <= Limit(k) && k.phase.at <= now)
  }

  predicate AttemptTimely(t: Attempt, k: Call, now: int) {
    && k.start <= t.sentAt <= Limit(k) && t.sentAt <= now
    && t.due == Max(t.sentAt, k.deadline)
    && (t.cause == None ==> now <= t.due)
    && (k.phase.Settled? ==> t.sentAt <= k.phase.at)
  }

  /** Attempts of one call are on ever newer connections, and only an idempotent call has several. */
  ghost predicate Ordered(o: Out, up: bool, epoch: nat)
    requires Indexed(o)
  {
    && (forall a :: 0 <= a < |o.attempts| ==> o.attempts[a].epoch <= epoch)
    && (forall a :: 0 <= a < |o.attempts| && Pending(o, a) ==> o.attempts[a].epoch == epoch)
    && (forall a :: 0 <= a < |o.attempts| && o.calls[o.attempts[a].call].phase.Waiting? ==>
          (up ==> o.calls[o.attempts[a].call].idempotent && o.attempts[a].epoch < epoch))
    && (forall a, b :: 0 <= a < b < |o.attempts| && o.attempts[a].call == o.attempts[b].call ==>
          o.attempts[a].epoch < o.attempts[b].epoch && o.calls[o.attempts[a].call].idempotent)
  }

  ghost predicate Inv(o: Out, todo: seq<nat>, up: bool, epoch: nat, now: int) {
    Sound(o, todo) && Timely(o, now) && Ordered(o, up, epoch)
  }

  /** Nothing logged is rewritten; what is new was sent now, on this connection, for calls not yet settled. */
  ghost predicate Grows(o: Out, o': Out, up: bool, epoch: nat, now: int) {
    && |o.attempts| <= |o'.attempts| && |o.calls| <= |o'.calls|
    && (forall a :: 0 <= a < |o.attempts| ==> SameAttempt(o.attempts[a], o'.attempts[a]))
    && (forall a :: |o.attempts| <= a < |o'.attempts| ==> FreshAttempt(o, o'.attempts[a], up, epoch, now))
    && (forall c :: 0 <= c < |o.calls| ==> SameCall(o.calls[c], o'.calls[c]))
    && (!up ==> forall id :: id in o'.pending ==> id in o.pending)
  }

  predicate FreshAttempt(o: Out, t: Attempt, up: bool, epoch: nat, now: int) {
    && up && t.epoch == epoch && t.sentAt == now
    && (t.call < |o.calls| ==> !o.calls[t.call].phase.Settled?)
  }

  predicate SameAttempt(t: Attempt, t': Attempt) {
    && t'.call == t.call && t'.epoch == t.epoch && t'.sentAt == t.sentAt && t'.due == t.due
    && (t.cause.Some? ==> t'.cause == t.cause)
  }

  predicate SameCall(k: Call, k': Call) {
    && k'.kind == k.kind && k'.start == k.start && k'.deadline == k.deadline && k'.idempotent == k.idempotent
    && (k.phase.Settled? ==> k'.phase == k.phase)
  }

  lemma GrowsSelf(o: Out, up: bool, epoch: nat, now: int)
    ensures Grows(o, o, up, epoch, now)
  {
  }

  lemma GrowsTrans(o: Out, o1: Out, o2: Out, up: bool, epoch: nat, now: int)
    requires Grows(o, o1, up, epoch, now) && Grows(o1, o2, up, epoch, now)
    ensures Grows(o, o2, up, epoch, now)
  {
    forall a | 0 <= a < |o.attempts| ensures SameAttempt(o.attempts[a], o2.attempts[a]) {
      assert SameAttempt(o.attempts[a], o1.attempts[a]) && SameAttempt(o1.attempts[a], o2.attempts[a]);
    }
    forall a | |o.attempts| <= a < |o2.attempts| ensures FreshAttempt(o, o2.attempts[a], up, epoch, now) {
      if a < |o1.attempts| {
        assert FreshAttempt(o, o1.attempts[a], up, epoch, now) && SameAttempt(o1.attempts[a], o2.attempts[a]);
      } else {
        assert FreshAttempt(o1, o2.attempts[a], up, epoch, now);
        var c := o2.attempts[a].call;
        assert c < |o.calls| ==> SameCall(o.calls[c], o1.calls[c]);
      }
    }
    forall c | 0 <= c < |o.calls| ensures SameCall(o.calls[c], o2.calls[c]) {
      assert SameCall(o.calls[c], o1.calls[c]) && SameCall(o1.calls[c], o2.calls[c]);
    }
  }

  // ---------------------------------------------------------------- attempting

  lemma NextOff(w: seq<nat>, c: nat, rest: seq<nat>)
    requires NoRepeats(w + ([c] + rest))
    ensures w + [c] + rest == w + ([c] + rest)
    ensures NoRepeats(w + rest) && c !in w + rest
    ensures forall x :: x in w + ([c] + rest) <==> x == c || x in w + rest
  {
    var s := w + ([c] + rest);
    assert s[|w|] == c;
    assert forall i :: 0 <= i < |w| ==> (w + rest)[i] == s[i];
    assert forall i :: |w| <= i < |w + rest| ==> (w + rest)[i] == s[i + 1];
    forall x | x in s ensures x == c || x in w + rest {
      var i :| 0 <= i < |s| && s[i] == x;
      if i < |w| { assert (w + rest)[i] == x; } else if i > |w| { assert (w + rest)[i - 1] == x; }
    }
  }

  lemma LoseSound(o: Out, c: nat, rest: seq<nat>, now: int)
    requires Sound(o, [c] + rest) && c < |o.calls|
    ensures Sound(Lose(o, c, now), rest)
  {
    NextOff(o.waiting, c, rest);
    assert o.calls[c].phase.Waiting?;
  }

  lemma DrawSound(o: Out, c: nat, rest: seq<nat>, epoch: nat, now: int)
    requires Sound(o, [c] + rest) && c < |o.calls|
    ensures Sound(Try(o, c, true, epoch, now), rest)
  {
    NextOff(o.waiting, c, rest);
    assert o.calls[c].phase.Waiting?;
    var o' := Try(o, c, true, epoch, now);
    assert forall b :: 0 <= b < |o.attempts| && o.attempts[b].cause == None ==> o.attempts[b].call != c;
    forall id | id in o'.pending ensures PendingSound(o', id) {
      if id != IdOf(|o.attempts|) { assert PendingSound(o, id); }
    }
  }

  lemma LoseTimely(o: Out, c: nat, now: int)
    requires Indexed(o) && Timely(o, now) && c < |o.calls| && o.calls[c].phase.Waiting?
    ensures Timely(Lose(o, c, now), now)
  {
    assert CallTimely(o.calls[c], now);
    forall a | 0 <= a < |o.attempts|
      ensures AttemptTimely(o.attempts[a], Lose(o, c, now).calls[o.attempts[a].call], now)
    {
      assert AttemptTimely(o.attempts[a], o.calls[o.attempts[a].call], now);
    }
  }

  lemma DrawTimely(o: Out, c: nat, epoch: nat, now: int)
    requires Indexed(o) && Timely(o, now) && c < |o.calls| && o.calls[c].phase.Waiting?
    ensures Timely(Try(o, c, true, epoch, now), now)
  {
    var o' := Try(o, c, true, epoch, now);
    assert CallTimely(o.calls[c], now);
    forall a | 0 <= a < |o'.attempts| ensures AttemptTimely(o'.attempts[a], o'.calls[o'.attempts[a].call], now) {
      if a < |o.attempts| { assert AttemptTimely(o.attempts[a], o.calls[o.attempts[a].call], now); }
    }
  }

  lemma LoseOrdered(o: Out, c: nat, epoch: nat, now: int)
    requires Indexed(o) && Ordered(o, false, epoch) && c < |o.calls| && o.calls[c].phase.Waiting?
    ensures Ordered(Lose(o, c, now), false, epoch)
  {
  }

  lemma DrawOrdered(o: Out, c: nat, epoch: nat, now: int)
    requires Indexed(o) && Ordered(o, true, epoch) && c < |o.calls| && o.calls[c].phase.Waiting?
    ensures Ordered(Try(o, c, true, epoch, now), true, epoch)
  {
    var o' := Try(o, c, true, epoch, now);
    forall a | 0 <= a < |o'.attempts| && Pending(o', a) ensures o'.attempts[a].epoch == epoch {
      if a < |o.attempts| { assert Pending(o, a); }
    }
  }

  lemma DrawKeeps(o: Out, c: nat, rest: seq<nat>, epoch: nat, now: int)
    requires Inv(o, [c] + rest, true, epoch, now) && c < |o.calls| && o.calls[c].phase.Waiting?
    ensures Inv(Try(o, c, true, epoch, now), rest, true, epoch, now)
    ensures Grows(o, Try(o, c, true, epoch, now), true, epoch, now)
  {
    DrawSound(o, c, rest, epoch, now);
    DrawTimely(o, c, epoch, now);
    DrawOrdered(o, c, epoch, now);
  }

  lemma LoseKeeps(o: Out, c: nat, rest: seq<nat>, epoch: nat, now: int)
    requires Inv(o, [c] + rest, false, epoch, now) && c < |o.calls| && o.calls[c].phase.Waiting?
    ensures Inv(Lose(o, c, now), rest, false, epoch, now)
    ensures Grows(o, Lose(o, c, now), false, epoch, now)
  {
    LoseSound(o, c, rest, now);
    LoseTimely(o, c, now);
    LoseOrdered(o, c, epoch, now);
  }

  lemma TryKeeps(o: Out, c: nat, rest: seq<nat>, up: bool, epoch: nat, now: int)
    requires Inv(o, [c] + rest, up, epoch, now)
    ensures c < |o.calls| && Inv(Try(o, c, up, epoch, now), rest, up, epoch, now)
    ensures Grows(o, Try(o, c, up, epoch, now), up, epoch, now)
  {
    assert ([c] + rest)[0] == c;
    assert c in o.waiting + ([c] + rest);
    if up {
      DrawKeeps(o, c, rest, epoch, now);
    } else {
      LoseKeeps(o, c, rest, epoch, now);
    }
  }

  lemma {:induction false} TryAllKeeps(o: Out, cs: seq<nat>, up: bool, epoch: nat, now: int)
    requires Inv(o, cs, up, epoch, now)
    ensures forall i :: 0 <= i < |cs| ==> cs[i] < |o.calls|
    ensures Inv(TryAll(o, cs, up, epoch, now), [], up, epoch, now)
    ensures Grows(o, TryAll(o, cs, up, epoch, now), up, epoch, now)
    decreases |cs|
  {
    assert forall i :: 0 <= i < |cs| ==> cs[i] in o.waiting + cs;
    if cs != [] {
      assert cs == [cs[0]] + cs[1..];
      TryKeeps(o, cs[0], cs[1..], up, epoch, now);
      TryAllKeeps(Try(o, cs[0], up, epoch, now), cs[1..], up, epoch, now);
      GrowsTrans(o, Try(o, cs[0], up, epoch, now), TryAll(o, cs, up, epoch, now), up, epoch, now);
    }
  }

  lemma SoundLinked(o: Out)
    requires Sound(o, [])
    ensures Linked(o)
  {
    forall id | id in o.pending ensures o.pending[id] < |o.attempts| { assert PendingSound(o, id); }
    forall i | 0 <= i < |o.waiting| ensures o.waiting[i] < |o.calls| { assert o.waiting[i] in o.waiting + []; }
  }

  lemma TakeListeners(o: Out, up: bool, epoch: nat, now: int)
    requires Inv(o, [], up, epoch, now)
    ensures Inv(o.(waiting := []), o.waiting, up, epoch, now)
  {
    var o1 := o.(waiting := []);
    assert o.waiting + [] == o.waiting == [] + o.waiting;
    assert forall a :: 0 <= a < |o.attempts| ==> Pending(o1, a) == Pending(o, a);
    forall id | id in o1.pending ensures PendingSound(o1, id) { assert PendingSound(o, id); }
  }

  lemma EmitKeeps(o: Out, up: bool, epoch: nat, now: int)
    requires Inv(o, [], up, epoch, now)
    ensures Linked(o)
    ensures Inv(Emit(o, up, epoch, now), [], up, epoch, now)
    ensures Grows(o, Emit(o, up, epoch, now), up, epoch, now)
  {
    SoundLinked(o);
    TakeListeners(o, up, epoch, now);
    TryAllKeeps(o.(waiting := []), o.waiting, up, epoch, now);
    GrowsFrom(o, o.(waiting := []), Emit(o, up, epoch, now), up, epoch, now);
  }

  lemma GrowsFrom(o: Out, o1: Out, o2: Out, up: bool, epoch: nat, now: int)
    requires o1.attempts == o.attempts && o1.calls == o.calls && o1.pending == o.pending
    requires Grows(o1, o2, up, epoch, now)
    ensures Grows(o, o2, up, epoch, now)
  {
    forall a | |o.attempts| <= a < |o2.attempts| ensures FreshAttempt(o, o2.attempts[a], up, epoch, now) {
      assert FreshAttempt(o1, o2.attempts[a], up, epoch, now);
    }
  }

  lemma CreatedSound(o: Out, kind: Kind, timeoutMs: int, idempotent: bool, now: int)
    requires Sound(o, [])
    ensures Sound(Created(o, kind, timeoutMs, idempotent, now), [|o.calls|])
  {
    var c, o1 := |o.calls|, Created(o, kind, timeoutMs, idempotent, now);
    assert o.waiting + [] == o.waiting;
    forall x | x in o.waiting ensures x < c { assert x in o.waiting + []; }
    assert forall x :: x in o.waiting + [c] <==> x in o.waiting || x == c;
    assert forall i :: 0 <= i < |o.waiting| ==> (o.waiting + [c])[i] == o.waiting[i] && o.waiting[i] in o.waiting;
    assert forall k :: 0 <= k < c ==> o1.calls[k] == o.calls[k];
    forall k | 0 <= k < |o1.calls| && o1.calls[k].phase.InFlight? ensures Holds(o1, o1.calls[k].phase.attempt, k) {
      assert Holds(o, o.calls[k].phase.attempt, k);
    }
    forall id | id in o1.pending ensures PendingSound(o1, id) { assert PendingSound(o, id); }
  }

  lemma CreatedTimely(o: Out, kind: Kind, timeoutMs: int, idempotent: bool, now: int)
    requires Indexed(o) && Timely(o, now)
    ensures Timely(Created(o, kind, timeoutMs, idempotent, now), now)
  {
    var o1 := Created(o, kind, timeoutMs, idempotent, now);
    assert forall a :: 0 <= a < |o.attempts| ==> o1.calls[o1.attempts[a].call] == o.calls[o.attempts[a].call];
  }

  lemma CreatedOrdered(o: Out, kind: Kind, timeoutMs: int, idempotent: bool, up: bool, epoch: nat, now: int)
    requires Indexed(o) && Ordered(o, up, epoch)
    ensures Ordered(Created(o, kind, timeoutMs, idempotent, now), up, epoch)
  {
    var o1 := Created(o, kind, timeoutMs, idempotent, now);
    assert forall a :: 0 <= a < |o.attempts| ==> o1.calls[o1.attempts[a].call] == o.calls[o.attempts[a].call];
    assert forall a :: 0 <= a < |o.attempts| ==> Pending(o1, a) == Pending(o, a);
  }

  lemma StartKeeps(o: Out, kind: Kind, timeoutMs: int, idempotent: bool, up: bool, epoch: nat, now: int)
    requires Inv(o, [], up, epoch, now)
    ensures Inv(Start(o, kind, timeoutMs, idempotent, up, epoch, now), [], up, epoch, now)
    ensures Grows(o, Start(o, kind, timeoutMs, idempotent, up, epoch, now), up, epoch, now)
  {
    CreatedSound(o, kind, timeoutMs, idempotent, now);
    CreatedTimely(o, kind, timeoutMs, idempotent, now);
    CreatedOrdered(o, kind, timeoutMs, idempotent, up, epoch, now);
    assert [|o.calls|] + [] == [|o.calls|];
    var o1 := Created(o, kind, timeoutMs, idempotent, now);
    TryKeeps(o1, |o.calls|, [], up, epoch, now);
    assert Grows(o, o1, up, epoch, now);
    GrowsTrans(o, o1, Start(o, kind, timeoutMs, idempotent, up, epoch, now), up, epoch, now);
  }

  // ---------------------------------------------------------------- settling

  lemma RespondKeeps(o: Out, id: nat, ok: bool, up: bool, epoch: nat, now: int)
    requires Inv(o, [], up, epoch, now)
    ensures Linked(o)
    ensures Inv(Respond(o, id, ok, now), [], up, epoch, now)
    ensures Grows(o, Respond(o, id, ok, now), up, epoch, now)
  {
    SoundLinked(o);
    if id in o.pending {
      assert PendingSound(o, id);
      SettleKeeps(o, o.pending[id], ByResponse, Answered(ok), up, epoch, now);
    }
  }

  lemma SettleSound(o: Out, a: nat, cause: Cause, outcome: Outcome, now: int)
    requires Sound(o, []) && a < |o.attempts| && o.attempts[a].cause == None
    ensures Sound(Settle(o, a, cause, outcome, now), [])
  {
    var o' := Settle(o, a, cause, outcome, now);
    assert o.waiting + [] == o.waiting;
    assert o.calls[o.attempts[a].call].phase == InFlight(a);
    forall id | id in o'.pending ensures PendingSound(o', id) {
      assert PendingSound(o, id);
    }
  }

  lemma SettleTimely(o: Out, a: nat, cause: Cause, outcome: Outcome, now: int)
    requires Indexed(o) && Timely(o, now) && a < |o.attempts| && o.attempts[a].cause == None
    requires o.calls[o.attempts[a].call].phase == InFlight(a)
    ensures Timely(Settle(o, a, cause, outcome, now), now)
  {
    var o' := Settle(o, a, cause, outcome, now);
    assert AttemptTimely(o.attempts[a], o.calls[o.attempts[a].call], now);
    forall b | 0 <= b < |o'.attempts| ensures AttemptTimely(o'.attempts[b], o'.calls[o'.attempts[b].call], now) {
      assert AttemptTimely(o.attempts[b], o.calls[o.attempts[b].call], now);
    }
  }

  lemma SettleOrdered(o: Out, a: nat, cause: Cause, outcome: Outcome, up: bool, epoch: nat, now: int)
    requires Indexed(o) && Ordered(o, up, epoch) && a < |o.attempts|
    ensures Ordered(Settle(o, a, cause, outcome, now), up, epoch)
  {
    var o' := Settle(o, a, cause, outcome, now);
    assert forall b :: 0 <= b < |o.attempts| ==>
      o'.attempts[b].epoch == o.attempts[b].epoch && o'.attempts[b].call == o.attempts[b].call;
    forall b | 0 <= b < |o'.attempts| && Pending(o', b) ensures o'.attempts[b].epoch == epoch {
      assert Pending(o, b);
    }
  }

  lemma SettleKeeps(o: Out, a: nat, cause: Cause, outcome: Outcome, up: bool, epoch: nat, now: int)
    requires Inv(o, [], up, epoch, now) && a < |o.attempts| && o.attempts[a].cause == None
    ensures Inv(Settle(o, a, cause, outcome, now), [], up, epoch, now)
    ensures Grows(o, Settle(o, a, cause, outcome, now), up, epoch, now)
  {
    SettleSound(o, a, cause, outcome, now);
    SettleTimely(o, a, cause, outcome, now);
    SettleOrdered(o, a, cause, outcome, up, epoch, now);
  }

  lemma GiveUpSound(o: Out, c: nat, now: int)
    requires Sound(o, []) && c < |o.calls| && o.calls[c].phase.Waiting?
    ensures Sound(GiveUp(o, c, now), [])
  {
    var o' := GiveUp(o, c, now);
    assert o.waiting + [] == o.waiting && o'.waiting + [] == o'.waiting;
    WithoutFacts(o.waiting, c);
    forall id | id in o'.pending ensures PendingSound(o', id) { assert PendingSound(o, id); }
  }

  lemma GiveUpTimely(o: Out, c: nat, now: int)
    requires Indexed(o) && Timely(o, now) && c < |o.calls| && o.calls[c].phase.Waiting?
    ensures Timely(GiveUp(o, c, now), now)
  {
    var o' := GiveUp(o, c, now);
    assert CallTimely(o.calls[c], now);
    forall a | 0 <= a < |o.attempts| ensures AttemptTimely(o'.attempts[a], o'.calls[o'.attempts[a].call], now) {
      assert AttemptTimely(o.attempts[a], o.calls[o.attempts[a].call], now);
    }
  }

  lemma GiveUpKeeps(o: Out, c: nat, up: bool, epoch: nat, now: int)
    requires Inv(o, [], up, epoch, now) && c < |o.calls| && o.calls[c].phase.Waiting?
    ensures Inv(GiveUp(o, c, now), [], up, epoch, now)
    ensures Grows(o, GiveUp(o, c, now), up, epoch, now)
  {
    GiveUpSound(o, c, now);
    GiveUpTimely(o, c, now);
    assert forall a :: 0 <= a < |o.attempts| ==> Pending(GiveUp(o, c, now), a) == Pending(o, a);
  }

  // ---------------------------------------------------------------- losing the connection

  lemma DropIsLose(o: Out, a: nat, now: int)
    requires Sound(o, []) && a < |o.attempts| && Pending(o, a)
    ensures Drop(o, a, now) == Lose(Detached(o, a), o.attempts[a].call, now)
  {
    var c := o.attempts[a].call;
    var o1 := Detached(o, a);
    assert forall p: Phase :: o1.calls[c := o1.calls[c].(phase := p)] == o.calls[c := o.calls[c].(phase := p)];
  }

  lemma DetachKeeps(o: Out, a: nat, epoch: nat, now: int)
    requires Inv(o, [], false, epoch, now) && a < |o.attempts| && o.attempts[a].cause == None
    ensures Inv(Detached(o, a), [o.attempts[a].call] + [], false, epoch, now)
    ensures Grows(o, Detached(o, a), false, epoch, now)
  {
    DetachSound(o, a);
    DetachTimely(o, a, epoch, now);
    DetachOrdered(o, a, epoch);
    assert [o.attempts[a].call] + [] == [o.attempts[a].call];
    assert o.calls[o.attempts[a].call].phase == InFlight(a);
  }

  lemma DropKeeps(o: Out, a: nat, epoch: nat, now: int)
    requires Inv(o, [], false, epoch, now) && a < |o.attempts|
    ensures Inv(Drop(o, a, now), [], false, epoch, now)
    ensures Grows(o, Drop(o, a, now), false, epoch, now)
  {
    if Pending(o, a) {
      assert PendingSound(o, IdOf(a));
      DetachKeeps(o, a, epoch, now);
      TryKeeps(Detached(o, a), o.attempts[a].call, [], false, epoch, now);
      DropIsLose(o, a, now);
      GrowsTrans(o, Detached(o, a), Drop(o, a, now), false, epoch, now);
    }
  }

  /** Attempt `a` rejected and its call about to run its catch clause. */
  function Detached(o: Out, a: nat): Out
    requires Indexed(o) && a < |o.attempts|
  {
    SetPhase(SetCause(o.(pending := o.pending - {IdOf(a)}), a, ByClose), o.attempts[a].call, Waiting)
  }

  lemma DetachSound(o: Out, a: nat)
    requires Sound(o, []) && a < |o.attempts| && o.attempts[a].cause == None
    ensures Sound(Detached(o, a), [o.attempts[a].call])
  {
    var c, o1 := o.attempts[a].call, Detached(o, a);
    assert o.waiting + [] == o.waiting;
    assert o.calls[c].phase == InFlight(a) && c !in o.waiting;
    assert forall x :: x in o.waiting + [c] <==> x in o.waiting || x == c;
    forall id | id in o1.pending ensures PendingSound(o1, id) {
      assert PendingSound(o, id);
    }
  }

  lemma DetachTimely(o: Out, a: nat, epoch: nat, now: int)
    requires Sound(o, []) && Timely(o, now) && a < |o.attempts| && o.attempts[a].cause == None
    ensures Timely(Detached(o, a), now)
  {
    var o1 := Detached(o, a);
    assert AttemptTimely(o.attempts[a], o.calls[o.attempts[a].call], now);
    forall b | 0 <= b < |o1.attempts| ensures AttemptTimely(o1.attempts[b], o1.calls[o1.attempts[b].call], now) {
      assert AttemptTimely(o.attempts[b], o.calls[o.attempts[b].call], now);
    }
  }

  lemma DetachOrdered(o: Out, a: nat, epoch: nat)
    requires Indexed(o) && Ordered(o, false, epoch) && a < |o.attempts|
    ensures Ordered(Detached(o, a), false, epoch)
  {
  }

  lemma DropInv(o: Out, a: nat, epoch: nat, now: int)
    requires Inv(o, [], false, epoch, now) && a < |o.attempts|
    ensures Inv(Drop(o, a, now), [], false, epoch, now)
  {
    DropKeeps(o, a, epoch, now);
  }

  lemma {:induction false} DropFromInv(o: Out, a: nat, epoch: nat, now: int)
    requires Inv(o, [], false, epoch, now)
    ensures Inv(DropFrom(o, a, now), [], false, epoch, now)
    decreases |o.attempts| - a
  {
    if a < |o.attempts| {
      DropInv(o, a, epoch, now);
      DropFromInv(Drop(o, a, now), a + 1, epoch, now);
    }
  }

  lemma {:induction false} DropFromGrows(o: Out, a: nat, epoch: nat, now: int)
    requires Inv(o, [], false, epoch, now)
    ensures Grows(o, DropFrom(o, a, now), false, epoch, now)
    decreases |o.attempts| - a
  {
    if a >= |o.attempts| {
      GrowsSelf(o, false, epoch, now);
    } else {
      var o1 := Drop(o, a, now);
      DropInv(o, a, epoch, now);
      DropFromGrows(o1, a + 1, epoch, now);
      DropThenGrows(o, a, DropFrom(o1, a + 1, now), epoch, now);
    }
  }

  lemma DropThenGrows(o: Out, a: nat, o2: Out, epoch: nat, now: int)
    requires Inv(o, [], false, epoch, now) && a < |o.attempts| && Grows(Drop(o, a, now), o2, false, epoch, now)
    ensures Grows(o, o2, false, epoch, now)
  {
    DropKeeps(o, a, epoch, now);
    GrowsTrans(o, Drop(o, a, now), o2, false, epoch, now);
  }

  lemma DropFromKeeps(o: Out, a: nat, epoch: nat, now: int)
    requires Inv(o, [], false, epoch, now)
    ensures Inv(DropFrom(o, a, now), [], false, epoch, now)
    ensures Grows(o, DropFrom(o, a, now), false, epoch, now)
  {
    DropFromInv(o, a, epoch, now);
    DropFromGrows(o, a, epoch, now);
  }

  lemma DropPending(o: Out, a: nat, now: int)
    requires Indexed(o) && a < |o.attempts|
    ensures Drop(o, a, now).pending == if Pending(o, a) then o.pending - {IdOf(a)} else o.pending
  {
  }

  lemma DropLeaves(o: Out, a: nat, b: nat, now: int)
    requires Indexed(o) && a < |o.attempts| && b <= a && (b < a ==> !Pending(o, b))
    ensures !Pending(Drop(o, a, now), b)
  {
    DropPending(o, a, now);
  }

  /** Once every attempt has been visited, nothing is pending. */
  lemma {:induction false} DropFromEmpties(o: Out, a: nat, epoch: nat, now: int)
    requires Inv(o, [], false, epoch, now)
    requires forall b :: 0 <= b < a && b < |o.attempts| ==> !Pending(o, b)
    ensures DropFrom(o, a, now).pending == map[]
    decreases |o.attempts| - a
  {
    if a < |o.attempts| {
      DropKeeps(o, a, epoch, now);
      forall b | 0 <= b < a + 1 ensures !Pending(Drop(o, a, now), b) {
        DropLeaves(o, a, b, now);
      }
      DropFromEmpties(Drop(o, a, now), a + 1, epoch, now);
    } else {
      forall id | id in o.pending ensures false {
        assert PendingSound(o, id) && Pending(o, o.pending[id]);
      }
    }
  }

  // ---------------------------------------------------------------- time and connections

  /** No live budget timer is due before `at`. */
  ghost predicate NotOverdue(o: Out, at: int) {
    && (forall a :: 0 <= a < |o.attempts| && o.attempts[a].cause == None ==> at <= o.attempts[a].due)
    && (forall c :: 0 <= c < |o.calls| && o.calls[c].phase.Waiting? ==> at <= o.calls[c].deadline)
  }

  lemma TimePasses(o: Out, up: bool, epoch: nat, now: int, at: int)
    requires Inv(o, [], up, epoch, now) && now <= at && NotOverdue(o, at)
    ensures Inv(o, [], up, epoch, at)
  {
    forall a | 0 <= a < |o.attempts| ensures AttemptTimely(o.attempts[a], o.calls[o.attempts[a].call], at) {
      assert AttemptTimely(o.attempts[a], o.calls[o.attempts[a].call], now);
    }
  }

  lemma GoDown(o: Out, epoch: nat, now: int)
    requires Inv(o, [], true, epoch, now)
    ensures Inv(o, [], false, epoch, now)
  {
  }

  lemma ComeUp(o: Out, epoch: nat, now: int)
    requires Inv(o, [], false, epoch, now) && o.pending == map[]
    ensures Inv(o, [], true, epoch + 1, now)
  {
    assert o.waiting + [] == o.waiting;
  }

  // ---------------------------------------------------------------- ids

  /** An id is in `pending` exactly while its attempt is unsettled. */
  ghost predicate Exact(o: Out) {
    forall a :: 0 <= a < |o.attempts| ==> (o.attempts[a].cause == None <==> Pending(o, a))
  }

  /** Fewer than 2^31 ids have been drawn since any attempt that is still unsettled. */
  ghost predicate Windowed(o: Out) {
    forall a :: 0 <= a < |o.attempts| && o.attempts[a].cause == None ==> |o.attempts| - 1 - a < ID_SPACE
  }

  /** Two attempts get the same id exactly when a multiple of 2^31 draws separates them. */
  lemma SameIdIff(a: nat, b: nat)
    requires a <= b
    ensures IdOf(a) == IdOf(b) <==> (b - a) % 0x8000_0000 == 0
  {
    var k := ID_SPACE;
    var x, y := (a + 1) / k, (b + 1) / k;
    assert a + 1 == x * k + IdOf(a) && b + 1 == y * k + IdOf(b);
    if IdOf(a) == IdOf(b) {
      assert b - a == (y - x) * k;
      assert (y - x) * k % k == 0;
    }
  }

  /**
    Drawing an id keeps `pending` exact if and only if no unsettled attempt already has that id; if one
    does, it is orphaned: unsettled, yet no longer found under its id.
   */
  lemma DrawExactIff(o: Out, c: nat, epoch: nat, now: int)
    requires c < |o.calls| && Exact(o)
    ensures Exact(Try(o, c, true, epoch, now)) <==>
      forall a :: 0 <= a < |o.attempts| && o.attempts[a].cause == None ==> IdOf(a) != IdOf(|o.attempts|)
  {
    var n, o' := |o.attempts|, Try(o, c, true, epoch, now);
    assert Pending(o', n);
    if a :| 0 <= a < n && o.attempts[a].cause == None && IdOf(a) == IdOf(n) {
      assert o'.attempts[a].cause == None && !Pending(o', a);
    } else {
      forall a | 0 <= a < |o'.attempts| ensures o'.attempts[a].cause == None <==> Pending(o', a) {
        if a < n {
          assert o.attempts[a].cause == None <==> Pending(o, a);
          if IdOf(a) != IdOf(n) { assert Pending(o', a) == Pending(o, a); }
        }
      }
    }
  }

  lemma TryExact(o: Out, c: nat, up: bool, epoch: nat, now: int)
    requires c < |o.calls| && Exact(o) && (up ==> Windowed(Try(o, c, up, epoch, now)))
    ensures Exact(Try(o, c, up, epoch, now))
  {
    var n, o' := |o.attempts|, Try(o, c, up, epoch, now);
    if up {
      forall a | 0 <= a < n && o.attempts[a].cause == None ensures IdOf(a) != IdOf(n) {
        assert o'.attempts[a].cause == None && n - a < ID_SPACE;
        SameIdIff(a, n);
      }
      DrawExactIff(o, c, epoch, now);
    } else {
      assert forall a :: 0 <= a < n ==> Pending(o', a) == Pending(o, a);
    }
  }

  /** Unsettled attempts stay unsettled, and draws only add up, while calls attempt again. */
  lemma {:induction false} WindowedBefore(o: Out, cs: seq<nat>, up: bool, epoch: nat, now: int)
    requires forall i :: 0 <= i < |cs| ==> cs[i] < |o.calls|
    requires Windowed(TryAll(o, cs, up, epoch, now))
    ensures Windowed(o)
    decreases |cs|
  {
    if cs != [] {
      var o1 := Try(o, cs[0], up, epoch, now);
      WindowedBefore(o1, cs[1..], up, epoch, now);
      assert forall a :: 0 <= a < |o.attempts| ==> o1.attempts[a] == o.attempts[a];
    }
  }

  lemma {:induction false} TryAllExact(o: Out, cs: seq<nat>, up: bool, epoch: nat, now: int)
    requires forall i :: 0 <= i < |cs| ==> cs[i] < |o.calls|
    requires Exact(o) && (up ==> Windowed(TryAll(o, cs, up, epoch, now)))
    ensures Exact(TryAll(o, cs, up, epoch, now))
    decreases |cs|
  {
    if cs != [] {
      if up { WindowedBefore(Try(o, cs[0], up, epoch, now), cs[1..], up, epoch, now); }
      TryExact(o, cs[0], up, epoch, now);
      TryAllExact(Try(o, cs[0], up, epoch, now), cs[1..], up, epoch, now);
    }
  }

  lemma SettleExact(o: Out, a: nat, cause: Cause, outcome: Outcome, now: int)
    requires a < |o.attempts| && o.attempts[a].call < |o.calls| && Exact(o) && Pending(o, a)
    ensures Exact(Settle(o, a, cause, outcome, now))
  {
    var o' := Settle(o, a, cause, outcome, now);
    forall b | 0 <= b < |o.attempts| ensures o'.attempts[b].cause == None <==> Pending(o', b) {
      assert o.attempts[b].cause == None <==> Pending(o, b);
      if b != a && Pending(o, b) { assert IdOf(b) != IdOf(a); }
    }
  }

  lemma DropExact(o: Out, a: nat, now: int)
    requires Indexed(o) && a < |o.attempts| && Exact(o)
    ensures Exact(Drop(o, a, now))
  {
    if Pending(o, a) {
      SettleExact(o, a, ByClose, ConnectionLost, now);
      var s, d := Settle(o, a, ByClose, ConnectionLost, now), Drop(o, a, now);
      assert s.attempts == d.attempts && s.pending == d.pending;
      assert forall b :: 0 <= b < |o.attempts| ==> Pending(d, b) == Pending(s, b);
    }
  }

  lemma {:induction false} DropFromExact(o: Out, a: nat, now: int)
    requires Indexed(o) && Exact(o)
    ensures Exact(DropFrom(o, a, now))
    decreases |o.attempts| - a
  {
    if a < |o.attempts| {
      DropExact(o, a, now);
      DropFromExact(Drop(o, a, now), a + 1, now);
    }
  }
}
