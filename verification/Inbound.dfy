/**
  The inbound half of packages/bridge/src/bridge.ts: requests forwarded by the router, the handlers
  running for them, and the responses written, as pure transitions on one record.
 */
module Inbound {
  import opened Options

  /** A message id on one connection. */
  datatype Key = Key(epoch: nat, msgid: nat)

  /** A provider's handler running for a request. */
  datatype Task = Task(msgid: nat, handler: nat, done: bool)

  /**
    `inFlight` is inFlightRequests. The multisets log, per connection and message id, the requests read,
    the responses written while the socket was writable, and the requests whose id was already in flight.
    `owner` tells whose request an id in flight is: the handler started when the id was last tracked.
   */
  datatype In = In(inFlight: map<nat, string>, tasks: seq<Task>,
                   received: multiset<Key>, responded: multiset<Key>, merged: multiset<Key>, owner: map<nat, nat>)

  const EMPTY: In := In(map[], [], multiset{}, multiset{}, multiset{}, map[])

  function Write(i: In, k: Key, writable: bool): In {
    if writable then i.(responded := i.responded + multiset{k}) else i
  }

  /** A REQUEST: start the handler and track the id, or answer at once when there is no handler. */
  function Receive(i: In, msgid: nat, name: string, handler: Option<nat>, epoch: nat, writable: bool): In {
    var k := Key(epoch, msgid);
    var read := i.(received := i.received + multiset{k});
    if handler.None? then Write(read, k, writable)
    else read.(inFlight := i.inFlight[msgid := name], tasks := i.tasks + [Task(msgid, handler.value, false)],
               owner := i.owner[msgid := |i.tasks|],
               merged := if msgid in i.inFlight then i.merged + multiset{k} else i.merged)
  }

  /** A handler settles: it answers only if its id could still be deleted. */
  function Finish(i: In, t: nat, epoch: nat, writable: bool): In
    requires t < |i.tasks|
  {
    var msgid := i.tasks[t].msgid;
    var done := i.(tasks := i.tasks[t := i.tasks[t].(done := true)]);
    if msgid !in i.inFlight then done
    else Write(done.(inFlight := i.inFlight - {msgid}, owner := i.owner - {msgid}), Key(epoch, msgid), writable)
  }

  /** close(): an error response for every id still in flight. */
  function Drain(i: In, epoch: nat, writable: bool): In {
    var keys := multiset(set m | m in i.inFlight.Keys :: Key(epoch, m));
    i.(inFlight := map[], owner := map[], responded := if writable then i.responded + keys else i.responded)
  }

  /** onTransportClose: nothing can be answered any more. */
  function Forget(i: In): In { i.(inFlight := map[], owner := map[]) }

  function Open(i: In, k: Key, epoch: nat): nat {
    if k.epoch == epoch && k.msgid in i.inFlight then 1 else 0
  }

  /**
    Conservation. A request read is answered, in flight, or one of several sharing an id; answers and
    requests in flight never exceed what was read, and on a socket writable so far the account is exact.
   */
  ghost predicate Conserved(i: In, epoch: nat, writable: bool) {
    forall k: Key :: KeyConserved(i, k, epoch, writable)
  }

  predicate KeyConserved(i: In, k: Key, epoch: nat, writable: bool) {
    && i.responded[k] + Open(i, k, epoch) + i.merged[k] <= i.received[k]
    && (i.merged[k] > 0 ==> i.merged[k] < i.received[k])
    && (k.epoch > epoch ==> i.received[k] == 0)
    && (k.epoch == epoch && writable ==> i.responded[k] + Open(i, k, epoch) + i.merged[k] == i.received[k])
  }

  lemma ReceiveConserves(i: In, msgid: nat, name: string, handler: Option<nat>, epoch: nat, writable: bool)
    requires Conserved(i, epoch, writable)
    ensures Conserved(Receive(i, msgid, name, handler, epoch, writable), epoch, writable)
  {
    var i' := Receive(i, msgid, name, handler, epoch, writable);
    forall k: Key ensures KeyConserved(i', k, epoch, writable) {
      assert KeyConserved(i, k, epoch, writable);
    }
  }

  lemma FinishConserves(i: In, t: nat, epoch: nat, writable: bool)
    requires Conserved(i, epoch, writable) && t < |i.tasks|
    ensures Conserved(Finish(i, t, epoch, writable), epoch, writable)
  {
    var i' := Finish(i, t, epoch, writable);
    forall k: Key ensures KeyConserved(i', k, epoch, writable) {
      assert KeyConserved(i, k, epoch, writable);
    }
  }

  lemma DrainConserves(i: In, epoch: nat, writable: bool)
    requires Conserved(i, epoch, writable)
    ensures Conserved(Drain(i, epoch, writable), epoch, writable)
  {
    var i' := Drain(i, epoch, writable);
    var keys := set m | m in i.inFlight.Keys :: Key(epoch, m);
    forall k: Key ensures KeyConserved(i', k, epoch, writable) {
      assert KeyConserved(i, k, epoch, writable);
      assert k in keys <==> Open(i, k, epoch) == 1;
      assert multiset(keys)[k] == if k in keys then 1 else 0;
    }
  }

  lemma SocketDown(i: In, epoch: nat, writable: bool)
    requires Conserved(i, epoch, writable)
    ensures Conserved(i, epoch, false) && Conserved(Forget(i), epoch, false)
  {
    var i' := Forget(i);
    assert forall k: Key :: KeyConserved(i, k, epoch, writable) ==> KeyConserved(i, k, epoch, false);
    forall k: Key ensures KeyConserved(i', k, epoch, false) {
      assert KeyConserved(i, k, epoch, writable);
    }
  }

  lemma NewConnection(i: In, epoch: nat)
    requires Conserved(i, epoch, false) && i.inFlight == map[]
    ensures Conserved(i, epoch + 1, true)
  {
    var next := epoch + 1;
    forall k: Key ensures KeyConserved(i, k, next, true) {
      assert KeyConserved(i, k, epoch, false);
    }
  }

  /**
    Exactly one: right after the drain on a writable socket, an id read once on this connection has been
    answered exactly once, and no handler still running is left to answer it again.
   */
  lemma DrainAnswersAll(i: In, epoch: nat, m: nat)
    requires Conserved(i, epoch, true)
    ensures
      var i', k := Drain(i, epoch, true), Key(epoch, m);
      && i'.inFlight == map[]
      && i'.responded[k] + i'.merged[k] == i'.received[k] == i.received[k]
      && (i.received[k] == 1 ==> i'.responded[k] == 1)
      && (m in i.inFlight ==> i'.responded[k] == i.responded[k] + 1)
      && (m !in i.inFlight ==> i'.responded[k] == i.responded[k])
  {
    DrainConserves(i, epoch, true);
    var k := Key(epoch, m);
    assert KeyConserved(Drain(i, epoch, true), k, epoch, true);
    assert KeyConserved(i, k, epoch, true);
  }

  /** With nothing in flight a settling handler writes nothing. */
  lemma FinishSilent(i: In, t: nat, epoch: nat, writable: bool)
    requires t < |i.tasks| && i.tasks[t].msgid !in i.inFlight
    ensures Finish(i, t, epoch, writable) == i.(tasks := i.tasks[t := i.tasks[t].(done := true)])
  {
  }

  // ---------------------------------------------------------------- whose request a handler answers

  /** No handler started after `t` for a request of the same id. */
  ghost predicate LastOfItsId(i: In, t: nat)
    requires t < |i.tasks|
  {
    forall u :: t < u < |i.tasks| ==> i.tasks[u].msgid != i.tasks[t].msgid
  }

  /** An id in flight belongs to the last handler started for it. */
  ghost predicate Owned(i: In) {
    && i.owner.Keys == i.inFlight.Keys
    && forall m :: m in i.owner ==> OwnedBy(i, m, i.owner[m])
  }

  ghost predicate OwnedBy(i: In, m: nat, t: nat) {
    t < |i.tasks| && i.tasks[t].msgid == m && !i.tasks[t].done && LastOfItsId(i, t)
  }

  lemma ReceiveOwned(i: In, msgid: nat, name: string, handler: Option<nat>, epoch: nat, writable: bool)
    requires Owned(i)
    ensures Owned(Receive(i, msgid, name, handler, epoch, writable))
  {
    var i' := Receive(i, msgid, name, handler, epoch, writable);
    forall m | m in i'.owner ensures OwnedBy(i', m, i'.owner[m]) {
      if handler.None? || m != msgid { assert OwnedBy(i, m, i.owner[m]); }
    }
  }

  lemma FinishOwned(i: In, t: nat, epoch: nat, writable: bool)
    requires Owned(i) && t < |i.tasks|
    ensures Owned(Finish(i, t, epoch, writable))
  {
    var i' := Finish(i, t, epoch, writable);
    forall m | m in i'.owner ensures OwnedBy(i', m, i'.owner[m]) {
      assert OwnedBy(i, m, i.owner[m]);
    }
  }

  /** A settling handler that may write answers the request it was started for. */
  predicate AnswersOwn(i: In, t: nat)
    requires t < |i.tasks|
  {
    var m := i.tasks[t].msgid;
    m in i.inFlight && m in i.owner && i.owner[m] == t
  }

  /**
    Ids are all that tells requests apart: a settling handler whose id is in flight answers its own request if
    and only if no other handler was started for a request of that id since, on whatever connection.
   */
  lemma AnswersOwnIff(i: In, t: nat)
    requires Owned(i) && t < |i.tasks| && i.tasks[t].msgid in i.inFlight
    ensures AnswersOwn(i, t) <==> LastOfItsId(i, t)
  {
    var m := i.tasks[t].msgid;
    assert OwnedBy(i, m, i.owner[m]);
  }

  /** No two handlers still running share an id. */
  ghost predicate RunningApart(i: In) {
    forall t :: 0 <= t < |i.tasks| && !i.tasks[t].done ==> LastOfItsId(i, t)
  }

  /** No handler is running for a request of this id. */
  predicate Unused(i: In, msgid: nat) {
    forall t :: 0 <= t < |i.tasks| && i.tasks[t].msgid == msgid ==> i.tasks[t].done
  }

  lemma ReceiveApart(i: In, msgid: nat, name: string, handler: Option<nat>, epoch: nat, writable: bool)
    requires RunningApart(i) && (handler.Some? ==> Unused(i, msgid))
    ensures RunningApart(Receive(i, msgid, name, handler, epoch, writable))
  {
    var i' := Receive(i, msgid, name, handler, epoch, writable);
    forall t | 0 <= t < |i'.tasks| && !i'.tasks[t].done ensures LastOfItsId(i', t) {
      if t < |i.tasks| { assert LastOfItsId(i, t); }
    }
  }

  lemma FinishApart(i: In, t: nat, epoch: nat, writable: bool)
    requires RunningApart(i) && t < |i.tasks|
    ensures RunningApart(Finish(i, t, epoch, writable))
  {
    var i' := Finish(i, t, epoch, writable);
    forall u | 0 <= u < |i'.tasks| && !i'.tasks[u].done ensures LastOfItsId(i', u) {
      assert LastOfItsId(i, u);
    }
  }

  lemma SameTasksApart(i: In, i': In)
    requires RunningApart(i) && i'.tasks == i.tasks
    ensures RunningApart(i')
  {
    forall t | 0 <= t < |i'.tasks| && !i'.tasks[t].done ensures LastOfItsId(i', t) {
      assert LastOfItsId(i, t);
    }
  }

  /** A handler that answers another's request leaves that other's handler with nothing to answer. */
  lemma AnswersAnother(i: In, t: nat, epoch: nat, writable: bool)
    requires Owned(i) && t < |i.tasks| && i.tasks[t].msgid in i.inFlight && !LastOfItsId(i, t)
    ensures
      var m := i.tasks[t].msgid;
      var i' := Finish(i, t, epoch, writable);
      && m in i.owner && t < i.owner[m] < |i'.tasks|
      && Finish(i', i.owner[m], epoch, writable).responded == i'.responded
  {
    var m := i.tasks[t].msgid;
    assert OwnedBy(i, m, i.owner[m]);
    FinishSilent(Finish(i, t, epoch, writable), i.owner[m], epoch, writable);
  }
}
