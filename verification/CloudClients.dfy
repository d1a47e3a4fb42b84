/**
  packages/n8n-nodes-arduino-cloud/src/cloudClientManager.ts as a state machine with a step at every
  await. An entry connects at most one client, so clients are named by their entries; a handler is named
  by its subscribe call, which makes handlers distinct.
 */
module CloudClients {
  import opened Options

  type Key = (string, string)

  /**
    ClientEntry. `client` is whether it is non-null, `connecting` whether client.connect() is under way, and
    `pendingConnect` names the call that made the promise. The rest logs successful connects, disconnects
    and successful SDK subscriptions.
   */
  datatype Entry = Entry(credential: string, client: bool, connecting: bool, pendingConnect: Option<nat>,
                         handlers: map<Key, set<nat>>, sdkSubscribed: set<Key>, refCount: int,
                         connects: nat, disconnects: nat, granted: multiset<Key>)

  /** Where a subscribe call is suspended; `Settled` means its promise has settled and its continuation is queued. */
  datatype Phase = Waiting | Settled(ok: bool) | SdkPending | Live | Done

  /** `clears`: this call made the connect promise and has yet to run ensureConnected's finally clause. */
  datatype Op = Op(entry: nat, key: Key, phase: Phase, clears: bool)

  function Fresh(credential: string): Entry {
    Entry(credential, false, false, None, map[], {}, 0, 0, 0, multiset{})
  }

  // ---------------------------------------------------------------- what the code does to one entry

  /** subscribe up to its first await, by call `o`. */
  function Acquire(e: Entry, o: nat): Entry {
    var held := e.(refCount := e.refCount + 1);
    if e.client || e.pendingConnect.Some? then held else held.(connecting := true, pendingConnect := Some(o))
  }

  /** Whether the promise `o` awaits there has settled, and how. */
  function AcquirePhase(e: Entry): Phase {
    if e.client then Settled(true)
    else if e.pendingConnect.Some? && !e.connecting then Settled(false)
    else Waiting
  }

  function AcquireClears(e: Entry): bool { !e.client && e.pendingConnect.None? }

  function HandlersOf(e: Entry, k: Key): set<nat> { if k in e.handlers then e.handlers[k] else {} }

  function AddHandler(e: Entry, k: Key, o: nat): Entry { e.(handlers := e.handlers[k := HandlersOf(e, k) + {o}]) }

  function DropHandler(e: Entry, k: Key, o: nat): Entry {
    if k !in e.handlers then e
    else if e.handlers[k] - {o} == {} then e.(handlers := e.handlers - {k})
    else e.(handlers := e.handlers[k := e.handlers[k] - {o}])
  }

  /** subscribe from the connected client to its next await or its return. */
  function Attach(e: Entry, k: Key, o: nat): Entry {
    AddHandler(e, k, o).(sdkSubscribed := e.sdkSubscribed + {k})
  }

  function Teardown(e: Entry): Entry {
    e.(client := false, handlers := map[], sdkSubscribed := {},
       disconnects := if e.client then e.disconnects + 1 else e.disconnects)
  }

  /** Give up one reference, tearing the entry down with the last. */
  function Release(e: Entry): Entry {
    var left := e.(refCount := e.refCount - 1);
    if left.refCount == 0 then Teardown(left) else left
  }

  // ---------------------------------------------------------------- the manager

  datatype State = State(entries: map<string, nat>, es: seq<Entry>, ops: seq<Op>)

  datatype Event =
    | Subscribe(credential: string, key: Key)
    | ConnectSucceeds(entry: nat)
    | ConnectFails(entry: nat)
    | Finally(op: nat)
    | Continue(op: nat)
    | SdkSucceeds(op: nat)
    | SdkFails(op: nat)
    | Unsubscribe(op: nat)

  const EMPTY: State := State(map[], [], [])

  predicate InRange(s: State) {
    && (forall c :: c in s.entries ==> s.entries[c] < |s.es|)
    && (forall o :: 0 <= o < |s.ops| ==> s.ops[o].entry < |s.es|)
  }

  /** getEntry. */
  function GetEntry(s: State, credential: string): State {
    if credential in s.entries then s
    else s.(entries := s.entries[credential := |s.es|], es := s.es + [Fresh(credential)])
  }

  function Put(s: State, e: nat, entry: Entry): State
    requires e < |s.es|
  {
    s.(es := s.es[e := entry])
  }

  function SetPhase(s: State, o: nat, p: Phase): State
    requires o < |s.ops|
  {
    s.(ops := s.ops[o := s.ops[o].(phase := p)])
  }

  /** Teardown takes the credential off the map with the last reference. */
  function ReleaseOp(s: State, o: nat, entry: Entry): State
    requires o < |s.ops| && s.ops[o].entry < |s.es|
  {
    var e := s.ops[o].entry;
    var s1 := SetPhase(Put(s, e, Release(entry)), o, Done);
    if entry.refCount == 1 then s1.(entries := s.entries - {entry.credential}) else s1
  }

  function OnSubscribe(s: State, credential: string, k: Key): State
    requires InRange(s)
  {
    var s1 := GetEntry(s, credential);
    var e, o := s1.entries[credential], |s.ops|;
    var entry := s1.es[e];
    Put(s1, e, Acquire(entry, o)).(ops := s.ops + [Op(e, k, AcquirePhase(entry), AcquireClears(entry))])
  }

  /** The connect promise settles for every call awaiting it. */
  function SettleOps(ops: seq<Op>, e: nat, ok: bool): seq<Op> {
    seq(|ops|, o requires 0 <= o < |ops| =>
      if ops[o].entry == e && ops[o].phase == Waiting then ops[o].(phase := Settled(ok)) else ops[o])
  }

  function OnConnect(s: State, e: nat, ok: bool): State
    requires e < |s.es|
  {
    var entry := s.es[e].(connecting := false);
    var entry' := if ok then entry.(client := true, connects := entry.connects + 1) else entry;
    Put(s, e, entry').(ops := SettleOps(s.ops, e, ok))
  }

  /** The finally clause of ensureConnected. */
  function OnFinally(s: State, o: nat): State
    requires o < |s.ops| && s.ops[o].entry < |s.es|
  {
    var e := s.ops[o].entry;
    Put(s, e, s.es[e].(pendingConnect := None)).(ops := s.ops[o := s.ops[o].(clears := false)])
  }

  /** What follows `await this.ensureConnected`. */
  function OnContinue(s: State, o: nat): State
    requires o < |s.ops| && s.ops[o].entry < |s.es|
  {
    var op := s.ops[o];
    var entry := s.es[op.entry];
    if op.phase == Settled(true) then
      SetPhase(Put(s, op.entry, Attach(entry, op.key, o)), o,
               if op.key in entry.sdkSubscribed then Live else SdkPending)
    else SetPhase(Put(s, op.entry, entry.(refCount := entry.refCount - 1)), o, Done)
  }

  function OnSdkSuccess(s: State, o: nat): State
    requires o < |s.ops| && s.ops[o].entry < |s.es|
  {
    var e := s.ops[o].entry;
    SetPhase(Put(s, e, s.es[e].(granted := s.es[e].granted + multiset{s.ops[o].key})), o, Live)
  }

  function OnSdkFailure(s: State, o: nat): State
    requires o < |s.ops| && s.ops[o].entry < |s.es|
  {
    var op := s.ops[o];
    var entry := s.es[op.entry];
    ReleaseOp(s, o, DropHandler(entry.(sdkSubscribed := entry.sdkSubscribed - {op.key}), op.key, o))
  }

  function OnUnsubscribe(s: State, o: nat): State
    requires o < |s.ops| && s.ops[o].entry < |s.es|
  {
    ReleaseOp(s, o, DropHandler(s.es[s.ops[o].entry], s.ops[o].key, o))
  }

  /** No continuation is queued. */
  predicate Quiet(s: State) {
    forall o :: 0 <= o < |s.ops| ==> !s.ops[o].phase.Settled?
  }

  /**
    Callers may act at any moment, also between two continuations, each unsubscribing once; the network
    only once the queue of continuations is empty.
   */
  predicate Enabled(s: State, ev: Event) {
    match ev
    case Subscribe(_, _) => true
    case ConnectSucceeds(e) => e < |s.es| && s.es[e].connecting && Quiet(s)
    case ConnectFails(e) => e < |s.es| && s.es[e].connecting && Quiet(s)
    case Finally(o) => o < |s.ops| && s.ops[o].phase.Settled? && s.ops[o].clears
    case Continue(o) => o < |s.ops| && s.ops[o].phase.Settled? && !s.ops[o].clears
    case SdkSucceeds(o) => o < |s.ops| && s.ops[o].phase == SdkPending && Quiet(s)
    case SdkFails(o) => o < |s.ops| && s.ops[o].phase == SdkPending && Quiet(s)
    case Unsubscribe(o) => o < |s.ops| && s.ops[o].phase == Live
  }

  function Turn(s: State, ev: Event): State
    requires InRange(s) && Enabled(s, ev)
  {
    match ev
    case Subscribe(credential, k) => OnSubscribe(s, credential, k)
    case ConnectSucceeds(e) => OnConnect(s, e, true)
    case ConnectFails(e) => OnConnect(s, e, false)
    case Finally(o) => OnFinally(s, o)
    case Continue(o) => OnContinue(s, o)
    case SdkSucceeds(o) => OnSdkSuccess(s, o)
    case SdkFails(o) => OnSdkFailure(s, o)
    case Unsubscribe(o) => OnUnsubscribe(s, o)
  }

  // ---------------------------------------------------------------- invariant

  /** The calls on entry `e` that hold a reference: in flight, or live. */
  function Holders(ops: seq<Op>, e: nat): set<nat> {
    set o | 0 <= o < |ops| && ops[o].entry == e && ops[o].phase != Done
  }

  /** The calls whose handler is in the demux table under `k`. */
  function Attached(ops: seq<Op>, e: nat, k: Key): set<nat> {
    set o | 0 <= o < |ops| && ops[o].entry == e && ops[o].key == k &&
      (ops[o].phase == SdkPending || ops[o].phase == Live)
  }

  /** The connection phase of an entry and what it allows its calls to be waiting for. */
  ghost predicate ConnOk(entry: Entry, ops: seq<Op>, e: nat) {
    && (entry.client ==> !entry.connecting)
    && (entry.connecting ==> entry.pendingConnect.Some?)
    && (entry.pendingConnect.Some? ==>
          var o := entry.pendingConnect.value;
          && o < |ops| && ops[o].entry == e && ops[o].clears
          && (if entry.connecting then ops[o].phase == Waiting else ops[o].phase.Settled?))
    && entry.connects == (if entry.client || entry.disconnects > 0 then 1 else 0)
    && entry.disconnects <= 1 && (entry.client ==> entry.disconnects == 0)
    && (entry.disconnects > 0 ==> entry.refCount == 0)
  }

  ghost predicate OpOk(entry: Entry, op: Op, o: nat) {
    && (op.phase == Waiting ==> entry.connecting)
    && (op.phase == Settled(false) ==> !entry.client)
    && (op.phase == Settled(true) || op.phase == SdkPending || op.phase == Live ==> entry.client)
    && (op.clears ==> entry.pendingConnect == Some(o) && (op.phase == Waiting || op.phase.Settled?))
  }

  /** References counted, handlers tabled, SDK subscriptions single. */
  ghost predicate TableOk(entry: Entry, ops: seq<Op>, e: nat) {
    && entry.refCount == |Holders(ops, e)|
    && (forall k :: HandlersOf(entry, k) == Attached(ops, e, k))
    && (forall k :: k in entry.handlers ==> entry.handlers[k] != {})
    && (forall k :: entry.granted[k] <= 1)
    && (forall k :: entry.connects == 0 ==> entry.granted[k] == 0)
    && (forall k :: entry.client && entry.granted[k] == 1 ==> k in entry.sdkSubscribed)
    && (!entry.client ==> entry.sdkSubscribed == {})
  }

  predicate PendingOn(op: Op, e: nat) { op.entry == e && op.phase == SdkPending }

  /** One pending SDK subscription per key at a time, none once the key is granted. */
  ghost predicate SdkOk(entry: Entry, ops: seq<Op>, e: nat) {
    && (forall o :: 0 <= o < |ops| && PendingOn(ops[o], e) ==>
          ops[o].key in entry.sdkSubscribed && entry.granted[ops[o].key] == 0)
    && (forall o, p :: 0 <= o < p < |ops| && PendingOn(ops[o], e) && PendingOn(ops[p], e) ==> ops[o].key != ops[p].key)
  }

  /** An entry in use is the one its credential maps to. */
  ghost predicate MapOk(s: State) {
    && InRange(s)
    && (forall c :: c in s.entries ==> s.es[s.entries[c]].credential == c && s.es[s.entries[c]].disconnects == 0)
    && (forall e :: 0 <= e < |s.es| && s.es[e].refCount > 0 ==>
         s.es[e].credential in s.entries && s.entries[s.es[e].credential] == e)
    && (forall e :: 0 <= e < |s.es| && s.es[e].client ==> s.es[e].refCount > 0)
  }

  ghost predicate EntryInv(s: State, e: nat)
    requires e < |s.es|
  {
    ConnOk(s.es[e], s.ops, e) && TableOk(s.es[e], s.ops, e) && SdkOk(s.es[e], s.ops, e)
  }

  ghost predicate Inv(s: State) {
    && MapOk(s)
    && (forall e :: 0 <= e < |s.es| ==> EntryInv(s, e))
    && OpsOk(s)
  }

  ghost predicate OpsOk(s: State)
    requires InRange(s)
  {
    forall o :: 0 <= o < |s.ops| ==> OpOk(s.es[s.ops[o].entry], s.ops[o], o)
  }

  // ---------------------------------------------------------------- entries an event does not touch

  /** Calls on entry `e` are the same in both. */
  ghost predicate SameCalls(ops: seq<Op>, ops': seq<Op>, e: nat) {
    && |ops| <= |ops'|
    && (forall o :: 0 <= o < |ops| ==> ops'[o] == ops[o] || (ops[o].entry != e && ops'[o].entry != e))
    && (forall o :: |ops| <= o < |ops'| ==> ops'[o].entry != e)
  }

  lemma Untouched(s: State, s': State, e: nat)
    requires e < |s.es| && e < |s'.es| && s'.es[e] == s.es[e] && SameCalls(s.ops, s'.ops, e) && EntryInv(s, e)
    ensures EntryInv(s', e)
  {
    assert Holders(s'.ops, e) == Holders(s.ops, e);
    assert forall k :: Attached(s'.ops, e, k) == Attached(s.ops, e, k);
    assert forall o :: 0 <= o < |s'.ops| && PendingOn(s'.ops[o], e) ==> o < |s.ops| && s'.ops[o] == s.ops[o];
  }

  /** An event of call `o` touches its own entry only. */
  lemma OthersKept(s: State, s': State, e: nat)
    requires |s.es| == |s'.es| && forall d :: 0 <= d < |s.es| && d != e ==>
      s'.es[d] == s.es[d] && SameCalls(s.ops, s'.ops, d)
    requires forall d :: 0 <= d < |s.es| ==> EntryInv(s, d)
    ensures forall d :: 0 <= d < |s'.es| && d != e ==> EntryInv(s', d)
  {
    forall d | 0 <= d < |s'.es| && d != e ensures EntryInv(s', d) {
      Untouched(s, s', d);
    }
  }

  /** What is left to show for a turn that touches entry `e` only. */
  lemma Conclude(s: State, s': State, e: nat)
    requires MapOk(s') && OpsOk(s') && e < |s'.es| && EntryInv(s', e)
    requires |s.es| == |s'.es| && forall d :: 0 <= d < |s.es| && d != e ==>
      s'.es[d] == s.es[d] && SameCalls(s.ops, s'.ops, d)
    requires forall d :: 0 <= d < |s.es| ==> EntryInv(s, d)
    ensures Inv(s')
  {
    OthersKept(s, s', e);
  }

  // ---------------------------------------------------------------- counting references

  lemma HoldersSame(ops: seq<Op>, ops': seq<Op>, e: nat)
    requires |ops'| == |ops|
    requires forall o :: 0 <= o < |ops| ==>
      ops'[o].entry == ops[o].entry && (ops'[o].phase == Done <==> ops[o].phase == Done)
    ensures Holders(ops', e) == Holders(ops, e)
  {
  }

  lemma HolderDone(ops: seq<Op>, o: nat)
    requires o < |ops| && ops[o].phase != Done
    ensures
      var e := ops[o].entry;
      |Holders(ops[o := ops[o].(phase := Done)], e)| == |Holders(ops, e)| - 1
  {
    var e := ops[o].entry;
    assert Holders(ops[o := ops[o].(phase := Done)], e) == Holders(ops, e) - {o};
  }

  lemma HolderAdded(ops: seq<Op>, op: Op)
    requires op.phase != Done
    ensures |Holders(ops + [op], op.entry)| == |Holders(ops, op.entry)| + 1
  {
    var n := |ops|;
    assert (ops + [op])[n] == op && forall o :: 0 <= o < n ==> (ops + [op])[o] == ops[o];
    assert Holders(ops + [op], op.entry) == Holders(ops, op.entry) + {n} && n !in Holders(ops, op.entry);
  }

  lemma HolderPositive(ops: seq<Op>, o: nat)
    requires o < |ops| && ops[o].phase != Done
    ensures |Holders(ops, ops[o].entry)| > 0
  {
    assert o in Holders(ops, ops[o].entry);
  }

  // ---------------------------------------------------------------- the finally clause

  lemma FinallyEntry(s: State, o: nat)
    requires Inv(s) && Enabled(s, Finally(o))
    ensures EntryInv(OnFinally(s, o), s.ops[o].entry)
  {
    var s', e := OnFinally(s, o), s.ops[o].entry;
    assert EntryInv(s, e) && OpOk(s.es[e], s.ops[o], o);
    HoldersSame(s.ops, s'.ops, e);
    forall k ensures Attached(s'.ops, e, k) == Attached(s.ops, e, k) {}
    assert forall p :: 0 <= p < |s.ops| ==>
      PendingOn(s'.ops[p], e) == PendingOn(s.ops[p], e) && s'.ops[p].key == s.ops[p].key;
  }

  lemma FinallyKeeps(s: State, o: nat)
    requires Inv(s) && Enabled(s, Finally(o))
    ensures Inv(OnFinally(s, o))
  {
    var s', e := OnFinally(s, o), s.ops[o].entry;
    FinallyEntry(s, o);
    OthersKept(s, s', e);
    assert OpOk(s.es[e], s.ops[o], o);
    forall p | 0 <= p < |s'.ops| ensures OpOk(s'.es[s'.ops[p].entry], s'.ops[p], p) {
      assert OpOk(s.es[s.ops[p].entry], s.ops[p], p);
    }
  }

  // ---------------------------------------------------------------- connecting

  lemma ConnectEntry(s: State, e: nat, ok: bool)
    requires Inv(s) && e < |s.es| && s.es[e].connecting && Quiet(s)
    ensures EntryInv(OnConnect(s, e, ok), e)
  {
    var s' := OnConnect(s, e, ok);
    assert EntryInv(s, e);
    HoldersSame(s.ops, s'.ops, e);
    HolderPositive(s.ops, s.es[e].pendingConnect.value);
    forall k ensures Attached(s'.ops, e, k) == Attached(s.ops, e, k) {}
    assert forall p :: 0 <= p < |s.ops| ==>
      PendingOn(s'.ops[p], e) == PendingOn(s.ops[p], e) && s'.ops[p].key == s.ops[p].key;
  }

  lemma ConnectOps(s: State, e: nat, ok: bool)
    requires Inv(s) && e < |s.es| && s.es[e].connecting && Quiet(s)
    ensures InRange(OnConnect(s, e, ok)) && OpsOk(OnConnect(s, e, ok))
  {
    var s' := OnConnect(s, e, ok);
    assert EntryInv(s, e);
    forall p | 0 <= p < |s'.ops| ensures OpOk(s'.es[s'.ops[p].entry], s'.ops[p], p) {
      assert OpOk(s.es[s.ops[p].entry], s.ops[p], p);
    }
  }

  lemma ConnectMap(s: State, e: nat, ok: bool)
    requires Inv(s) && e < |s.es| && s.es[e].connecting
    ensures MapOk(OnConnect(s, e, ok))
  {
    assert EntryInv(s, e);
    HolderPositive(s.ops, s.es[e].pendingConnect.value);
  }

  lemma ConnectKeeps(s: State, e: nat, ok: bool)
    requires Inv(s) && e < |s.es| && s.es[e].connecting && Quiet(s)
    ensures Inv(OnConnect(s, e, ok))
  {
    ConnectEntry(s, e, ok);
    ConnectMap(s, e, ok);
    ConnectOps(s, e, ok);
    Conclude(s, OnConnect(s, e, ok), e);
  }

  // ---------------------------------------------------------------- after the connection

  /** An entry and one of its calls, both as the invariant has them. */
  ghost predicate Sound(entry: Entry, ops: seq<Op>, e: nat, o: nat) {
    && ConnOk(entry, ops, e) && TableOk(entry, ops, e) && SdkOk(entry, ops, e)
    && o < |ops| && ops[o].entry == e && OpOk(entry, ops[o], o)
  }

  function WithPhase(ops: seq<Op>, o: nat, p: Phase): seq<Op>
    requires o < |ops|
  {
    ops[o := ops[o].(phase := p)]
  }

  lemma AttachTable(entry: Entry, ops: seq<Op>, e: nat, o: nat, p: Phase)
    requires Sound(entry, ops, e, o) && ops[o].phase == Settled(true) && (p == Live || p == SdkPending)
    ensures TableOk(Attach(entry, ops[o].key, o), WithPhase(ops, o, p), e)
  {
    var ops', k := WithPhase(ops, o, p), ops[o].key;
    HoldersSame(ops, ops', e);
    AttachFacts(entry, k, o);
    AttachedGains(ops, e, o, p);
  }

  lemma AttachedGains(ops: seq<Op>, e: nat, o: nat, p: Phase)
    requires o < |ops| && ops[o].entry == e && (p == Live || p == SdkPending)
    ensures forall m :: Attached(WithPhase(ops, o, p), e, m)
                        == if m == ops[o].key then Attached(ops, e, m) + {o} else Attached(ops, e, m)
  {
    var ops', k := WithPhase(ops, o, p), ops[o].key;
    assert forall q :: 0 <= q < |ops| && q != o ==> ops'[q] == ops[q];
    forall m ensures Attached(ops', e, m) == if m == k then Attached(ops, e, m) + {o} else Attached(ops, e, m) {}
  }

  lemma AttachFacts(entry: Entry, k: Key, o: nat)
    requires forall m :: m in entry.handlers ==> entry.handlers[m] != {}
    ensures
      var a := Attach(entry, k, o);
      && a == entry.(handlers := a.handlers, sdkSubscribed := entry.sdkSubscribed + {k})
      && (forall m :: m in a.handlers ==> a.handlers[m] != {})
      && (forall m :: HandlersOf(a, m) == if m == k then HandlersOf(entry, m) + {o} else HandlersOf(entry, m))
  {
  }

  lemma AttachSdk(entry: Entry, ops: seq<Op>, e: nat, o: nat)
    requires Sound(entry, ops, e, o) && ops[o].phase == Settled(true)
    ensures SdkOk(Attach(entry, ops[o].key, o),
                  WithPhase(ops, o, if ops[o].key in entry.sdkSubscribed then Live else SdkPending), e)
  {
    var ops' := WithPhase(ops, o, if ops[o].key in entry.sdkSubscribed then Live else SdkPending);
    assert forall p :: 0 <= p < |ops| && p != o ==> ops'[p] == ops[p];
  }

  lemma ContinueEntry(s: State, o: nat)
    requires Inv(s) && Enabled(s, Continue(o)) && s.ops[o].phase == Settled(true)
    ensures EntryInv(OnContinue(s, o), s.ops[o].entry)
  {
    var s', e := OnContinue(s, o), s.ops[o].entry;
    assert EntryInv(s, e) && OpOk(s.es[e], s.ops[o], o);
    AttachTable(s.es[e], s.ops, e, o, s'.ops[o].phase);
    AttachSdk(s.es[e], s.ops, e, o);
  }

  lemma ContinueFailedEntry(s: State, o: nat)
    requires Inv(s) && Enabled(s, Continue(o)) && s.ops[o].phase == Settled(false)
    ensures EntryInv(OnContinue(s, o), s.ops[o].entry)
  {
    var s', e := OnContinue(s, o), s.ops[o].entry;
    assert EntryInv(s, e) && OpOk(s.es[e], s.ops[o], o);
    HolderDone(s.ops, o);
    HolderPositive(s.ops, o);
    forall m ensures Attached(s'.ops, e, m) == Attached(s.ops, e, m) {}
    assert forall p :: 0 <= p < |s.ops| && p != o ==> s'.ops[p] == s.ops[p];
  }

  lemma ContinueOps(s: State, o: nat)
    requires Inv(s) && Enabled(s, Continue(o))
    ensures InRange(OnContinue(s, o)) && OpsOk(OnContinue(s, o))
  {
    var s', e := OnContinue(s, o), s.ops[o].entry;
    assert OpOk(s.es[e], s.ops[o], o);
    forall p | 0 <= p < |s'.ops| ensures OpOk(s'.es[s'.ops[p].entry], s'.ops[p], p) {
      assert OpOk(s.es[s.ops[p].entry], s.ops[p], p);
    }
  }

  lemma ContinueMap(s: State, o: nat)
    requires Inv(s) && Enabled(s, Continue(o))
    ensures MapOk(OnContinue(s, o))
  {
    assert OpOk(s.es[s.ops[o].entry], s.ops[o], o);
  }

  lemma ContinueOthers(s: State, o: nat)
    requires o < |s.ops| && s.ops[o].entry < |s.es|
    ensures
      var s', e := OnContinue(s, o), s.ops[o].entry;
      |s.es| == |s'.es| && forall d :: 0 <= d < |s.es| && d != e ==> s'.es[d] == s.es[d] && SameCalls(s.ops, s'.ops, d)
  {
  }

  lemma ContinueOwn(s: State, o: nat)
    requires Inv(s) && Enabled(s, Continue(o))
    ensures EntryInv(OnContinue(s, o), s.ops[o].entry)
  {
    if s.ops[o].phase == Settled(true) { ContinueEntry(s, o); } else { ContinueFailedEntry(s, o); }
  }

  lemma ContinueKeeps(s: State, o: nat)
    requires Inv(s) && Enabled(s, Continue(o))
    ensures Inv(OnContinue(s, o))
  {
    var s', e := OnContinue(s, o), s.ops[o].entry;
    assert OpOk(s.es[e], s.ops[o], o);
    ContinueOwn(s, o);
    ContinueMap(s, o);
    ContinueOps(s, o);
    ContinueOthers(s, o);
    Conclude(s, s', e);
  }

  // ---------------------------------------------------------------- releasing

  lemma DropHandlerFacts(entry: Entry, k: Key, o: nat)
    requires forall m :: m in entry.handlers ==> entry.handlers[m] != {}
    ensures
      var d := DropHandler(entry, k, o);
      && d == entry.(handlers := d.handlers)
      && (forall m :: m in d.handlers ==> d.handlers[m] != {})
      && (forall m :: HandlersOf(d, m) == if m == k then HandlersOf(entry, m) - {o} else HandlersOf(entry, m))
  {
  }

  function Freed(entry: Entry, k: Key, free: bool): Entry {
    if free then entry.(sdkSubscribed := entry.sdkSubscribed - {k}) else entry
  }

  /** Call `o`, live or (if `free`) with its SDK subscription rejected, takes its handler off the table. */
  ghost predicate Leaves(entry: Entry, ops: seq<Op>, e: nat, o: nat, free: bool) {
    Sound(entry, ops, e, o) && ops[o].phase == (if free then SdkPending else Live)
  }

  lemma LeaveTable(entry: Entry, ops: seq<Op>, e: nat, o: nat, free: bool)
    requires Leaves(entry, ops, e, o, free)
    ensures
      var left := DropHandler(Freed(entry, ops[o].key, free), ops[o].key, o);
      TableOk(left.(refCount := entry.refCount - 1), WithPhase(ops, o, Done), e)
  {
    var ops', k := WithPhase(ops, o, Done), ops[o].key;
    HolderDone(ops, o);
    DropHandlerFacts(Freed(entry, k, free), k, o);
    forall m ensures Attached(ops', e, m) == if m == k then Attached(ops, e, m) - {o} else Attached(ops, e, m) {}
  }

  lemma LeaveSdk(entry: Entry, ops: seq<Op>, e: nat, o: nat, free: bool)
    requires Leaves(entry, ops, e, o, free)
    ensures
      var left := DropHandler(Freed(entry, ops[o].key, free), ops[o].key, o);
      SdkOk(left, WithPhase(ops, o, Done), e)
  {
    var ops' := WithPhase(ops, o, Done);
    assert forall p :: 0 <= p < |ops| && p != o ==> ops'[p] == ops[p];
    assert forall p :: 0 <= p < |ops| && PendingOn(ops'[p], e) ==> p != o && PendingOn(ops[p], e);
  }

  /** With the last reference gone nothing is left on the entry. */
  lemma NoneLeft(ops: seq<Op>, e: nat)
    requires |Holders(ops, e)| == 0
    ensures forall p :: 0 <= p < |ops| && ops[p].entry == e ==> ops[p].phase == Done
    ensures forall k :: Attached(ops, e, k) == {}
  {
    forall p | 0 <= p < |ops| && ops[p].entry == e ensures ops[p].phase == Done {
      assert p !in Holders(ops, e);
    }
  }

  lemma ReleaseEntry(entry: Entry, ops: seq<Op>, e: nat, o: nat, free: bool)
    requires Leaves(entry, ops, e, o, free)
    ensures
      var entry', ops' := Release(DropHandler(Freed(entry, ops[o].key, free), ops[o].key, o)), WithPhase(ops, o, Done);
      ConnOk(entry', ops', e) && TableOk(entry', ops', e) && SdkOk(entry', ops', e)
  {
    LeaveTable(entry, ops, e, o, free);
    LeaveSdk(entry, ops, e, o, free);
    LeaveConn(entry, ops, e, o, free);
    HolderPositive(ops, o);
    HolderDone(ops, o);
    if entry.refCount == 1 { NoneLeft(WithPhase(ops, o, Done), e); }
  }

  /** A call that has got past its connection leaves the connection's own phase alone. */
  lemma LeaveConn(entry: Entry, ops: seq<Op>, e: nat, o: nat, free: bool)
    requires Leaves(entry, ops, e, o, free)
    ensures
      var left := DropHandler(Freed(entry, ops[o].key, free), ops[o].key, o);
      && left == entry.(handlers := left.handlers, sdkSubscribed := left.sdkSubscribed)
      && (entry.refCount > 1 ==> ConnOk(left.(refCount := entry.refCount - 1), WithPhase(ops, o, Done), e))
  {
    DropHandlerSame(Freed(entry, ops[o].key, free), ops[o].key, o);
  }

  function Released(s: State, o: nat, free: bool): State
    requires o < |s.ops| && s.ops[o].entry < |s.es|
  {
    var op := s.ops[o];
    ReleaseOp(s, o, DropHandler(Freed(s.es[op.entry], op.key, free), op.key, o))
  }

  lemma ReleasedMap(s: State, o: nat, free: bool)
    requires Inv(s) && o < |s.ops| && Leaves(s.es[s.ops[o].entry], s.ops, s.ops[o].entry, o, free)
    ensures MapOk(Released(s, o, free))
  {
    var e := s.ops[o].entry;
    DropHandlerFacts(Freed(s.es[e], s.ops[o].key, free), s.ops[o].key, o);
    HolderPositive(s.ops, o);
    assert s.es[e].refCount > 0;
  }

  lemma ReleasedOps(s: State, o: nat, free: bool)
    requires Inv(s) && o < |s.ops| && Leaves(s.es[s.ops[o].entry], s.ops, s.ops[o].entry, o, free)
    ensures InRange(Released(s, o, free)) && OpsOk(Released(s, o, free))
  {
    var s', e := Released(s, o, free), s.ops[o].entry;
    DropHandlerFacts(Freed(s.es[e], s.ops[o].key, free), s.ops[o].key, o);
    HolderDone(s.ops, o);
    if s.es[e].refCount == 1 { NoneLeft(s'.ops, e); }
    forall p | 0 <= p < |s'.ops| ensures OpOk(s'.es[s'.ops[p].entry], s'.ops[p], p) {
      assert OpOk(s.es[s.ops[p].entry], s.ops[p], p);
    }
  }

  lemma ReleasedOthers(s: State, o: nat, free: bool)
    requires o < |s.ops| && s.ops[o].entry < |s.es|
    ensures
      var s', e := Released(s, o, free), s.ops[o].entry;
      |s.es| == |s'.es| && forall d :: 0 <= d < |s.es| && d != e ==> s'.es[d] == s.es[d] && SameCalls(s.ops, s'.ops, d)
  {
  }

  lemma ReleasedKeeps(s: State, o: nat, free: bool)
    requires Inv(s) && o < |s.ops| && s.ops[o].phase == (if free then SdkPending else Live)
    ensures Inv(Released(s, o, free))
  {
    var s', e := Released(s, o, free), s.ops[o].entry;
    assert EntryInv(s, e) && OpOk(s.es[e], s.ops[o], o);
    ReleaseEntry(s.es[e], s.ops, e, o, free);
    ReleasedMap(s, o, free);
    ReleasedOps(s, o, free);
    ReleasedOthers(s, o, free);
    Conclude(s, s', e);
  }

  // ---------------------------------------------------------------- the SDK accepts

  lemma SdkSuccessEntry(entry: Entry, ops: seq<Op>, e: nat, o: nat)
    requires Sound(entry, ops, e, o) && ops[o].phase == SdkPending
    ensures
      var entry', ops' := entry.(granted := entry.granted + multiset{ops[o].key}), WithPhase(ops, o, Live);
      ConnOk(entry', ops', e) && TableOk(entry', ops', e) && SdkOk(entry', ops', e)
  {
    var ops' := WithPhase(ops, o, Live);
    HoldersSame(ops, ops', e);
    forall m ensures Attached(ops', e, m) == Attached(ops, e, m) {}
    assert forall p :: 0 <= p < |ops| && p != o ==> ops'[p] == ops[p];
    assert PendingOn(ops[o], e);
    assert forall p :: 0 <= p < |ops| && PendingOn(ops'[p], e) ==>
      p != o && PendingOn(ops[p], e) && ops[p].key != ops[o].key;
  }

  lemma SdkSuccessOps(s: State, o: nat)
    requires Inv(s) && o < |s.ops| && s.ops[o].phase == SdkPending
    ensures MapOk(OnSdkSuccess(s, o)) && OpsOk(OnSdkSuccess(s, o))
  {
    var s' := OnSdkSuccess(s, o);
    forall p | 0 <= p < |s'.ops| ensures OpOk(s'.es[s'.ops[p].entry], s'.ops[p], p) {
      assert OpOk(s.es[s.ops[p].entry], s.ops[p], p);
    }
  }

  lemma SdkSuccessKeeps(s: State, o: nat)
    requires Inv(s) && o < |s.ops| && s.ops[o].phase == SdkPending
    ensures Inv(OnSdkSuccess(s, o))
  {
    var e := s.ops[o].entry;
    assert EntryInv(s, e) && OpOk(s.es[e], s.ops[o], o);
    SdkSuccessEntry(s.es[e], s.ops, e, o);
    SdkSuccessOps(s, o);
    Conclude(s, OnSdkSuccess(s, o), e);
  }

  // ---------------------------------------------------------------- subscribing

  lemma GetEntryKeeps(s: State, credential: string)
    requires Inv(s)
    ensures
      var s1 := GetEntry(s, credential);
      Inv(s1) && credential in s1.entries && s1.ops == s.ops
  {
    var s1 := GetEntry(s, credential);
    if credential !in s.entries {
      forall e | 0 <= e < |s1.es| ensures EntryInv(s1, e) {
        if e < |s.es| {
          assert EntryInv(s, e);
        } else {
          assert Holders(s.ops, e) == {};
          assert forall k :: Attached(s.ops, e, k) == {};
        }
      }
      forall p | 0 <= p < |s1.ops| ensures OpOk(s1.es[s1.ops[p].entry], s1.ops[p], p) {
        assert OpOk(s.es[s.ops[p].entry], s.ops[p], p);
      }
    }
  }

  lemma AcquireEntry(entry: Entry, ops: seq<Op>, e: nat, k: Key)
    requires ConnOk(entry, ops, e) && TableOk(entry, ops, e) && SdkOk(entry, ops, e) && entry.disconnects == 0
    ensures
      var entry', ops' := Acquire(entry, |ops|), ops + [Op(e, k, AcquirePhase(entry), AcquireClears(entry))];
      && ConnOk(entry', ops', e) && TableOk(entry', ops', e) && SdkOk(entry', ops', e)
      && OpOk(entry', ops'[|ops|], |ops|)
  {
    var op := Op(e, k, AcquirePhase(entry), AcquireClears(entry));
    var ops' := ops + [op];
    HolderAdded(ops, op);
    forall m ensures Attached(ops', e, m) == Attached(ops, e, m) {}
    assert forall p :: 0 <= p < |ops| ==> ops'[p] == ops[p];
    assert forall p :: 0 <= p < |ops'| && PendingOn(ops'[p], e) ==> p < |ops| && PendingOn(ops[p], e);
  }

  lemma SubscribeKeeps(s: State, credential: string, k: Key)
    requires Inv(s)
    ensures Inv(OnSubscribe(s, credential, k))
  {
    GetEntryKeeps(s, credential);
    var s1 := GetEntry(s, credential);
    AcquireKeeps(s1, s1.entries[credential], k);
  }

  /** subscribe on the entry getEntry returned. */
  function Acquired(s: State, e: nat, k: Key): State
    requires e < |s.es|
  {
    Put(s, e, Acquire(s.es[e], |s.ops|)).(ops := s.ops + [Op(e, k, AcquirePhase(s.es[e]), AcquireClears(s.es[e]))])
  }

  lemma AcquireMap(s: State, e: nat, k: Key)
    requires Inv(s) && e < |s.es| && s.es[e].credential in s.entries && s.entries[s.es[e].credential] == e
    ensures MapOk(Acquired(s, e, k))
  {
    var s' := Acquired(s, e, k);
    assert EntryInv(s, e);
    assert forall d :: 0 <= d < |s.es| && d != e ==> s'.es[d] == s.es[d];
  }

  lemma AcquireOps(s: State, e: nat, k: Key)
    requires Inv(s) && e < |s.es| && s.es[e].disconnects == 0
    ensures InRange(Acquired(s, e, k)) && OpsOk(Acquired(s, e, k))
  {
    var s' := Acquired(s, e, k);
    assert EntryInv(s, e);
    AcquireEntry(s.es[e], s.ops, e, k);
    forall p | 0 <= p < |s'.ops| ensures OpOk(s'.es[s'.ops[p].entry], s'.ops[p], p) {
      if p < |s.ops| { assert OpOk(s.es[s.ops[p].entry], s.ops[p], p); }
    }
  }

  lemma AcquireKeeps(s: State, e: nat, k: Key)
    requires Inv(s) && e < |s.es| && s.es[e].credential in s.entries && s.entries[s.es[e].credential] == e
    ensures Inv(Acquired(s, e, k))
  {
    assert EntryInv(s, e) && s.es[e].disconnects == 0;
    AcquireEntry(s.es[e], s.ops, e, k);
    AcquireMap(s, e, k);
    AcquireOps(s, e, k);
    Conclude(s, Acquired(s, e, k), e);
  }

  // ---------------------------------------------------------------- every run

  lemma TurnKeeps(s: State, ev: Event)
    requires Inv(s) && Enabled(s, ev)
    ensures Inv(Turn(s, ev))
  {
    match ev
    case Subscribe(credential, k) => SubscribeKeeps(s, credential, k);
    case ConnectSucceeds(e) => ConnectKeeps(s, e, true);
    case ConnectFails(e) => ConnectKeeps(s, e, false);
    case Finally(o) => FinallyKeeps(s, o);
    case Continue(o) => ContinueKeeps(s, o);
    case SdkSucceeds(o) => SdkSuccessKeeps(s, o);
    case SdkFails(o) => ReleasedKeeps(s, o, true);
    case Unsubscribe(o) => ReleasedKeeps(s, o, false);
  }

  ghost predicate LegalRun(s: State, evs: seq<Event>)
    decreases |evs|
  {
    evs == [] || (InRange(s) && Enabled(s, evs[0]) && LegalRun(Turn(s, evs[0]), evs[1..]))
  }

  ghost function Run(s: State, evs: seq<Event>): State
    requires LegalRun(s, evs)
    decreases |evs|
  {
    if evs == [] then s else Run(Turn(s, evs[0]), evs[1..])
  }

  lemma {:induction false} RunKeeps(s: State, evs: seq<Event>)
    requires Inv(s) && LegalRun(s, evs)
    ensures Inv(Run(s, evs))
    decreases |evs|
  {
    if evs != [] {
      TurnKeeps(s, evs[0]);
      RunKeeps(Turn(s, evs[0]), evs[1..]);
    }
  }

  ghost predicate Reachable(s: State) {
    exists evs :: LegalRun(EMPTY, evs) && Run(EMPTY, evs) == s
  }

  lemma ReachableKeeps(s: State)
    requires Reachable(s)
    ensures Inv(s)
  {
    var evs :| LegalRun(EMPTY, evs) && Run(EMPTY, evs) == s;
    RunKeeps(EMPTY, evs);
  }

  // ---------------------------------------------------------------- references and teardown

  /**
    In every run an entry's refCount is the number of its subscribe calls in flight plus its live
    subscriptions; an entry with a client has references and is the one its credential maps to.
   */
  lemma ReferencesCounted(s: State, e: nat)
    requires Reachable(s) && e < |s.es|
    ensures s.es[e].refCount == |Holders(s.ops, e)|
    ensures s.es[e].client ==> s.es[e].refCount > 0
    ensures s.es[e].refCount > 0 ==> s.es[e].credential in s.entries && s.entries[s.es[e].credential] == e
  {
    ReachableKeeps(s);
    assert EntryInv(s, e);
  }

  /** One connect at most, undone by one disconnect once no reference is left. */
  predicate DisconnectsOnce(x: Entry) {
    && x.connects <= 1
    && x.disconnects == (if x.connects == 1 && x.refCount == 0 then 1 else 0)
    && (x.client <==> x.connects == 1 && x.refCount > 0)
  }

  lemma EntryDisconnectsOnce(s: State, e: nat)
    requires Inv(s) && e < |s.es|
    ensures DisconnectsOnce(s.es[e])
  {
    assert EntryInv(s, e);
  }

  /** Every client that connected has been disconnected exactly once if it is no longer held, and never otherwise. */
  lemma DisconnectedOnce(s: State, e: nat)
    requires Reachable(s) && e < |s.es|
    ensures s.es[e].connects <= 1
    ensures s.es[e].disconnects == if s.es[e].connects == 1 && s.es[e].refCount == 0 then 1 else 0
    ensures s.es[e].client <==> s.es[e].connects == 1 && s.es[e].refCount > 0
  {
    ReachableKeeps(s);
    EntryDisconnectsOnce(s, e);
  }

  /** A turn disconnects an entry's client exactly when it takes that entry's last reference. */
  lemma DisconnectsAtLastRelease(s: State, ev: Event, e: nat)
    requires Reachable(s) && Enabled(s, ev) && e < |s.es|
    ensures InRange(s) && e < |Turn(s, ev).es|
    ensures Turn(s, ev).es[e].disconnects ==
      s.es[e].disconnects + (if s.es[e].client && Turn(s, ev).es[e].refCount == 0 then 1 else 0)
  {
    ReachableKeeps(s);
    SameClient(s, ev, e);
    TurnKeeps(s, ev);
    EntryDisconnectsOnce(s, e);
    EntryDisconnectsOnce(Turn(s, ev), e);
    LastRelease(s.es[e], Turn(s, ev).es[e]);
  }

  lemma LastRelease(x: Entry, x': Entry)
    requires DisconnectsOnce(x) && DisconnectsOnce(x')
    requires x.disconnects <= x'.disconnects && x.connects <= x'.connects
    requires !x.client ==> x'.disconnects == x.disconnects
    ensures x'.disconnects == x.disconnects + (if x.client && x'.refCount == 0 then 1 else 0)
  {
  }

  /** A turn never disconnects an entry without a client, and connects none that was torn down. */
  lemma SameClient(s: State, ev: Event, e: nat)
    requires Inv(s) && Enabled(s, ev) && e < |s.es|
    ensures e < |Turn(s, ev).es|
    ensures s.es[e].disconnects <= Turn(s, ev).es[e].disconnects
    ensures s.es[e].connects <= Turn(s, ev).es[e].connects
    ensures !s.es[e].client ==> Turn(s, ev).es[e].disconnects == s.es[e].disconnects
  {
    match ev
    case SdkFails(o) => ReleasedClient(s, o, true, e);
    case Unsubscribe(o) => ReleasedClient(s, o, false, e);
    case _ =>
  }

  lemma ReleasedClient(s: State, o: nat, free: bool, e: nat)
    requires Inv(s) && o < |s.ops| && s.ops[o].phase == (if free then SdkPending else Live) && e < |s.es|
    ensures
      var entry' := Released(s, o, free).es[e];
      && s.es[e].disconnects <= entry'.disconnects && s.es[e].connects <= entry'.connects
      && (!s.es[e].client ==> entry'.disconnects == s.es[e].disconnects)
  {
    var d := s.ops[o].entry;
    assert OpOk(s.es[d], s.ops[o], o);
    DropHandlerSame(Freed(s.es[d], s.ops[o].key, free), s.ops[o].key, o);
  }

  lemma DropHandlerSame(entry: Entry, k: Key, o: nat)
    ensures DropHandler(entry, k, o) == entry.(handlers := DropHandler(entry, k, o).handlers)
  {
  }

  // ---------------------------------------------------------------- demultiplexing

  /** The live subscriptions to `k` on entry `e`. */
  function LiveOn(ops: seq<Op>, e: nat, k: Key): set<nat> {
    set o | 0 <= o < |ops| && ops[o].entry == e && ops[o].key == k && ops[o].phase == Live
  }

  /**
    At most one SDK subscription per client and key ever succeeds, and a value that client delivers for the
    key, however late, reaches exactly the handlers whose subscription to it is live at that moment.
   */
  lemma DeliversToLive(s: State, e: nat, k: Key)
    requires Reachable(s) && e < |s.es|
    ensures s.es[e].granted[k] <= 1
    ensures s.es[e].granted[k] == 1 ==> HandlersOf(s.es[e], k) == LiveOn(s.ops, e, k)
  {
    ReachableKeeps(s);
    assert EntryInv(s, e);
    if s.es[e].granted[k] == 1 {
      assert forall o :: 0 <= o < |s.ops| && PendingOn(s.ops[o], e) ==> s.ops[o].key != k;
      assert Attached(s.ops, e, k) == LiveOn(s.ops, e, k);
    }
  }

  /** The SDK has accepted a subscription to `k` for this entry's client, or is being asked to. */
  ghost predicate Served(entry: Entry, ops: seq<Op>, e: nat, k: Key) {
    entry.granted[k] == 1 || exists o :: 0 <= o < |ops| && PendingOn(ops[o], e) && ops[o].key == k
  }

  /** Grants only accumulate, and calls waiting for the SDK still do. */
  ghost predicate StillAsking(s: State, s': State) {
    && InRange(s) && InRange(s') && |s.es| <= |s'.es| && |s.ops| <= |s'.ops|
    && (forall e, k :: 0 <= e < |s.es| && s.es[e].granted[k] == 1 ==> s'.es[e].granted[k] == 1)
    && (forall o :: 0 <= o < |s.ops| ==> s'.ops[o].entry == s.ops[o].entry && s'.ops[o].key == s.ops[o].key)
    && (forall o :: 0 <= o < |s.ops| && s.ops[o].phase == SdkPending ==>
          s'.ops[o].phase == SdkPending || s'.es[s.ops[o].entry].granted[s.ops[o].key] == 1)
  }

  lemma StillServed(s: State, s': State, e: nat, k: Key)
    requires StillAsking(s, s') && e < |s.es| && Served(s.es[e], s.ops, e, k)
    ensures Served(s'.es[e], s'.ops, e, k)
  {
    if s.es[e].granted[k] != 1 {
      var o :| 0 <= o < |s.ops| && PendingOn(s.ops[o], e) && s.ops[o].key == k;
      if s'.es[e].granted[k] != 1 { assert PendingOn(s'.ops[o], e); }
    }
  }

  lemma TurnStillAsking(s: State, ev: Event)
    requires Inv(s) && Enabled(s, ev) && !ev.SdkFails?
    ensures StillAsking(s, Turn(s, ev))
  {
    match ev
    case Unsubscribe(o) => UnsubscribeStillAsking(s, o);
    case SdkSucceeds(o) => GrantStillAsking(s, o);
    case Continue(o) => ContinueStillAsking(s, o);
    case Subscribe(credential, k) => SubscribeStillAsking(s, credential, k);
    case _ =>
  }

  lemma SubscribeStillAsking(s: State, credential: string, k: Key)
    requires InRange(s)
    ensures StillAsking(s, OnSubscribe(s, credential, k))
  {
  }

  lemma UnsubscribeStillAsking(s: State, o: nat)
    requires InRange(s) && Enabled(s, Unsubscribe(o))
    ensures StillAsking(s, OnUnsubscribe(s, o))
  {
    DropHandlerSame(s.es[s.ops[o].entry], s.ops[o].key, o);
  }

  lemma ContinueStillAsking(s: State, o: nat)
    requires InRange(s) && Enabled(s, Continue(o))
    ensures StillAsking(s, OnContinue(s, o))
  {
  }

  lemma GrantStillAsking(s: State, o: nat)
    requires Inv(s) && Enabled(s, SdkSucceeds(o))
    ensures StillAsking(s, OnSdkSuccess(s, o)) && OnSdkSuccess(s, o).es[s.ops[o].entry].granted[s.ops[o].key] == 1
  {
    assert EntryInv(s, s.ops[o].entry) && PendingOn(s.ops[o], s.ops[o].entry);
  }

  // ---------------------------------------------------------------- keys marked as subscribed

  /** A key marked as subscribed is served. */
  ghost predicate MarksServed(s: State)
    requires InRange(s)
  {
    forall e, k :: 0 <= e < |s.es| && k in s.es[e].sdkSubscribed ==> Served(s.es[e], s.ops, e, k)
  }

  /** What `s'` marks and `s` does not, the SDK is being asked for. */
  ghost predicate AsksForMarks(s: State, s': State)
    requires InRange(s) && InRange(s')
  {
    forall e, k :: 0 <= e < |s'.es| && k in s'.es[e].sdkSubscribed && (e < |s.es| ==> k !in s.es[e].sdkSubscribed) ==>
      Served(s'.es[e], s'.ops, e, k)
  }

  lemma TurnAsksForMarks(s: State, ev: Event)
    requires Inv(s) && Enabled(s, ev) && !ev.SdkFails?
    ensures InRange(Turn(s, ev)) && AsksForMarks(s, Turn(s, ev))
  {
    match ev
    case Continue(o) => ContinueAsks(s, o);
    case Unsubscribe(o) => UnsubscribeAsks(s, o);
    case _ =>
  }

  lemma ContinueAsks(s: State, o: nat)
    requires InRange(s) && Enabled(s, Continue(o))
    ensures InRange(OnContinue(s, o)) && AsksForMarks(s, OnContinue(s, o))
  {
    var s' := OnContinue(s, o);
    assert s'.ops[o].phase == SdkPending ==> PendingOn(s'.ops[o], s'.ops[o].entry);
  }

  lemma UnsubscribeAsks(s: State, o: nat)
    requires InRange(s) && Enabled(s, Unsubscribe(o))
    ensures InRange(OnUnsubscribe(s, o)) && AsksForMarks(s, OnUnsubscribe(s, o))
  {
    DropHandlerSame(s.es[s.ops[o].entry], s.ops[o].key, o);
  }

  /** A rejection unmarks its key, and no other call was asking for it. */
  lemma RejectionMarks(s: State, o: nat)
    requires Inv(s) && Enabled(s, SdkFails(o)) && MarksServed(s)
    ensures InRange(OnSdkFailure(s, o)) && MarksServed(OnSdkFailure(s, o))
  {
    var s', d, m := OnSdkFailure(s, o), s.ops[o].entry, s.ops[o].key;
    DropHandlerSame(Freed(s.es[d], m, true), m, o);
    forall e, k | 0 <= e < |s'.es| && k in s'.es[e].sdkSubscribed ensures Served(s'.es[e], s'.ops, e, k) {
      assert k in s.es[e].sdkSubscribed && (e == d ==> k != m);
      if s.es[e].granted[k] != 1 {
        var q :| 0 <= q < |s.ops| && PendingOn(s.ops[q], e) && s.ops[q].key == k;
        assert q != o && PendingOn(s'.ops[q], e);
      }
    }
  }

  lemma TurnMarksServed(s: State, ev: Event)
    requires Inv(s) && Enabled(s, ev) && MarksServed(s)
    ensures InRange(Turn(s, ev)) && MarksServed(Turn(s, ev))
  {
    var s' := Turn(s, ev);
    if ev.SdkFails? {
      RejectionMarks(s, ev.op);
    } else {
      TurnStillAsking(s, ev);
      TurnAsksForMarks(s, ev);
      forall e, k | 0 <= e < |s'.es| && k in s'.es[e].sdkSubscribed ensures Served(s'.es[e], s'.ops, e, k) {
        if e < |s.es| && k in s.es[e].sdkSubscribed { StillServed(s, s', e, k); }
      }
    }
  }

  /** In every run, rejections or not, a key marked as subscribed is served. */
  lemma {:induction false} RunMarksServed(s: State, evs: seq<Event>)
    requires Inv(s) && InRange(s) && MarksServed(s) && LegalRun(s, evs)
    ensures InRange(Run(s, evs)) && MarksServed(Run(s, evs))
    decreases |evs|
  {
    if evs != [] {
      TurnKeeps(s, evs[0]);
      TurnMarksServed(s, evs[0]);
      RunMarksServed(Turn(s, evs[0]), evs[1..]);
    }
  }

  // ---------------------------------------------------------------- live subscriptions

  /** Every live subscription's key is marked. */
  ghost predicate LiveMarked(s: State)
    requires InRange(s)
  {
    forall o :: 0 <= o < |s.ops| && s.ops[o].phase == Live ==> s.ops[o].key in s.es[s.ops[o].entry].sdkSubscribed
  }

  lemma GrantLiveMarked(s: State, o: nat)
    requires Inv(s) && Enabled(s, SdkSucceeds(o)) && LiveMarked(s)
    ensures InRange(OnSdkSuccess(s, o)) && LiveMarked(OnSdkSuccess(s, o))
  {
    assert EntryInv(s, s.ops[o].entry) && PendingOn(s.ops[o], s.ops[o].entry);
  }

  lemma UnsubscribeLiveMarked(s: State, o: nat)
    requires Inv(s) && Enabled(s, Unsubscribe(o)) && LiveMarked(s)
    ensures InRange(OnUnsubscribe(s, o)) && LiveMarked(OnUnsubscribe(s, o))
  {
    var s', e := OnUnsubscribe(s, o), s.ops[o].entry;
    assert EntryInv(s, e);
    DropHandlerSame(s.es[e], s.ops[o].key, o);
    HolderDone(s.ops, o);
    if s.es[e].refCount == 1 { NoneLeft(s'.ops, e); }
  }

  lemma ContinueLiveMarked(s: State, o: nat)
    requires InRange(s) && Enabled(s, Continue(o)) && LiveMarked(s)
    ensures InRange(OnContinue(s, o)) && LiveMarked(OnContinue(s, o))
  {
  }

  lemma SubscribeLiveMarked(s: State, credential: string, k: Key)
    requires InRange(s) && LiveMarked(s)
    ensures InRange(OnSubscribe(s, credential, k)) && LiveMarked(OnSubscribe(s, credential, k))
  {
  }

  lemma TurnLiveMarked(s: State, ev: Event)
    requires Inv(s) && Enabled(s, ev) && !ev.SdkFails? && LiveMarked(s)
    ensures InRange(Turn(s, ev)) && LiveMarked(Turn(s, ev))
  {
    match ev
    case SdkSucceeds(o) => GrantLiveMarked(s, o);
    case Unsubscribe(o) => UnsubscribeLiveMarked(s, o);
    case Continue(o) => ContinueLiveMarked(s, o);
    case Subscribe(credential, k) => SubscribeLiveMarked(s, credential, k);
    case _ =>
  }

  lemma {:induction false} RunLiveMarked(s: State, evs: seq<Event>)
    requires Inv(s) && InRange(s) && LiveMarked(s) && LegalRun(s, evs)
    requires forall i :: 0 <= i < |evs| ==> !evs[i].SdkFails?
    ensures InRange(Run(s, evs)) && LiveMarked(Run(s, evs))
    decreases |evs|
  {
    if evs != [] {
      TurnKeeps(s, evs[0]);
      TurnLiveMarked(s, evs[0]);
      RunLiveMarked(Turn(s, evs[0]), evs[1..]);
    }
  }

  /** In a run where the SDK rejects no subscription, the SDK has accepted or is considering every live one. */
  lemma LiveAreServed(evs: seq<Event>, o: nat)
    requires LegalRun(EMPTY, evs) && o < |Run(EMPTY, evs).ops| && Run(EMPTY, evs).ops[o].phase == Live
    requires forall i :: 0 <= i < |evs| ==> !evs[i].SdkFails?
    ensures
      var s, op := Run(EMPTY, evs), Run(EMPTY, evs).ops[o];
      op.entry < |s.es| && Served(s.es[op.entry], s.ops, op.entry, op.key)
  {
    RunLiveMarked(EMPTY, evs);
    RunMarksServed(EMPTY, evs);
  }

  // ---------------------------------------------------------------- what a rejection leaves served

  /** A live subscription whose key the SDK has accepted or is considering. */
  ghost predicate LiveServed(s: State, p: nat)
    requires InRange(s) && p < |s.ops|
  {
    s.ops[p].phase == Live && Served(s.es[s.ops[p].entry], s.ops, s.ops[p].entry, s.ops[p].key)
  }

  predicate SameKey(s: State, o: nat, p: nat)
    requires o < |s.ops| && p < |s.ops|
  {
    s.ops[p].entry == s.ops[o].entry && s.ops[p].key == s.ops[o].key
  }

  /** The SDK rejecting call `o`, as its entry sees it, when others still hold the entry. */
  lemma RejectionLeaves(s: State, o: nat, p: nat)
    requires Inv(s) && Enabled(s, SdkFails(o)) && p < |s.ops| && s.ops[p].phase == Live
    ensures
      var s' := OnSdkFailure(s, o);
      && InRange(s') && s'.ops == WithPhase(s.ops, o, Done) && p != o
      && (forall d, k :: 0 <= d < |s.es| ==> s'.es[d].granted[k] == s.es[d].granted[k])
      && (s.ops[p].entry == s.ops[o].entry ==> s'.es[s.ops[o].entry].client)
  {
    DropHandlerSame(Freed(s.es[s.ops[o].entry], s.ops[o].key, true), s.ops[o].key, o);
    if s.ops[p].entry == s.ops[o].entry { HolderStays(s, o, p); }
  }

  lemma HolderStays(s: State, o: nat, p: nat)
    requires Inv(s) && o < |s.ops| && s.ops[o].phase == SdkPending
    requires p < |s.ops| && s.ops[p].phase == Live && s.ops[p].entry == s.ops[o].entry
    ensures s.es[s.ops[o].entry].refCount > 1 && s.es[s.ops[o].entry].client
  {
    assert EntryInv(s, s.ops[o].entry) && OpOk(s.es[s.ops[o].entry], s.ops[o], o);
    HolderDone(s.ops, o);
    HolderPositive(WithPhase(s.ops, o, Done), p);
  }

  /**
    Exactly which live subscriptions a rejection leaves served: those that were, unless they are to the
    rejected key of the rejected call's client.
   */
  lemma RejectionServes(s: State, o: nat, p: nat)
    requires Reachable(s) && Enabled(s, SdkFails(o)) && p < |s.ops| && s.ops[p].phase == Live
    ensures InRange(s) && InRange(Turn(s, SdkFails(o))) && p < |Turn(s, SdkFails(o)).ops|
    ensures LiveServed(Turn(s, SdkFails(o)), p) <==> LiveServed(s, p) && !SameKey(s, o, p)
  {
    ReachableKeeps(s);
    RejectionLeaves(s, o, p);
    var d, k := s.ops[p].entry, s.ops[p].key;
    assert EntryInv(s, s.ops[o].entry) && PendingOn(s.ops[o], s.ops[o].entry);
    AskersLeft(s.ops, o, d, k);
  }

  /** Who still asks for `k` on entry `d` once call `o` is done. */
  lemma AskersLeft(ops: seq<Op>, o: nat, d: nat, k: Key)
    requires o < |ops| && ops[o].phase == SdkPending
    requires forall q, r :: 0 <= q < r < |ops| && PendingOn(ops[q], ops[o].entry) && PendingOn(ops[r], ops[o].entry) ==>
               ops[q].key != ops[r].key
    ensures (exists q :: 0 <= q < |ops| && PendingOn(WithPhase(ops, o, Done)[q], d)
                           && WithPhase(ops, o, Done)[q].key == k) <==>
      (exists q :: 0 <= q < |ops| && PendingOn(ops[q], d) && ops[q].key == k) && !(ops[o].entry == d && ops[o].key == k)
  {
    var ops' := WithPhase(ops, o, Done);
    if q :| 0 <= q < |ops| && PendingOn(ops'[q], d) && ops'[q].key == k {
      assert q != o && PendingOn(ops[q], d);
      if ops[o].entry == d { assert PendingOn(ops[o], d); }
    }
    if q :| 0 <= q < |ops| && PendingOn(ops[q], d) && ops[q].key == k && !(ops[o].entry == d && ops[o].key == k) {
      assert PendingOn(ops'[q], d);
    }
  }

  /** So if all live subscriptions are served, they all still are if and only if none is to the rejected key. */
  lemma RejectionHarmlessIff(s: State, o: nat)
    requires Reachable(s) && InRange(s) && Enabled(s, SdkFails(o))
    requires forall p :: 0 <= p < |s.ops| && s.ops[p].phase == Live ==> LiveServed(s, p)
    ensures InRange(Turn(s, SdkFails(o)))
    ensures (forall p :: 0 <= p < |s.ops| && s.ops[p].phase == Live ==> LiveServed(Turn(s, SdkFails(o)), p)) <==>
      (forall p :: 0 <= p < |s.ops| && s.ops[p].phase == Live ==> !SameKey(s, o, p))
  {
    ReachableKeeps(s);
    TurnKeeps(s, SdkFails(o));
    forall p | 0 <= p < |s.ops| && s.ops[p].phase == Live
      ensures LiveServed(Turn(s, SdkFails(o)), p) <==> !SameKey(s, o, p)
    {
      RejectionServes(s, o, p);
    }
  }

  /** A rejection leaves behind whoever had joined the rejected key: live, on a live client, and unserved. */
  lemma RejectionStarves(s: State, o: nat, p: nat)
    requires Reachable(s) && Enabled(s, SdkFails(o))
    requires p < |s.ops| && s.ops[p].phase == Live && SameKey(s, o, p)
    ensures
      && InRange(s)
      && var s' := Turn(s, SdkFails(o));
      && InRange(s') && p < |s'.ops| && s'.ops[p].phase == Live && s'.es[s'.ops[p].entry].client && !LiveServed(s', p)
  {
    ReachableKeeps(s);
    RejectionLeaves(s, o, p);
    RejectionServes(s, o, p);
  }

  // ---------------------------------------------------------------- how that comes about

  /** Two calls for one key: the first asks the SDK, the second joins it and is live at once. */
  function Joining(credential: string, k: Key): seq<Event> {
    [Subscribe(credential, k)] + ([ConnectSucceeds(0)] + ([Finally(0)] + ([Continue(0)] +
      ([Subscribe(credential, k)] + ([Continue(1)] + [])))))
  }

  /** The manager with one entry, connected once and never torn down. */
  function OneEntry(credential: string, handlers: map<Key, set<nat>>, marked: set<Key>, refs: int, ops: seq<Op>): State
  {
    State(map[credential := 0], [Entry(credential, true, false, None, handlers, marked, refs, 1, 0, multiset{})], ops)
  }

  /** Where that leads. */
  function Joined(credential: string, k: Key): State {
    OneEntry(credential, map[k := {0, 1}], {k}, 2, [Op(0, k, SdkPending, false), Op(0, k, Live, false)])
  }

  lemma RunCons(s: State, ev: Event, s': State, rest: seq<Event>)
    requires InRange(s) && Enabled(s, ev) && Turn(s, ev) == s' && LegalRun(s', rest)
    ensures LegalRun(s, [ev] + rest) && Run(s, [ev] + rest) == Run(s', rest)
  {
    assert ([ev] + rest)[1..] == rest;
  }

  lemma FirstConnects(credential: string, k: Key, rest: seq<Event>)
    requires LegalRun(OneEntry(credential, map[], {}, 1, [Op(0, k, Settled(true), false)]), rest)
    ensures
      var s := OneEntry(credential, map[], {}, 1, [Op(0, k, Settled(true), false)]);
      var evs := [Subscribe(credential, k)] + ([ConnectSucceeds(0)] + ([Finally(0)] + rest));
      LegalRun(EMPTY, evs) && Run(EMPTY, evs) == Run(s, rest)
  {
    var s1 := State(map[credential := 0],
      [Fresh(credential).(connecting := true, pendingConnect := Some(0), refCount := 1)],
                    [Op(0, k, Waiting, true)]);
    var s3 := OneEntry(credential, map[], {}, 1, [Op(0, k, Settled(true), false)]);
    var s2 := s3.(es := [s3.es[0].(pendingConnect := Some(0))], ops := [Op(0, k, Settled(true), true)]);
    RunCons(s2, Finally(0), s3, rest);
    RunCons(s1, ConnectSucceeds(0), s2, [Finally(0)] + rest);
    RunCons(EMPTY, Subscribe(credential, k), s1, [ConnectSucceeds(0)] + ([Finally(0)] + rest));
  }

  lemma FirstAttach(entry: Entry, k: Key)
    requires entry.handlers == map[] && entry.sdkSubscribed == {}
    ensures Attach(entry, k, 0) == entry.(handlers := map[k := {0}], sdkSubscribed := {k})
  {
    assert {} + {k} == {k} && {} + {0} == {0};
  }

  lemma LaterAttach(entry: Entry, k: Key)
    requires entry.handlers == map[k := {0}] && entry.sdkSubscribed == {k}
    ensures Attach(entry, k, 1) == entry.(handlers := map[k := {0, 1}], sdkSubscribed := {k})
  {
    assert {k} + {k} == {k} && {0} + {1} == {0, 1} && entry.handlers[k := {0, 1}] == map[k := {0, 1}];
  }

  lemma SecondJoins(credential: string, k: Key)
    ensures
      var s := OneEntry(credential, map[], {}, 1, [Op(0, k, Settled(true), false)]);
      var evs := [Continue(0)] + ([Subscribe(credential, k)] + ([Continue(1)] + []));
      LegalRun(s, evs) && Run(s, evs) == Joined(credential, k)
  {
    var s3 := OneEntry(credential, map[], {}, 1, [Op(0, k, Settled(true), false)]);
    var s4 := OneEntry(credential, map[k := {0}], {k}, 1, [Op(0, k, SdkPending, false)]);
    var s5 := OneEntry(credential, map[k := {0}], {k}, 2,
      [Op(0, k, SdkPending, false), Op(0, k, Settled(true), false)]);
    var s6 := Joined(credential, k);
    LaterAttach(s5.es[0], k);
    RunCons(s5, Continue(1), s6, []);
    RunCons(s4, Subscribe(credential, k), s5, [Continue(1)] + []);
    FirstAttach(s3.es[0], k);
    RunCons(s3, Continue(0), s4, [Subscribe(credential, k)] + ([Continue(1)] + []));
  }

  /** It does come about: in this run the SDK may now reject the first call, and that starves the second. */
  lemma StarvingRun(credential: string, k: Key)
    ensures LegalRun(EMPTY, Joining(credential, k)) && Run(EMPTY, Joining(credential, k)) == Joined(credential, k)
    ensures InRange(Joined(credential, k)) && Enabled(Joined(credential, k), SdkFails(0)) &&
      LiveServed(Joined(credential, k), 1)
    ensures
      var s' := Turn(Joined(credential, k), SdkFails(0));
      InRange(s') && |s'.ops| == 2 && s'.ops[1].phase == Live && !LiveServed(s', 1)
  {
    JoiningReaches(credential, k);
    JoinedServed(credential, k);
    RejectionStarves(Joined(credential, k), 0, 1);
  }

  lemma JoiningReaches(credential: string, k: Key)
    ensures LegalRun(EMPTY, Joining(credential, k)) && Run(EMPTY, Joining(credential, k)) == Joined(credential, k)
    ensures Reachable(Joined(credential, k))
  {
    SecondJoins(credential, k);
    FirstConnects(credential, k, [Continue(0)] + ([Subscribe(credential, k)] + ([Continue(1)] + [])));
  }

  lemma JoinedServed(credential: string, k: Key)
    ensures InRange(Joined(credential, k)) && Enabled(Joined(credential, k), SdkFails(0)) &&
      LiveServed(Joined(credential, k), 1)
  {
    assert PendingOn(Joined(credential, k).ops[0], 0);
  }

  // ---------------------------------------------------------------- and how it ends

  /** Whatever was rejected before, once a later subscribe to the key gets past its connection the key is served. */
  lemma AskingAgainServes(s: State, o: nat)
    requires Reachable(s) && Enabled(s, Continue(o)) && s.ops[o].phase == Settled(true)
    ensures InRange(s) && InRange(Turn(s, Continue(o)))
    ensures
      var s' := Turn(s, Continue(o));
      Served(s'.es[s.ops[o].entry], s'.ops, s.ops[o].entry, s.ops[o].key)
  {
    var evs :| LegalRun(EMPTY, evs) && Run(EMPTY, evs) == s;
    RunKeeps(EMPTY, evs);
    RunMarksServed(EMPTY, evs);
    TurnMarksServed(s, Continue(o));
    assert s.ops[o].key in Turn(s, Continue(o)).es[s.ops[o].entry].sdkSubscribed;
  }
}
