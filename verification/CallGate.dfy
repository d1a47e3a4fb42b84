/**
  The call store of packages/n8n-nodes/src/rateLimiter.ts as UnoQTool.node.ts uses it: per input item, check
  the cap, ask the guard, record the call, make it.
 */
module CallGate {
  import opened Common
  import opened Options
  import opened RateLimiter

  type Counters = map<string, seq<int>>

  function HistoryOf(counters: Counters, key: string): seq<int> {
    if key in counters then counters[key] else []
  }

  class Store {
    var counters: Counters

    constructor ()
      ensures counters == map[]
    {
      counters := map[];
    }

    method ActiveTimestamps(key: string, windowMs: int, now: int) returns (active: seq<int>)
      ensures active == Active(HistoryOf(counters, key), windowMs, now)
    {
      active := Active(HistoryOf(counters, key), windowMs, now);
    }

    method CheckRateLimit(key: string, maxCalls: int, window: Window, now: int) returns (v: Verdict)
      ensures v == Check(HistoryOf(counters, key), maxCalls, WindowMs(window), now)
    {
      var active := ActiveTimestamps(key, WindowMs(window), now);
      if |active| >= maxCalls {
        if active == [] { return Refused(None); }
        return Refused(Some(Max(0, active[0] + WindowMs(window) - now)));
      }
      return Allowed;
    }

    method CountInWindow(key: string, window: Window, now: int) returns (n: nat)
      ensures n == |Active(HistoryOf(counters, key), WindowMs(window), now)|
    {
      var active := ActiveTimestamps(key, WindowMs(window), now);
      n := |active|;
    }

    /** How long the oldest active call goes on counting against the window; null when none does. */
    method ResetsInMs(key: string, window: Window, now: int) returns (ms: Option<int>)
      ensures ms == None <==> Active(HistoryOf(counters, key), WindowMs(window), now) == []
      ensures ms.Some? ==> OldestCountsFor(HistoryOf(counters, key), WindowMs(window), now, ms.value)
    {
      var active := ActiveTimestamps(key, WindowMs(window), now);
      if |active| == 0 { return None; }
      OldestLeaves(HistoryOf(counters, key), WindowMs(window), now);
      return Some(Max(0, active[0] + WindowMs(window) - now));
    }

    method RecordCall(key: string, now: int)
      modifies this
      ensures counters == old(counters)[key := Recorded(HistoryOf(old(counters), key), now)]
    {
      var existing := After(HistoryOf(counters, key), now - WindowMs(Day));
      counters := counters[key := existing + [now]];
    }

    /** buildBudget, its two numbers: what the cap leaves, and when a slot frees up. */
    method BuildBudget(key: string, cap: Option<int>, window: Window, now: int)
      returns (remaining: Option<int>, resets: Option<int>)
      requires cap.Some? ==> cap.value > 0
      ensures cap.None? ==> remaining == None && resets == None
      ensures cap.Some? ==>
        && remaining.Some? && LeavesExactly(HistoryOf(counters, key), cap.value, WindowMs(window), now, remaining.value)
        && (resets == None <==> Active(HistoryOf(counters, key), WindowMs(window), now) == [])
        && (resets.Some? ==> OldestCountsFor(HistoryOf(counters, key), WindowMs(window), now, resets.value))
        && (remaining.value > 0 <==> Check(HistoryOf(counters, key), cap.value, WindowMs(window), now) == Allowed)
        && (remaining.value == 0 ==>
             Check(HistoryOf(counters, key), cap.value, WindowMs(window), now) == Refused(resets))
    {
      if cap.None? { return None, None; }
      var used := CountInWindow(key, window, now);
      resets := ResetsInMs(key, window, now);
      if resets.Some? { WaitIsExact(HistoryOf(counters, key), WindowMs(window), now, resets.value); }
      remaining := Some(Max(0, cap.value - used));
      CapLeaves(HistoryOf(counters, key), cap.value, WindowMs(window), now);
    }

    /** `execute`: every item in turn, until one throws and the node does not continue on failure. */
    method Execute(items: seq<Item>, continueOnFail: bool) returns (outcomes: seq<Outcome>, threw: bool)
      modifies this
      ensures threw <==> !continueOnFail && Failed in Outcomes(old(counters), items)
      ensures if threw then |outcomes| < |items| else |outcomes| == |items|
      ensures !continueOnFail ==> Failed !in outcomes
      ensures counters == Gated(old(counters), if threw then items[..|outcomes| + 1] else items)
      ensures outcomes == Outcomes(old(counters), items[..|outcomes|])
      ensures threw ==> OutcomeOf(Gated(old(counters), items[..|outcomes|]), items[|outcomes|]) == Failed
    {
      outcomes := [];
      var i := 0;
      while i < |items|
        invariant i <= |items| && |outcomes| == i && counters == Gated(old(counters), items[..i])
        invariant outcomes == Outcomes(old(counters), items[..i])
        invariant !continueOnFail ==> Failed !in outcomes
      {
        GatedNext(old(counters), items, i);
        var outcome := ExecuteItem(items[i]);
        if outcome == Failed && !continueOnFail {
          OutcomeStays(old(counters), items, i);
          return outcomes, true;
        }
        outcomes := outcomes + [outcome];
        i := i + 1;
      }
      assert items[..i] == items;
      return outcomes, false;
    }

    method ExecuteItem(item: Item) returns (outcome: Outcome)
      modifies this
      ensures outcome == OutcomeOf(old(counters), item) && counters == Gate(old(counters), item)
      ensures outcome == RateRefused || outcome == GuardRefused ==> counters == old(counters)
    {
      if item.invalid { return Failed; }
      if item.maxCalls > 0 {
        var verdict := CheckRateLimit(item.key, item.maxCalls, item.window, item.checkedAt);
        if verdict != Allowed { return RateRefused; }
      }
      if item.guard == Throws { return Failed; }
      if item.guard == Rejects { return GuardRefused; }
      RecordCall(item.key, item.recordedAt);
      if item.callFails { return Failed; }
      return Called;
    }
  }

  /** Only one wait is how long the oldest call counts for: the one a refusal gives. */
  lemma WaitIsExact(ts: seq<int>, windowMs: int, now: int, wait: int)
    requires Active(ts, windowMs, now) != [] && OldestCountsFor(ts, windowMs, now, wait)
    ensures wait == Max(0, Active(ts, windowMs, now)[0] + windowMs - now)
  {
    var oldest := Active(ts, windowMs, now)[0];
    OldestLeaves(ts, windowMs, now);
    assert !Counts(oldest, windowMs, now + wait) && !Counts(oldest, windowMs, oldest + windowMs);
  }

  // ---------------------------------------------------------------- one pass of the gates

  datatype Guard = Accepts | Rejects | Throws

  /**
    One input item: whether it throws before the gates, its counter key and cap (none if not positive), the
    clock at the check and at the recording, and what the guard and then the call do.
   */
  datatype Item = Item(invalid: bool, key: string, maxCalls: int, window: Window, checkedAt: int,
                       guard: Guard, recordedAt: int, callFails: bool)

  datatype Outcome = RateRefused | GuardRefused | Called | Failed

  /** The item passes both gates. */
  predicate Passes(counters: Counters, item: Item) {
    && !item.invalid && item.guard == Accepts
    && (item.maxCalls > 0 ==>
          Check(HistoryOf(counters, item.key), item.maxCalls, WindowMs(item.window), item.checkedAt) == Allowed)
  }

  function Gate(counters: Counters, item: Item): Counters {
    if Passes(counters, item) then counters[item.key := Recorded(HistoryOf(counters, item.key), item.recordedAt)]
    else counters
  }

  function OutcomeOf(counters: Counters, item: Item): Outcome {
    if Passes(counters, item) then if item.callFails then Failed else Called
    else if item.invalid then Failed
    else if item.maxCalls > 0
         && Check(HistoryOf(counters, item.key), item.maxCalls, WindowMs(item.window), item.checkedAt) != Allowed
    then RateRefused
    else if item.guard == Throws then Failed
    else GuardRefused
  }

  /** The store after `items` have gone through the gates, in any number of executions. */
  function Gated(counters: Counters, items: seq<Item>): Counters {
    if items == [] then counters else Gate(Gated(counters, items[..|items| - 1]), items[|items| - 1])
  }

  /** What becomes of each item. */
  function Outcomes(counters: Counters, items: seq<Item>): (outcomes: seq<Outcome>)
    ensures |outcomes| == |items|
  {
    if items == [] then []
    else
      var n := |items| - 1;
      Outcomes(counters, items[..n]) + [OutcomeOf(Gated(counters, items[..n]), items[n])]
  }

  lemma GatedNext(counters: Counters, items: seq<Item>, i: nat)
    requires i < |items|
    ensures Gated(counters, items[..i + 1]) == Gate(Gated(counters, items[..i]), items[i])
    ensures Outcomes(counters, items[..i + 1]) ==
      Outcomes(counters, items[..i]) + [OutcomeOf(Gated(counters, items[..i]), items[i])]
  {
    assert items[..i + 1][..i] == items[..i];
  }

  lemma {:induction false} OutcomesPrefix(counters: Counters, items: seq<Item>, n: nat)
    requires n <= |items|
    ensures Outcomes(counters, items)[..n] == Outcomes(counters, items[..n])
  {
    var k := |items| - 1;
    if n <= k {
      OutcomesPrefix(counters, items[..k], n);
      assert items[..k][..n] == items[..n];
    } else {
      assert items[..n] == items;
    }
  }

  /** Item `i` has the same outcome whatever items follow it. */
  lemma OutcomeStays(counters: Counters, items: seq<Item>, i: nat)
    requires i < |items|
    ensures OutcomeOf(Gated(counters, items[..i]), items[i]) in Outcomes(counters, items)
  {
    OutcomesPrefix(counters, items, i + 1);
    GatedNext(counters, items, i);
    assert Outcomes(counters, items)[..i + 1][i] == OutcomeOf(Gated(counters, items[..i]), items[i]);
  }

  // ---------------------------------------------------------------- what an outcome means

  /** Fewer calls than the cap are in the window, or there is no cap. */
  predicate UnderCap(counters: Counters, item: Item) {
    item.maxCalls <= 0 || |Active(HistoryOf(counters, item.key), WindowMs(item.window), item.checkedAt)| < item.maxCalls
  }

  /** Each outcome, and when the item's call is recorded: on acceptance, whether or not the call then fails. */
  lemma OutcomeMeans(counters: Counters, item: Item)
    ensures OutcomeOf(counters, item) == RateRefused <==> !item.invalid && !UnderCap(counters, item)
    ensures OutcomeOf(counters, item) == GuardRefused <==>
      !item.invalid && UnderCap(counters, item) && item.guard == Rejects
    ensures OutcomeOf(counters, item) == Called <==>
      !item.invalid && UnderCap(counters, item) && item.guard == Accepts && !item.callFails
    ensures OutcomeOf(counters, item) == Failed <==>
      item.invalid
      || (UnderCap(counters, item) && (item.guard == Throws || (item.guard == Accepts && item.callFails)))
    ensures
      var h, h' := HistoryOf(counters, item.key), HistoryOf(Gate(counters, item), item.key);
      if !item.invalid && UnderCap(counters, item) && item.guard == Accepts then
        h' == After(h, item.recordedAt - 86_400_000) + [item.recordedAt]
      else Gate(counters, item) == counters
    ensures forall key :: key != item.key ==> HistoryOf(Gate(counters, item), key) == HistoryOf(counters, key)
  {
  }

  /** `n` more calls at `now`. */
  function Again(ts: seq<int>, now: int, n: nat): seq<int> { if n == 0 then ts else Again(ts, now, n - 1) + [now] }

  lemma {:induction false} AgainCounts(ts: seq<int>, windowMs: int, now: int, n: nat)
    requires windowMs > 0
    ensures |Active(Again(ts, now, n), windowMs, now)| == |Active(ts, windowMs, now)| + n
  {
    if n > 0 {
      AgainCounts(ts, windowMs, now, n - 1);
      AfterConcat(Again(ts, now, n - 1), now, now - windowMs);
    }
  }

  /** `remaining` is what is left of the cap exactly if that many more calls pass now, and not one more. */
  ghost predicate LeavesExactly(ts: seq<int>, cap: int, windowMs: int, now: int, remaining: int) {
    remaining >= 0 && forall n: nat :: Check(Again(ts, now, n), cap, windowMs, now) == Allowed <==> n < remaining
  }

  lemma CapLeaves(ts: seq<int>, cap: int, windowMs: int, now: int)
    requires windowMs > 0
    ensures LeavesExactly(ts, cap, windowMs, now, Max(0, cap - |Active(ts, windowMs, now)|))
  {
    forall n: nat
      ensures Check(Again(ts, now, n), cap, windowMs, now) == Allowed <==> n < Max(0, cap - |Active(ts, windowMs, now)|)
    {
      AgainCounts(ts, windowMs, now, n);
    }
  }

  // ---------------------------------------------------------------- the cap over the whole history

  /** Every call recorded under `key`, with nothing trimmed. */
  function FullHistory(items: seq<Item>, key: string): seq<int> {
    if items == [] then []
    else
      var front, item := items[..|items| - 1], items[|items| - 1];
      FullHistory(front, key) +
      (if item.key == key && Passes(Gated(map[], front), item) then [item.recordedAt] else [])
  }

  /** The gates are passed one after the other, each checked no later than it records. */
  ghost predicate InOrder(items: seq<Item>) {
    && (forall i :: 0 <= i < |items| ==> items[i].checkedAt <= items[i].recordedAt)
    && (forall i, j :: 0 <= i < j < |items| ==> items[i].recordedAt <= items[j].checkedAt)
  }

  /** All items of `key` have this cap and window. */
  ghost predicate Capped(items: seq<Item>, key: string, cap: int, window: Window) {
    forall i :: 0 <= i < |items| && items[i].key == key ==> items[i].maxCalls == cap && items[i].window == window
  }

  /** Calls `cap` places apart are a whole window apart. */
  ghost predicate Apart(ts: seq<int>, cap: int, windowMs: int) {
    forall i, j :: 0 <= i <= j < |ts| && j - i >= cap ==> ts[j] - ts[i] >= windowMs
  }

  /** Times in order, none after `limit`. */
  ghost predicate SortedUpTo(ts: seq<int>, limit: int) {
    Sorted(ts) && forall i :: 0 <= i < |ts| ==> ts[i] <= limit
  }

  lemma SortedNext(ts: seq<int>, limit: int, t: int)
    requires SortedUpTo(ts, limit) && limit <= t
    ensures SortedUpTo(ts + [t], t) && SortedUpTo(ts, t)
  {
  }

  /** The store is the trimmed full history, which is sorted and ends no later than the last recording. */
  ghost predicate HistoryInv(items: seq<Item>, key: string) {
    && HistoryOf(Gated(map[], items), key) == Stored(FullHistory(items, key))
    && (items != [] ==> SortedUpTo(FullHistory(items, key), items[|items| - 1].recordedAt))
  }

  lemma GateHistory(counters: Counters, item: Item, key: string)
    ensures HistoryOf(Gate(counters, item), key) ==
      if item.key == key && Passes(counters, item) then Recorded(HistoryOf(counters, key), item.recordedAt)
      else HistoryOf(counters, key)
  {
  }

  lemma FullHistoryNext(front: seq<Item>, item: Item, key: string)
    ensures FullHistory(front + [item], key) ==
      if item.key == key && Passes(Gated(map[], front), item) then FullHistory(front, key) + [item.recordedAt]
      else FullHistory(front, key)
  {
    assert (front + [item])[..|front|] == front;
    assert FullHistory(front, key) + [] == FullHistory(front, key);
  }

  lemma {:induction false} HistoryKept(items: seq<Item>, key: string, n: nat)
    requires InOrder(items) && n <= |items|
    ensures HistoryInv(items[..n], key)
  {
    if n > 0 {
      HistoryKept(items, key, n - 1);
      HistoryNext(items, n - 1, key);
    }
  }

  lemma StoreNext(front: seq<Item>, item: Item, key: string)
    requires HistoryOf(Gated(map[], front), key) == Stored(FullHistory(front, key))
    ensures HistoryOf(Gate(Gated(map[], front), item), key) == Stored(FullHistory(front + [item], key))
  {
    GateHistory(Gated(map[], front), item, key);
    FullHistoryNext(front, item, key);
    StoredNext(FullHistory(front, key), item.recordedAt);
  }

  lemma HistoryNext(items: seq<Item>, n: nat, key: string)
    requires n < |items| && InOrder(items) && HistoryInv(items[..n], key)
    ensures HistoryInv(items[..n + 1], key)
  {
    var front, item := items[..n], items[n];
    assert items[..n + 1] == front + [item];
    assert n > 0 ==> front[n - 1] == items[n - 1];
    GatedNext(map[], items, n);
    StoreNext(front, item, key);
    FullHistoryNext(front, item, key);
    SortedNext(FullHistory(front, key), if n == 0 then item.recordedAt else items[n - 1].recordedAt, item.recordedAt);
  }

  lemma StoredNext(ts: seq<int>, t: int)
    ensures Stored(ts + [t]) == Recorded(Stored(ts), t)
  {
    assert (ts + [t])[..|ts|] == ts;
  }

  /** A call may only be recorded when fewer than `cap` lie within the window before it. */
  lemma RecordApart(ts: seq<int>, cap: int, windowMs: int, checkedAt: int, recordedAt: int)
    requires cap >= 1 && Sorted(ts) && Apart(ts, cap, windowMs) && checkedAt <= recordedAt
    requires forall i :: 0 <= i < |ts| ==> ts[i] <= checkedAt
    requires Check(ts, cap, windowMs, checkedAt) == Allowed
    ensures Apart(ts + [recordedAt], cap, windowMs)
  {
    var k := ActiveIsSuffix(ts, checkedAt - windowMs);
    var us := ts + [recordedAt];
    forall i, j | 0 <= i <= j < |us| && j - i >= cap ensures us[j] - us[i] >= windowMs {
      if j == |ts| { assert i < k; }
    }
  }

  /** The same for a check that saw only the trimmed store. */
  lemma PassApart(ts: seq<int>, cap: int, windowMs: int, checkedAt: int, recordedAt: int)
    requires cap >= 1 && windowMs <= WindowMs(Day) && Sorted(ts) && Apart(ts, cap, windowMs) && checkedAt <= recordedAt
    requires forall i :: 0 <= i < |ts| ==> ts[i] <= checkedAt
    requires Check(Stored(ts), cap, windowMs, checkedAt) == Allowed
    ensures Apart(ts + [recordedAt], cap, windowMs)
  {
    VerdictOfFullHistory(ts, cap, windowMs, checkedAt);
    RecordApart(ts, cap, windowMs, checkedAt, recordedAt);
  }

  /** What is recorded before the last item came no later than that item's check. */
  lemma HistoryBefore(items: seq<Item>, key: string) returns (ts: seq<int>)
    requires items != [] && InOrder(items)
    ensures
      var n := |items| - 1;
      && ts == FullHistory(items[..n], key) && Sorted(ts)
      && HistoryOf(Gated(map[], items[..n]), key) == Stored(ts)
      && (forall i :: 0 <= i < |ts| ==> ts[i] <= items[n].checkedAt)
  {
    var n := |items| - 1;
    HistoryKept(items, key, n);
    ts := FullHistory(items[..n], key);
    if n > 0 { SortedNext(ts, items[..n][n - 1].recordedAt, items[n].checkedAt); }
  }

  lemma {:induction false} HistoryApart(items: seq<Item>, key: string, cap: int, window: Window)
    requires cap >= 1 && InOrder(items) && Capped(items, key, cap, window)
    ensures Apart(FullHistory(items, key), cap, WindowMs(window))
  {
    if items != [] {
      var n := |items| - 1;
      HistoryApart(items[..n], key, cap, window);
      var ts := HistoryBefore(items, key);
      if items[n].key == key && Passes(Gated(map[], items[..n]), items[n]) {
        assert Check(Stored(ts), cap, WindowMs(window), items[n].checkedAt) == Allowed;
        PassApart(ts, cap, WindowMs(window), items[n].checkedAt, items[n].recordedAt);
      }
    }
  }

  /**
    The cap holds globally: over any number of executions, in any interleaving, of items that share a key,
    a cap and a window, every span of that length holds at most `cap` of all the calls ever recorded.
   */
  lemma GlobalCap(items: seq<Item>, key: string, cap: int, window: Window, to: int)
    requires cap >= 1 && InOrder(items) && Capped(items, key, cap, window)
    ensures
      var span := match window case Minute => 60_000 case Hour => 3_600_000 case Day => 86_400_000;
      CountIn(FullHistory(items, key), to - span + 1, to) <= cap
  {
    var ts := FullHistory(items, key);
    HistoryApart(items, key, cap, window);
    if CountIn(ts, to - WindowMs(window) + 1, to) >= 1 {
      var i, j := EndsOf(ts, to - WindowMs(window) + 1, to);
    }
  }

  // ---------------------------------------------------------------- a cap that is lowered

  /** An item that the guard accepts, checked and recorded at `t`. */
  function CallAt(key: string, maxCalls: int, window: Window, t: int): Item {
    Item(false, key, maxCalls, window, t, Accepts, t, false)
  }

  /**
    How a retry time comes to be too early: two calls pass a cap of two, the cap is lowered to one, and an
    item refused then is refused again when it comes back at the moment it was told to.
   */
  lemma LoweredCapRefusesTwice(key: string, window: Window, older: int, newer: int, now: int)
    requires older < newer <= now < older + WindowMs(window)
    ensures
      var after := Gated(map[], [CallAt(key, 2, window, older), CallAt(key, 2, window, newer)]);
      var retryAt := older + WindowMs(window);
      && Check(HistoryOf(after, key), 1, WindowMs(window), now) == Refused(Some(retryAt - now))
      && OutcomeOf(after, CallAt(key, 1, window, now)) == RateRefused
      && OutcomeOf(after, CallAt(key, 1, window, retryAt)) == RateRefused
  {
    LoweredCapRetriesEarly(WindowMs(window), older, newer, now);
    SecondCall(key, window, older, newer);
  }

  lemma SecondCall(key: string, window: Window, older: int, newer: int)
    requires older < newer < older + WindowMs(window)
    ensures Gated(map[], [CallAt(key, 2, window, older), CallAt(key, 2, window, newer)]) == map[key := [older, newer]]
  {
    var first, second := CallAt(key, 2, window, older), CallAt(key, 2, window, newer);
    FirstCall(key, window, older);
    AfterFew(older, newer, newer - WindowMs(window));
    AfterFew(older, newer, newer - WindowMs(Day));
    assert [first, second][..1] == [first] && [older] + [newer] == [older, newer];
  }

  lemma FirstCall(key: string, window: Window, t: int)
    ensures Gated(map[], [CallAt(key, 2, window, t)]) == map[key := [t]]
  {
    var item := CallAt(key, 2, window, t);
    assert [item][..0] == [] && [] + [t] == [t];
  }
}
