/** packages/n8n-nodes/src/rateLimiter.ts: a call history per key, queried over sliding windows. */
module RateLimiter {
  import opened Common
  import opened Options

  datatype Window = Minute | Hour | Day

  function WindowMs(w: Window): int {
    match w
    case Minute => 60_000
    case Hour => 3_600_000
    case Day => 86_400_000
  }

  /** `retryAfterMs` is None where the source computes NaN: a cap of zero or less and an empty window. */
  datatype Verdict = Allowed | Refused(retryAfterMs: Option<int>)

  // ---------------------------------------------------------------- queries

  /** The timestamps after `cutoff`, in order. */
  function After(ts: seq<int>, cutoff: int): seq<int> {
    if ts == [] then []
    else After(ts[..|ts| - 1], cutoff) + (if ts[|ts| - 1] > cutoff then [ts[|ts| - 1]] else [])
  }

  function Active(ts: seq<int>, windowMs: int, now: int): seq<int> { After(ts, now - windowMs) }

  function Check(ts: seq<int>, maxCalls: int, windowMs: int, now: int): Verdict {
    var active := Active(ts, windowMs, now);
    if |active| >= maxCalls then
      Refused(if active == [] then None else Some(Max(0, active[0] + windowMs - now)))
    else Allowed
  }

  function Recorded(ts: seq<int>, now: int): seq<int> { After(ts, now - WindowMs(Day)) + [now] }

  /** Times in the order they were recorded. */
  predicate Sorted(ts: seq<int>) {
    forall i, j :: 0 <= i <= j < |ts| ==> ts[i] <= ts[j]
  }

  /** In a sorted history the active timestamps are its last ones, and `active[0]` is the oldest of them. */
  lemma {:induction false} ActiveIsSuffix(ts: seq<int>, cutoff: int) returns (k: nat)
    requires Sorted(ts)
    ensures k <= |ts| && After(ts, cutoff) == ts[k..]
    ensures forall i :: 0 <= i < |ts| ==> (ts[i] > cutoff <==> k <= i)
  {
    if ts == [] {
      k := 0;
    } else {
      var n := |ts| - 1;
      k := ActiveIsSuffix(ts[..n], cutoff);
      assert forall i :: 0 <= i < n ==> ts[..n][i] == ts[i];
      if ts[n] > cutoff {
        SuffixGrows(ts, k);
      } else {
        assert forall i :: 0 <= i < n ==> ts[i] <= ts[n];
        assert k == n;
        k := |ts|;
      }
    }
  }

  lemma SuffixGrows(ts: seq<int>, k: nat)
    requires k < |ts|
    ensures ts[..|ts| - 1][k..] + [ts[|ts| - 1]] == ts[k..]
  {
  }

  lemma {:induction false} AfterIsAfter(ts: seq<int>, cutoff: int)
    ensures forall i :: 0 <= i < |After(ts, cutoff)| ==> After(ts, cutoff)[i] > cutoff
  {
    if ts != [] { AfterIsAfter(ts[..|ts| - 1], cutoff); }
  }

  /** A call made at `t` still counts against a window of `windowMs` at time `at`. */
  predicate Counts(t: int, windowMs: int, at: int) { t > at - windowMs }

  /** From `now` on, `wait` is how long the oldest active call goes on counting: always a while, then no more. */
  ghost predicate OldestCountsFor(ts: seq<int>, windowMs: int, now: int, wait: int)
    requires Active(ts, windowMs, now) != []
  {
    wait > 0 && forall at :: now <= at ==> (Counts(Active(ts, windowMs, now)[0], windowMs, at) <==> at < now + wait)
  }

  lemma OldestLeaves(ts: seq<int>, windowMs: int, now: int)
    requires Active(ts, windowMs, now) != []
    ensures OldestCountsFor(ts, windowMs, now, Active(ts, windowMs, now)[0] + windowMs - now)
  {
    AfterIsAfter(ts, now - windowMs);
  }

  /**
    While the oldest active call of a sorted history counts, every active call does; when it stops
    counting, a slot has become free.
   */
  lemma SlotFrees(ts: seq<int>, windowMs: int, now: int, wait: int, at: int)
    requires Sorted(ts) && Active(ts, windowMs, now) != [] && OldestCountsFor(ts, windowMs, now, wait) && now <= at
    ensures at < now + wait ==> Active(ts, windowMs, at) == Active(ts, windowMs, now)
    ensures at >= now + wait ==> |Active(ts, windowMs, at)| < |Active(ts, windowMs, now)|
  {
    var k := ActiveIsSuffix(ts, now - windowMs);
    var l := ActiveIsSuffix(ts, at - windowMs);
    assert Active(ts, windowMs, now)[0] == ts[k];
    assert ts[k] > at - windowMs <==> l <= k;
    assert Counts(ts[k], windowMs, at) <==> at < now + wait;
    if k > 0 { assert ts[k - 1] <= now - windowMs; }
  }

  // ---------------------------------------------------------------- the trimmed store refines the history

  lemma {:induction false} AfterConcat(xs: seq<int>, y: int, cutoff: int)
    ensures After(xs + [y], cutoff) == After(xs, cutoff) + (if y > cutoff then [y] else [])
  {
    assert (xs + [y])[..|xs|] == xs;
  }

  /** Cutting twice is cutting at the later cutoff. */
  lemma {:induction false} AfterAfter(ts: seq<int>, early: int, late: int)
    requires early <= late
    ensures After(After(ts, early), late) == After(ts, late)
  {
    if ts != [] {
      var n := |ts| - 1;
      var front := After(ts[..n], early);
      AfterAfter(ts[..n], early, late);
      AfterConcat(front, ts[n], late);
      assert front + [] == front && After(front, late) + [] == After(front, late);
    }
  }

  /** The stored timestamps after `calls` have been recorded in turn. */
  function Stored(calls: seq<int>): seq<int> {
    if calls == [] then [] else Recorded(Stored(calls[..|calls| - 1]), calls[|calls| - 1])
  }

  /**
    However many calls were recorded, trimming loses nothing a query can see: at any time from the last
    call on, every window of a day or less holds on the store exactly what it holds on the full history.
   */
  lemma {:induction false} TrimmedRefinesFull(calls: seq<int>, windowMs: int, now: int)
    requires windowMs <= WindowMs(Day)
    requires forall i :: 0 <= i < |calls| ==> calls[i] <= now
    ensures Active(Stored(calls), windowMs, now) == Active(calls, windowMs, now)
  {
    if calls != [] {
      var n := |calls| - 1;
      var front, last := calls[..n], calls[n];
      TrimmedRefinesFull(front, windowMs, now);
      AfterConcat(After(Stored(front), last - WindowMs(Day)), last, now - windowMs);
      AfterAfter(Stored(front), last - WindowMs(Day), now - windowMs);
    }
  }

  /** Hence every verdict is the full history's. */
  lemma VerdictOfFullHistory(calls: seq<int>, maxCalls: int, windowMs: int, now: int)
    requires windowMs <= WindowMs(Day)
    requires forall i :: 0 <= i < |calls| ==> calls[i] <= now
    ensures Check(Stored(calls), maxCalls, windowMs, now) == Check(calls, maxCalls, windowMs, now)
  {
    TrimmedRefinesFull(calls, windowMs, now);
    SameVerdict(Stored(calls), calls, maxCalls, windowMs, now);
  }

  lemma SameVerdict(xs: seq<int>, ys: seq<int>, maxCalls: int, windowMs: int, now: int)
    requires Active(xs, windowMs, now) == Active(ys, windowMs, now)
    ensures Check(xs, maxCalls, windowMs, now) == Check(ys, maxCalls, windowMs, now)
  {
  }

  // ---------------------------------------------------------------- when a refused call may retry

  /**
    A refusal of a positive cap is lifted, if nothing more is recorded, exactly when the call `maxCalls`
    from the newest leaves the window.
   */
  lemma RefusedUntil(ts: seq<int>, maxCalls: int, windowMs: int, now: int, at: int)
    requires Sorted(ts) && maxCalls >= 1 && now <= at && |Active(ts, windowMs, now)| >= maxCalls
    ensures
      var active := Active(ts, windowMs, now);
      Check(ts, maxCalls, windowMs, at) == Allowed <==> active[|active| - maxCalls] + windowMs <= at
  {
    var k := ActiveIsSuffix(ts, now - windowMs);
    var l := ActiveIsSuffix(ts, at - windowMs);
    var pivot := |ts| - maxCalls;
    assert ts[k..][|ts[k..]| - maxCalls] == ts[pivot];
    assert ts[pivot] > at - windowMs <==> l <= pivot;
  }

  /** When `retryAfterMs` says to retry. */
  function RetryAt(ts: seq<int>, windowMs: int, now: int): int
    requires Active(ts, windowMs, now) != []
  {
    Active(ts, windowMs, now)[0] + windowMs
  }

  /**
    `retryAfterMs` is never too long: until it has passed the call is still refused. It is the least delay
    that helps if and only if the oldest active call and the one `maxCalls` from the newest are equally
    old, as they are when exactly `maxCalls` are active.
   */
  lemma RetryTime(ts: seq<int>, maxCalls: int, windowMs: int, now: int)
    requires Sorted(ts) && maxCalls >= 1 && Check(ts, maxCalls, windowMs, now).Refused?
    ensures |Active(ts, windowMs, now)| >= maxCalls
    ensures Check(ts, maxCalls, windowMs, now) == Refused(Some(RetryAt(ts, windowMs, now) - now))
    ensures RetryAt(ts, windowMs, now) > now
    ensures forall at :: now <= at < RetryAt(ts, windowMs, now) ==> Check(ts, maxCalls, windowMs, at).Refused?
    ensures
      var active := Active(ts, windowMs, now);
      Check(ts, maxCalls, windowMs, RetryAt(ts, windowMs, now)) == Allowed <==> active[|active| - maxCalls] == active[0]
  {
    var active := Active(ts, windowMs, now);
    var k := ActiveIsSuffix(ts, now - windowMs);
    assert active[0] == ts[k] && active[|active| - maxCalls] == ts[|ts| - maxCalls];
    forall at | now <= at < RetryAt(ts, windowMs, now) ensures Check(ts, maxCalls, windowMs, at).Refused? {
      RefusedUntil(ts, maxCalls, windowMs, now, at);
    }
    RefusedUntil(ts, maxCalls, windowMs, now, RetryAt(ts, windowMs, now));
  }

  /**
    Where that leaves a cap that was lowered: with two calls made under a larger cap still active, a cap of
    one answers with the moment the older leaves the window, and at that moment refuses again.
   */
  lemma LoweredCapRetriesEarly(windowMs: int, older: int, newer: int, now: int)
    requires older < newer <= now < older + windowMs
    ensures Check([older], 2, windowMs, newer) == Allowed
    ensures Check([older, newer], 1, windowMs, now) == Refused(Some(older + windowMs - now))
    ensures Check([older, newer], 1, windowMs, older + windowMs).Refused?
  {
    AfterFew(older, newer, newer - windowMs);
    AfterFew(older, newer, now - windowMs);
    AfterFew(older, newer, older);
  }

  lemma AfterFew(x: int, y: int, cutoff: int)
    ensures After([x], cutoff) == if x > cutoff then [x] else []
    ensures After([x, y], cutoff) == After([x], cutoff) + (if y > cutoff then [y] else [])
  {
    assert [] + [x] == [x] && [x] + [y] == [x, y];
    AfterConcat([], x, cutoff);
    AfterConcat([x], y, cutoff);
  }
}
