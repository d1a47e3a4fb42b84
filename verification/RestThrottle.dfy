/**
  packages/n8n-nodes-arduino-cloud/src/restThrottle.ts: one FIFO token bucket per credential. A token is
  100 units and refills at one unit a millisecond, so all arithmetic is on whole numbers.
 */
module RestThrottle {
  import opened Common

  const CAPACITY: int := 1000
  const TOKEN: int := 100

  datatype Bucket = Bucket(tokens: int, lastRefill: int)

  /** What a credential starts with. */
  function NewBucket(now: int): Bucket { Bucket(CAPACITY, now) }

  function Refill(b: Bucket, now: int): Bucket {
    if now - b.lastRefill <= 0 then b
    else Bucket(Min(CAPACITY, b.tokens + (now - b.lastRefill)), now)
  }

  datatype Grant = Grant(bucket: Bucket, at: int)

  /** One link of the chain: it starts at `start` and, if it must sleep, oversleeps by `late`. */
  function Serve(b: Bucket, start: int, late: nat): Grant {
    var b1 := Refill(b, start);
    if b1.tokens < TOKEN then
      var wake := start + Max(1, TOKEN - b1.tokens) + late;
      var b2 := Refill(b1, wake);
      Grant(b2.(tokens := b2.tokens - TOKEN), wake)
    else Grant(b1.(tokens := b1.tokens - TOKEN), start)
  }

  /** A caller arriving at `arrival`, whose link runs `lag` after it could and sleeps `late` too long. */
  datatype Caller = Caller(arrival: int, lag: nat, late: nat)

  /** When each caller is granted its token: every link waits for the one before it. */
  function Grants(b: Bucket, free: int, cs: seq<Caller>): (gs: seq<int>)
    ensures |gs| == |cs|
    decreases |cs|
  {
    if cs == [] then []
    else
      var g := Serve(b, Max(cs[0].arrival, free) + cs[0].lag, cs[0].late);
      [g.at] + Grants(g.bucket, g.at, cs[1..])
  }

  // ---------------------------------------------------------------- the bucket as a virtual clock

  predicate Sane(b: Bucket) { 0 <= b.tokens <= 1000 }

  /** When the bucket would be full if nobody took a token. */
  function FullAt(b: Bucket): int { b.lastRefill + 1000 - b.tokens }

  /**
    A grant moves the bucket's full time 100 ms on from the later of itself and now, leaves at most nine
    whole tokens, and comes at once, or when the bucket is nine tokens' worth from full and the sleep is over.
   */
  lemma ServeMovesClock(b: Bucket, start: int, late: nat)
    requires Sane(b) && b.lastRefill <= start
    ensures
      var g := Serve(b, start, late);
      && Sane(g.bucket) && g.bucket.tokens <= 900 && g.bucket.lastRefill == g.at
      && FullAt(g.bucket) == Max(FullAt(b), g.at) + 100
      && g.at == (if start >= FullAt(b) - 900 then start else FullAt(b) - 900 + late)
  {
  }

  /** The virtual clock after the first `i` callers. */
  function Clock(full: int, gs: seq<int>, i: nat): int
    requires i <= |gs|
  {
    if i == 0 then full else Max(Clock(full, gs, i - 1), gs[i - 1]) + 100
  }

  lemma {:induction false} ClockTail(full: int, gs: seq<int>, i: nat)
    requires 0 < i <= |gs|
    ensures Clock(full, gs, i) == Clock(Max(full, gs[0]) + 100, gs[1..], i - 1)
  {
    if i > 1 { ClockTail(full, gs, i - 1); }
  }

  /** When the link of caller `i` may start: on arrival, once the caller before has its token. */
  function Ready(free: int, cs: seq<Caller>, gs: seq<int>, i: nat): int
    requires i < |cs| && i <= |gs|
  {
    Max(cs[i].arrival, if i == 0 then free else gs[i - 1])
  }

  /** What `Grants` amounts to, caller by caller. */
  ghost predicate OnSchedule(full: int, free: int, cs: seq<Caller>, gs: seq<int>, i: nat)
    requires i < |cs| == |gs|
  {
    && gs[i] >= Ready(free, cs, gs, i) && gs[i] >= Clock(full, gs, i) - 900
    && (cs[i].lag == 0 && cs[i].late == 0 ==>
          gs[i] == Max(Ready(free, cs, gs, i), Clock(full, gs, i) - 900))
  }

  lemma {:induction false} GrantsOnSchedule(b: Bucket, free: int, cs: seq<Caller>, i: nat)
    requires Sane(b) && b.lastRefill <= free && i < |cs|
    ensures OnSchedule(FullAt(b), free, cs, Grants(b, free, cs), i)
    decreases i
  {
    var start := Max(cs[0].arrival, free) + cs[0].lag;
    ServeMovesClock(b, start, cs[0].late);
    var g := Serve(b, start, cs[0].late);
    var gs := Grants(b, free, cs);
    if i > 0 {
      GrantsOnSchedule(g.bucket, g.at, cs[1..], i - 1);
      assert gs[1..] == Grants(g.bucket, g.at, cs[1..]);
      ClockTail(FullAt(b), gs, i);
    }
  }

  // ---------------------------------------------------------------- the bound

  lemma {:induction false} ClockGrows(full: int, gs: seq<int>, i: nat, j: nat)
    requires i <= j <= |gs|
    ensures Clock(full, gs, i) + 100 * (j - i) <= Clock(full, gs, j)
    decreases j
  {
    if i < j { ClockGrows(full, gs, i, j - 1); }
  }

  /** Grants number `i` to `j` take at least as long as all but ten of them need to refill. */
  lemma GrantsApart(b: Bucket, free: int, cs: seq<Caller>, i: nat, j: nat)
    requires Sane(b) && b.lastRefill <= free && i <= j < |cs|
    ensures
      var gs := Grants(b, free, cs);
      gs[i] + 100 * (j - i) <= gs[j] + 900 && gs[i] <= gs[j]
  {
    var gs := Grants(b, free, cs);
    GrantsOnSchedule(b, free, cs, j);
    if i < j {
      ClockGrows(FullAt(b), gs, i + 1, j);
      GrantsInOrder(b, free, cs, i, j);
    }
  }

  /** First in, first out. */
  lemma {:induction false} GrantsInOrder(b: Bucket, free: int, cs: seq<Caller>, i: nat, j: nat)
    requires Sane(b) && b.lastRefill <= free && i <= j < |cs|
    ensures Grants(b, free, cs)[i] <= Grants(b, free, cs)[j]
    decreases j
  {
    if i < j {
      GrantsInOrder(b, free, cs, i, j - 1);
      GrantsOnSchedule(b, free, cs, j);
    }
  }

  /**
    However many callers arrive, and however late their links run, one credential is granted at most ten
    tokens plus one per 100 ms in any interval.
   */
  lemma AtMostTenPlusRate(b: Bucket, free: int, cs: seq<Caller>, s: int, e: int)
    requires Sane(b) && b.lastRefill <= free && s <= e
    ensures CountIn(Grants(b, free, cs), s, e) <= 10 + (e - s) / 100
  {
    var gs := Grants(b, free, cs);
    if CountIn(gs, s, e) >= 1 {
      var i, j := EndsOf(gs, s, e);
      GrantsApart(b, free, cs, i, j);
    }
  }

  // ---------------------------------------------------------------- the schedule is the best there is

  /** A FIFO schedule that never serves a caller before arrival nor breaks the bound. */
  ghost predicate Admissible(cs: seq<Caller>, hs: seq<int>) {
    && |hs| == |cs|
    && (forall i :: 0 <= i < |cs| ==> cs[i].arrival <= hs[i])
    && (forall i, j :: 0 <= i <= j < |hs| ==> hs[i] <= hs[j] && WithinBucket(hs[i], hs[j], j - i + 1))
  }

  /** `n` grants between `s` and `e` fit a bucket of ten. */
  predicate WithinBucket(s: int, e: int, n: int) { n <= 10 + (e - s) / 100 }

  predicate Prompt(cs: seq<Caller>) {
    forall i :: 0 <= i < |cs| ==> cs[i].lag == 0 && cs[i].late == 0
  }

  /** An admissible schedule is never behind the virtual clock of one that is nowhere later. */
  lemma {:induction false} ClockBehind(full: int, gs: seq<int>, hs: seq<int>, i: nat)
    requires 0 < i <= |gs| == |hs| && full <= hs[0]
    requires forall k :: 0 <= k < i ==> gs[k] <= hs[k]
    ensures exists k :: 0 <= k < i && Clock(full, gs, i) <= hs[k] + 100 * (i - k)
  {
    if i == 1 {
      assert Clock(full, gs, 0) == full;
      assert Clock(full, gs, i) <= hs[0] + 100 * (i - 0);
    } else {
      ClockBehind(full, gs, hs, i - 1);
      var k :| 0 <= k < i - 1 && Clock(full, gs, i - 1) <= hs[k] + 100 * (i - 1 - k);
      if Clock(full, gs, i - 1) >= gs[i - 1] {
        assert Clock(full, gs, i) <= hs[k] + 100 * (i - k);
      } else {
        assert Clock(full, gs, i) <= hs[i - 1] + 100 * (i - (i - 1));
      }
    }
  }

  /**
    With links that run at once and sleep exactly as long as they ask to, every caller of a bucket that
    starts full is granted its token no later than under any other admissible schedule.
   */
  lemma {:induction false} EarliestSchedule(t: int, cs: seq<Caller>, hs: seq<int>, i: nat)
    requires Prompt(cs) && i < |cs| && cs[0].arrival >= t && Admissible(cs, hs)
    ensures forall k :: 0 <= k <= i ==> Grants(NewBucket(t), t, cs)[k] <= hs[k]
    decreases i
  {
    var b := NewBucket(t);
    var gs := Grants(b, t, cs);
    GrantsOnSchedule(b, t, cs, i);
    if i == 0 {
      assert Clock(t, gs, 0) == t;
    } else {
      EarliestSchedule(t, cs, hs, i - 1);
      ClockBehind(t, gs, hs, i);
      var k :| 0 <= k < i && Clock(t, gs, i) <= hs[k] + 100 * (i - k);
      assert WithinBucket(hs[k], hs[i], i - k + 1);
    }
  }

  /** And its own schedule is admissible. */
  lemma GrantsAdmissible(b: Bucket, free: int, cs: seq<Caller>)
    requires Sane(b) && b.lastRefill <= free
    ensures Admissible(cs, Grants(b, free, cs))
  {
    var gs := Grants(b, free, cs);
    forall i | 0 <= i < |cs| ensures cs[i].arrival <= gs[i] {
      GrantsOnSchedule(b, free, cs, i);
    }
    forall i, j | 0 <= i <= j < |gs| ensures gs[i] <= gs[j] && WithinBucket(gs[i], gs[j], j - i + 1) {
      GrantsApart(b, free, cs, i, j);
    }
  }

  /** A burst at `t`: the first ten at once, then one every 100 ms. */
  lemma {:induction false} Burst(t: int, cs: seq<Caller>, k: nat)
    requires Prompt(cs) && k < |cs| && forall i :: 0 <= i < |cs| ==> cs[i].arrival == t
    ensures Grants(NewBucket(t), t, cs)[k] == t + 100 * Max(0, k - 9)
    ensures Clock(t, Grants(NewBucket(t), t, cs), k) == t + 100 * k
  {
    var gs := Grants(NewBucket(t), t, cs);
    GrantsOnSchedule(NewBucket(t), t, cs, k);
    if k > 0 {
      Burst(t, cs, k - 1);
      assert Clock(t, gs, k) == Max(Clock(t, gs, k - 1), gs[k - 1]) + 100;
    }
  }

  // ---------------------------------------------------------------- the code

  /** BucketState; the chain's tail is settled from time `free` on. */
  class BucketState {
    var tokens: int
    var lastRefill: int
    var free: int

    ghost function View(): Bucket
      reads this
    {
      Bucket(tokens, lastRefill)
    }

    ghost predicate Valid()
      reads this
    {
      Sane(View()) && lastRefill <= free
    }

    constructor (now: int)
      ensures Valid() && View() == NewBucket(now) && free == now
    {
      tokens, lastRefill, free := CAPACITY, now, now;
    }

    method RefillAt(now: int)
      modifies `tokens, `lastRefill
      ensures View() == Refill(old(View()), now)
    {
      var elapsedMs := now - lastRefill;
      if elapsedMs <= 0 { return; }
      tokens := Min(CAPACITY, tokens + elapsedMs);
      lastRefill := now;
    }

    /** One caller's link of the chain, from its start to the token it takes. */
    method Link(c: Caller) returns (at: int)
      requires Valid()
      modifies this
      ensures Valid() && free == at
      ensures Grant(View(), at) == Serve(old(View()), Max(c.arrival, old(free)) + c.lag, c.late)
    {
      ghost var start := Max(c.arrival, free) + c.lag;
      ServeMovesClock(View(), start, c.late);
      at := Max(c.arrival, free) + c.lag;
      RefillAt(at);
      if tokens < TOKEN {
        var waitMs := Max(1, TOKEN - tokens);
        at := at + waitMs + c.late;
        RefillAt(at);
      }
      tokens := tokens - TOKEN;
      free := at;
    }
  }

  class Throttle {
    var buckets: map<string, BucketState>

    /** Every bucket sound, and no two credentials sharing one. */
    ghost predicate Valid()
      reads this, buckets.Values
    {
      && (forall k :: k in buckets ==> buckets[k].Valid())
      && (forall k, l :: k in buckets && l in buckets && k != l ==> buckets[k] != buckets[l])
    }

    constructor ()
      ensures Valid() && buckets == map[]
    {
      buckets := map[];
    }

    method BucketFor(key: string, now: int) returns (b: BucketState)
      requires Valid()
      modifies `buckets
      ensures Valid() && key in buckets && buckets[key] == b && buckets == old(buckets)[key := b]
      ensures key in old(buckets) ==> b == old(buckets[key])
      ensures key !in old(buckets) ==> fresh(b) && b.View() == NewBucket(now) && b.free == now
    {
      if key in buckets {
        b := buckets[key];
      } else {
        b := new BucketState(now);
        buckets := buckets[key := b];
      }
    }

    /** acquireRestToken: only this credential's bucket is touched. */
    method AcquireRestToken(key: string, c: Caller) returns (at: int)
      requires Valid()
      modifies `buckets, buckets.Values
      ensures Valid() && buckets.Keys == old(buckets.Keys) + {key}
      ensures forall k :: k in old(buckets) ==> buckets[k] == old(buckets[k])
      ensures forall k :: k in old(buckets) && k != key ==> unchanged(old(buckets[k]))
      ensures
        var b := if key in old(buckets) then old(buckets[key].View()) else NewBucket(c.arrival);
        var free := if key in old(buckets) then old(buckets[key].free) else c.arrival;
        [at] == Grants(b, free, [c]) && buckets[key].free == at
        && buckets[key].View() == Serve(b, Max(c.arrival, free) + c.lag, c.late).bucket
    {
      var b := BucketFor(key, c.arrival);
      at := b.Link(c);
      assert forall k :: k in buckets && k != key ==> buckets[k] != b;
    }
  }
}
