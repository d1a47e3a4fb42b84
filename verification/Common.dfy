/** Small facts about numbers and sequences that several models share. */
module Common {

  function Max(x: int, y: int): int { if x < y then y else x }

  function Min(x: int, y: int): int { if x < y then x else y }

  function Pow2(n: nat): (p: nat)
    ensures p >= 1
  {
    if n == 0 then 1 else 2 * Pow2(n - 1)
  }

  lemma Regroup<T>(a: seq<T>, b: seq<T>, c: seq<T>)
    ensures a + b + c == a + (b + c)
  {
  }

  // ---------------------------------------------------------------- lists without repeats

  predicate NoRepeats<T(==)>(s: seq<T>) {
    forall i, j :: 0 <= i < j < |s| ==> s[i] != s[j]
  }

  /** `s` without the first `x`. */
  function Without<T(==)>(s: seq<T>, x: T): seq<T> {
    if s == [] then [] else if s[0] == x then s[1..] else [s[0]] + Without(s[1..], x)
  }

  lemma ConsNoRepeats<T>(x: T, s: seq<T>)
    ensures NoRepeats([x] + s) <==> x !in s && NoRepeats(s)
  {
    var t := [x] + s;
    if NoRepeats(t) {
      forall i, j | 0 <= i < j < |s| ensures s[i] != s[j] { assert t[i + 1] != t[j + 1]; }
      forall i | 0 <= i < |s| ensures s[i] != x { assert t[0] != t[i + 1]; }
    }
  }

  lemma {:induction false} WithoutFacts<T>(s: seq<T>, x: T)
    requires NoRepeats(s)
    ensures NoRepeats(Without(s, x)) && forall y :: y in Without(s, x) <==> y in s && y != x
  {
    if s != [] {
      assert s == [s[0]] + s[1..];
      ConsNoRepeats(s[0], s[1..]);
      WithoutFacts(s[1..], x);
      ConsNoRepeats(s[0], Without(s[1..], x));
    }
  }

  // ---------------------------------------------------------------- counting moments

  /** How many of `ts` lie from `first` to `last`. */
  function CountIn(ts: seq<int>, first: int, last: int): nat {
    if ts == [] then 0 else CountIn(ts[..|ts| - 1], first, last) + (if first <= ts[|ts| - 1] <= last then 1 else 0)
  }

  /** The first and last of `n` moments counted are at least `n - 1` places apart. */
  lemma {:induction false} EndsOf(ts: seq<int>, first: int, last: int) returns (i: nat, j: nat)
    requires CountIn(ts, first, last) >= 1
    ensures i <= j < |ts| && first <= ts[i] && ts[j] <= last && CountIn(ts, first, last) - 1 <= j - i
  {
    var n, front := |ts| - 1, ts[..|ts| - 1];
    if CountIn(front, first, last) >= 1 {
      i, j := EndsOf(front, first, last);
      if first <= ts[n] <= last { j := n; }
    } else {
      i, j := n, n;
    }
  }
}
