/**
  The SSH wire format of section 5 of RFC 4251 as packages/n8n-nodes/src/sshCertParser.ts reads it:
  big-endian integers and length-prefixed strings. Text is kept as the bytes on the wire.
 */
module SshWire {
  import opened BigEndian

  type bytes = seq<byte>

  datatype Error = Truncated | UnsupportedAlgorithm | BadPubkeyLength | NotUserCert

  datatype Result<+T> = Ok(value: T) | Err(error: Error) {
    predicate IsFailure() { Err? }
    function PropagateFailure<U>(): Result<U>
      requires Err?
    {
      Err(error)
    }
    function Extract(): T
      requires Ok?
    {
      value
    }
  }

  /** A value read and the bytes after it. */
  datatype Taken<+T> = Taken(value: T, rest: bytes)

  // ---------------------------------------------------------------- reading

  function TakeUint(b: bytes, w: nat): Result<Taken<nat>> {
    if |b| < w then Err(Truncated) else Ok(Taken(FromBE(b[..w]), b[w..]))
  }

  function TakeString(b: bytes): Result<Taken<bytes>> {
    var n :- TakeUint(b, 4);
    if |n.rest| < n.value then Err(Truncated) else Ok(Taken(n.rest[..n.value], n.rest[n.value..]))
  }

  /** The strings filling a buffer to its end. */
  function TakeList(b: bytes): Result<seq<bytes>>
    decreases |b|
  {
    if b == [] then Ok([])
    else
      var s :- TakeString(b);
      var ss :- TakeList(s.rest);
      Ok([s.value] + ss)
  }

  datatype Opt = Opt(name: bytes, value: bytes)

  function TakePair(b: bytes): (r: Result<Taken<Opt>>)
    ensures r.Ok? ==> |r.value.rest| < |b|
  {
    var name :- TakeString(b);
    var value :- TakeString(name.rest);
    Ok(Taken(Opt(name.value, value.value), value.rest))
  }

  /** The name and value pairs filling a buffer to its end. */
  function TakePairs(b: bytes): Result<seq<Opt>>
    decreases |b|
  {
    if b == [] then Ok([])
    else
      var o :- TakePair(b);
      var opts :- TakePairs(o.rest);
      Ok([o.value] + opts)
  }

  // ---------------------------------------------------------------- writing

  predicate Fits(s: bytes) { |s| < Pow256(4) }

  function Str(s: bytes): bytes
    requires Fits(s)
  {
    ToBE(|s|, 4) + s
  }

  predicate AllFit(ss: seq<bytes>) {
    forall i :: 0 <= i < |ss| ==> Fits(ss[i])
  }

  function ListBytes(ss: seq<bytes>): bytes
    requires AllFit(ss)
  {
    if ss == [] then [] else Str(ss[0]) + ListBytes(ss[1..])
  }

  predicate OptsFit(opts: seq<Opt>) {
    forall i :: 0 <= i < |opts| ==> Fits(opts[i].name) && Fits(opts[i].value)
  }

  function PairBytes(opts: seq<Opt>): bytes
    requires OptsFit(opts)
  {
    if opts == [] then [] else Str(opts[0].name) + (Str(opts[0].value) + PairBytes(opts[1..]))
  }

  // ---------------------------------------------------------------- each inverts the other

  lemma TakeUintOf(n: nat, w: nat, rest: bytes)
    requires n < Pow256(w)
    ensures TakeUint(ToBE(n, w) + rest, w) == Ok(Taken(n, rest))
  {
    FromTo(n, w);
    assert (ToBE(n, w) + rest)[..w] == ToBE(n, w) && (ToBE(n, w) + rest)[w..] == rest;
  }

  lemma UintTaken(b: bytes, w: nat)
    requires TakeUint(b, w).Ok?
    ensures
      var t := TakeUint(b, w).value;
      t.value < Pow256(w) && b == ToBE(t.value, w) + t.rest
  {
    Halves(b, w);
    ToFrom(b[..w]);
  }

  lemma Halves(b: bytes, n: nat)
    requires n <= |b|
    ensures |b[..n]| == n && b == b[..n] + b[n..]
  {
  }

  lemma TakeStringOf(s: bytes, rest: bytes)
    requires Fits(s)
    ensures TakeString(Str(s) + rest) == Ok(Taken(s, rest))
  {
    assert Str(s) + rest == ToBE(|s|, 4) + (s + rest);
    TakeUintOf(|s|, 4, s + rest);
    assert (s + rest)[..|s|] == s && (s + rest)[|s|..] == rest;
  }

  lemma StringTaken(b: bytes)
    requires TakeString(b).Ok?
    ensures
      var t := TakeString(b).value;
      Fits(t.value) && b == Str(t.value) + t.rest
  {
    UintTaken(b, 4);
    var n := TakeUint(b, 4).value;
    var s, rest := n.rest[..n.value], n.rest[n.value..];
    Halves(n.rest, n.value);
    assert ToBE(|s|, 4) + (s + rest) == Str(s) + rest;
  }

  lemma {:induction false} TakeListOf(ss: seq<bytes>)
    requires AllFit(ss)
    ensures TakeList(ListBytes(ss)) == Ok(ss)
  {
    if ss != [] {
      TakeStringOf(ss[0], ListBytes(ss[1..]));
      TakeListOf(ss[1..]);
      assert ss == [ss[0]] + ss[1..];
    }
  }

  lemma {:induction false} ListTaken(b: bytes)
    requires TakeList(b).Ok?
    ensures AllFit(TakeList(b).value) && b == ListBytes(TakeList(b).value)
    decreases |b|
  {
    if b != [] {
      StringTaken(b);
      var s := TakeString(b).value;
      ListTaken(s.rest);
      var ss := TakeList(b).value;
      assert ss[1..] == TakeList(s.rest).value;
    }
  }

  lemma TakePairOf(o: Opt, rest: bytes)
    requires Fits(o.name) && Fits(o.value)
    ensures TakePair(Str(o.name) + (Str(o.value) + rest)) == Ok(Taken(o, rest))
  {
    TakeStringOf(o.name, Str(o.value) + rest);
    TakeStringOf(o.value, rest);
  }

  lemma PairTaken(b: bytes)
    requires TakePair(b).Ok?
    ensures
      var t := TakePair(b).value;
      Fits(t.value.name) && Fits(t.value.value) && b == Str(t.value.name) + (Str(t.value.value) + t.rest)
  {
    StringTaken(b);
    StringTaken(TakeString(b).value.rest);
  }

  lemma {:induction false} TakePairsOf(opts: seq<Opt>)
    requires OptsFit(opts)
    ensures TakePairs(PairBytes(opts)) == Ok(opts)
  {
    if opts != [] {
      TakePairOf(opts[0], PairBytes(opts[1..]));
      TakePairsOf(opts[1..]);
      assert opts == [opts[0]] + opts[1..];
    }
  }

  lemma {:induction false} PairsTaken(b: bytes)
    requires TakePairs(b).Ok?
    ensures OptsFit(TakePairs(b).value) && b == PairBytes(TakePairs(b).value)
    decreases |b|
  {
    if b != [] {
      PairTaken(b);
      var o := TakePair(b).value;
      PairsTaken(o.rest);
      var opts := TakePairs(b).value;
      assert opts[1..] == TakePairs(o.rest).value;
    }
  }

  // ---------------------------------------------------------------- option maps

  /** "__proto__", the one property name an assignment of a string does not create. */
  const PROTO: bytes := [95, 95, 112, 114, 111, 116, 111, 95, 95]

  function Assign(m: map<bytes, bytes>, o: Opt): map<bytes, bytes> {
    if o.name == PROTO then m else m[o.name := o.value]
  }

  function OptionMap(opts: seq<Opt>): map<bytes, bytes> {
    if opts == [] then map[] else Assign(OptionMap(opts[..|opts| - 1]), opts[|opts| - 1])
  }

  /** The value of the last option named `name`. */
  function LastNamed(opts: seq<Opt>, name: bytes): bytes
    requires exists i :: 0 <= i < |opts| && opts[i].name == name
  {
    var n := |opts| - 1;
    if opts[n].name == name then opts[n].value
    else
      assert forall i :: 0 <= i < n ==> opts[..n][i] == opts[i];
      LastNamed(opts[..n], name)
  }

  /** Last one wins, and `__proto__` is never a key. */
  lemma {:induction false} OptionMapHolds(opts: seq<Opt>, name: bytes)
    ensures name in OptionMap(opts) <==> name != PROTO && exists i :: 0 <= i < |opts| && opts[i].name == name
    ensures name in OptionMap(opts) ==> OptionMap(opts)[name] == LastNamed(opts, name)
  {
    if opts != [] {
      var n := |opts| - 1;
      OptionMapHolds(opts[..n], name);
      assert forall i :: 0 <= i < n ==> opts[..n][i] == opts[i];
    }
  }

  /** An option map is empty exactly when every option in the buffer is named `__proto__`. */
  lemma OptionMapEmptyIff(opts: seq<Opt>)
    ensures OptionMap(opts) == map[] <==> forall i :: 0 <= i < |opts| ==> opts[i].name == PROTO
  {
    forall name
      ensures name in OptionMap(opts) <==> name != PROTO && exists i :: 0 <= i < |opts| && opts[i].name == name
    {
      OptionMapHolds(opts, name);
    }
    if i :| 0 <= i < |opts| && opts[i].name != PROTO {
      assert opts[i].name in OptionMap(opts);
    }
  }

  // ---------------------------------------------------------------- the offset reader

  /** `class Reader`: a buffer and an offset that every read checks against its end. */
  class Reader {
    const buf: bytes
    var off: nat

    ghost predicate Valid()
      reads this
    {
      off <= |buf|
    }

    function Rest(): bytes
      requires Valid()
      reads this
    {
      buf[off..]
    }

    constructor (buf: bytes)
      ensures Valid() && this.buf == buf && off == 0 && Rest() == buf
    {
      this.buf := buf;
      off := 0;
    }

    method Done() returns (d: bool)
      requires Valid()
      ensures d <==> Rest() == []
    {
      d := off >= |buf|;
    }

    method ReadUint(w: nat) returns (r: Result<nat>)
      requires Valid()
      modifies this
      ensures Valid() && (r.Err? ==> off == old(off))
      ensures match TakeUint(old(Rest()), w)
        case Ok(t) => r == Ok(t.value) && Rest() == t.rest
        case Err(e) => r == Err(e)
    {
      if off + w > |buf| { return Err(Truncated); }
      ghost var before := Rest();
      r := Ok(FromBE(buf[off..off + w]));
      assert before[..w] == buf[off..off + w];
      off := off + w;
      assert before[w..] == buf[off..];
    }

    method ReadString() returns (r: Result<bytes>)
      requires Valid()
      modifies this
      ensures Valid() && old(off) <= off
      ensures match TakeString(old(Rest()))
        case Ok(t) => r == Ok(t.value) && Rest() == t.rest
        case Err(e) => r == Err(e)
    {
      var len :- ReadUint(4);
      if off + len > |buf| { return Err(Truncated); }
      ghost var before := Rest();
      r := Ok(buf[off..off + len]);
      assert before[..len] == buf[off..off + len];
      off := off + len;
      assert before[len..] == buf[off..];
    }
  }

  // ---------------------------------------------------------------- the two loops

  /** What is known of the whole buffer once `done` of its entries have been read. */
  function After<T>(done: seq<T>, rest: Result<seq<T>>): Result<seq<T>> {
    if rest.Err? then rest else Ok(done + rest.value)
  }

  lemma AfterNone<T>(r: Result<seq<T>>)
    ensures After([], r) == r
  {
    if r.Ok? { assert [] + r.value == r.value; }
  }

  lemma ListStep(done: seq<bytes>, b: bytes)
    requires b != []
    ensures
      var s := TakeString(b);
      if s.Err? then After(done, TakeList(b)) == Err(s.error)
      else |s.value.rest| < |b| && After(done, TakeList(b)) == After(done + [s.value.value], TakeList(s.value.rest))
  {
    var s := TakeString(b);
    if s.Ok? {
      StringTaken(b);
      var tail := TakeList(s.value.rest);
      if tail.Ok? { assert done + ([s.value.value] + tail.value) == done + [s.value.value] + tail.value; }
    }
  }

  lemma PairStep(done: seq<Opt>, b: bytes)
    requires b != []
    ensures
      var o := TakePair(b);
      if o.Err? then After(done, TakePairs(b)) == Err(o.error)
      else After(done, TakePairs(b)) == After(done + [o.value.value], TakePairs(o.value.rest))
  {
    var o := TakePair(b);
    if o.Ok? {
      var tail := TakePairs(o.value.rest);
      if tail.Ok? { assert done + ([o.value.value] + tail.value) == done + [o.value.value] + tail.value; }
    }
  }

  method ParseStringList(buf: bytes) returns (r: Result<seq<bytes>>)
    ensures r == TakeList(buf)
  {
    var reader := new Reader(buf);
    var out: seq<bytes> := [];
    AfterNone(TakeList(buf));
    var done := reader.Done();
    while !done
      invariant reader.Valid() && (done <==> reader.Rest() == [])
      invariant TakeList(buf) == After(out, TakeList(reader.Rest()))
      decreases |reader.Rest()|
    {
      ListStep(out, reader.Rest());
      var s :- reader.ReadString();
      out := out + [s];
      done := reader.Done();
    }
    assert out + [] == out;
    return Ok(out);
  }

  method ParseOptions(buf: bytes) returns (r: Result<map<bytes, bytes>>)
    ensures r == MapOf(TakePairs(buf))
  {
    var reader := new Reader(buf);
    var out: map<bytes, bytes> := map[];
    ghost var opts: seq<Opt> := [];
    AfterNone(TakePairs(buf));
    var done := reader.Done();
    while !done
      invariant reader.Valid() && (done <==> reader.Rest() == [])
      invariant TakePairs(buf) == After(opts, TakePairs(reader.Rest())) && out == OptionMap(opts)
      decreases |reader.Rest()|
    {
      PairStep(opts, reader.Rest());
      var name :- reader.ReadString();
      var value :- reader.ReadString();
      out := AssignTo(out, name, value);
      AssignLast(opts, Opt(name, value));
      opts := opts + [Opt(name, value)];
      done := reader.Done();
    }
    assert opts + [] == opts;
    return Ok(out);
  }

  /** `out[name] = value` on an object. */
  method AssignTo(out: map<bytes, bytes>, name: bytes, value: bytes) returns (out': map<bytes, bytes>)
    ensures out' == Assign(out, Opt(name, value))
  {
    if name == PROTO { return out; }
    out' := out[name := value];
  }

  function MapOf(opts: Result<seq<Opt>>): Result<map<bytes, bytes>> {
    var os :- opts;
    Ok(OptionMap(os))
  }

  lemma AssignLast(opts: seq<Opt>, o: Opt)
    ensures OptionMap(opts + [o]) == Assign(OptionMap(opts), o)
  {
    assert (opts + [o])[..|opts|] == opts;
  }
}
