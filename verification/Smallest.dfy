/**
  How many bytes the encoder spends on a value, when a peer's input spends no more than that, and the
  encoder itself. The decoder of the next module measures what it consumed by re-encoding, so the two
  sizes have to be compared for every input a peer may legitimately send.
 */
module Smallest {
  import opened BigEndian
  import opened Common
  import opened Options
  import opened MsgPack

  // ---------------------------------------------------------------- sizes

  function IntLength(i: int): nat {
    if -0x20 <= i < 0x80 then 1
    else if -0x80 <= i < 0x100 then 2
    else if -0x8000 <= i < 0x1_0000 then 3
    else if -0x8000_0000 <= i < 0x1_0000_0000 then 5
    else 9
  }

  /** Bytes the encoder writes for a head. */
  function HeadLength(h: Head): (n: nat)
    ensures n >= 1
  {
    match h
    case Scalar(Int(i)) => IntLength(i)
    case Scalar(Huge(_, _)) => 9
    case Scalar(Double(_)) => 9
    case Scalar(Single(_)) => 9
    case Scalar(_) => 1
    case Text(n) => if n < 0x20 then 1 else if n < 0x100 then 2 else if n < 0x1_0000 then 3 else 5
    case Blob(n) => if n < 0x100 then 2 else if n < 0x1_0000 then 3 else 5
    case List(n) => if n < 0x10 then 1 else if n < 0x1_0000 then 3 else 5
    case Dict(n) => if n < 0x10 then 1 else if n < 0x1_0000 then 3 else 5
  }

  /** `encode(v).length`. */
  function Measure(v: Value): (n: nat)
    ensures n >= 1
    decreases v, 0
  {
    match v
    case Str(s) => HeadLength(Text(|s|)) + |s|
    case Bin(s) => HeadLength(Blob(|s|)) + |s|
    case Arr(items) => HeadLength(List(|items|)) + MeasureAll(items)
    case Obj(es) => HeadLength(Dict(|es|)) + MeasureEntries(es)
    case _ => HeadLength(Scalar(v))
  }

  function MeasureAll(vs: seq<Value>): nat
    decreases vs, 1
  {
    if vs == [] then 0 else Measure(vs[0]) + MeasureAll(vs[1..])
  }

  function MeasureEntries(es: seq<Entry>): nat
    decreases es, 1
  {
    if es == [] then 0
    else HeadLength(Text(|es[0].key|)) + |es[0].key| + Measure(es[0].val) + MeasureEntries(es[1..])
  }

  // ---------------------------------------------------------------- depth

  /** The encoder's default limit: it throws on a value nested deeper. */
  const MAX_DEPTH := 100

  /** How deep a value is nested, itself included. */
  function Depth(v: Value): (d: nat)
    ensures d >= 1
    decreases v, 0
  {
    match v
    case Arr(items) => 1 + DepthAll(items)
    case Obj(es) => 1 + DepthEntries(es)
    case _ => 1
  }

  function DepthAll(vs: seq<Value>): nat
    decreases vs, 1
  {
    if vs == [] then 0 else Max(Depth(vs[0]), DepthAll(vs[1..]))
  }

  function DepthEntries(es: seq<Entry>): nat
    decreases es, 1
  {
    if es == [] then 0 else Max(Depth(es[0].val), DepthEntries(es[1..]))
  }

  predicate TooDeep(v: Value) { Depth(v) > MAX_DEPTH }

  // ---------------------------------------------------------------- smallest-format input

  /** A head the encoder would not write in fewer bytes. */
  predicate SmallestHead(tag: byte, raw: nat) {
    match FormOf(tag)
    case Sized(UInt, w) =>
      raw >= (if w == 1 then 0x80 else if w == 2 then 0x100 else if w == 4 then 0x1_0000 else 0x1_0000_0000)
    case Sized(SInt, w) =>
      var i := Signed(w, raw);
      if w == 1 then i < -0x20
      else if w == 2 then i < -0x80 || i >= 0x100
      else if w == 4 then i < -0x8000 || i >= 0x1_0000
      else i < -0x8000_0000 || i >= 0x1_0000_0000
    case Sized(Float, 4) =>
      var i := SingleAsInt(raw); i.None? || i.value < -0x8000 || i.value >= 0x1_0000
    case Sized(Float, _) =>
      var i := DoubleAsInt(raw); i.None? || i.value < -0x8000_0000 || i.value >= 0x1_0000_0000
    case Sized(TextLen, w) => raw >= (if w == 1 then 0x20 else if w == 2 then 0x100 else 0x1_0000)
    case Sized(BlobLen, w) => raw >= (if w == 1 then 0 else if w == 2 then 0x100 else 0x1_0000)
    case Sized(_, w) => raw >= (if w == 2 then 0x10 else 0x1_0000)
    case _ => true
  }

  /** The smallest-format rule of the specification, throughout: shortest heads and no repeated key. */
  ghost predicate IsSmallest(w: Wire)
    requires WellFormed(w)
    decreases w, 0
  {
    && SmallestHead(w.tag, w.raw)
    && AllSmallest(w.kids)
    && (HeadOf(w.tag, w.raw).value.Dict? ==> DistinctKeys(InterpretAll(w.kids)))
  }

  ghost predicate AllSmallest(ws: seq<Wire>)
    requires AllWellFormed(ws)
    decreases ws, 1
  {
    ws == [] || (IsSmallest(ws[0]) && AllSmallest(ws[1..]))
  }

  /** `key` is not among the keys of alternating keys and values. */
  predicate KeyAbsent(kids: seq<Value>, key: seq<byte>) {
    |kids| < 2 || (kids[0] != Str(key) && KeyAbsent(kids[1..][1..], key))
  }

  predicate DistinctKeys(kids: seq<Value>) {
    |kids| < 2 || ((kids[0].Str? ==> KeyAbsent(kids[1..][1..], kids[0].bytes)) && DistinctKeys(kids[1..][1..]))
  }

  /** A 32-bit float that is no integer of up to 32 bits: the encoder, which has no 32-bit floats, writes nine bytes. */
  predicate WideFloat(raw: nat) {
    var i := SingleAsInt(raw); i.None? || i.value < -0x8000_0000 || i.value >= 0x1_0000_0000
  }

  function WideHead(tag: byte, raw: nat): nat { if tag == 0xca && WideFloat(raw) then 1 else 0 }

  /** How many wide 32-bit floats an input holds. */
  ghost function Wides(w: Wire): nat
    decreases w, 0
  {
    WideHead(w.tag, w.raw) + WidesAll(w.kids)
  }

  ghost function WidesAll(ws: seq<Wire>): nat
    decreases ws, 1
  {
    if ws == [] then 0 else Wides(ws[0]) + WidesAll(ws[1..])
  }

  lemma Widths()
    ensures Pow256(1) == 0x100 && Pow256(2) == 0x1_0000
    ensures Pow256(4) == 0x1_0000_0000 && Pow256(8) == 0x1_0000_0000_0000_0000
  {
    assert Pow256(3) == 0x100_0000;
    assert Pow256(5) == 0x100_0000_0000;
    assert Pow256(6) == 0x1_0000_0000_0000;
    assert Pow256(7) == 0x100_0000_0000_0000;
  }

  /** Re-encoding a head takes no more than the bytes read, but for four more on a wide float. */
  lemma HeadNeverGrows(tag: byte, raw: nat)
    requires raw < Pow256(WidthOf(tag)) && HeadOf(tag, raw).Some?
    ensures HeadLength(HeadOf(tag, raw).value) <= 1 + WidthOf(tag) + 4 * WideHead(tag, raw)
    ensures HeadLength(HeadOf(tag, raw).value) == 1 + WidthOf(tag) + 4 * WideHead(tag, raw) <==> SmallestHead(tag, raw)
  {
    match FormOf(tag)
    case Whole(h) =>
    case Sized(kind, w) =>
      match kind
      case UInt => UIntHead(tag, raw);
      case SInt => SIntHead(tag, raw);
      case Float => FloatHead(tag, raw);
      case _ => LengthHead(tag, raw);
  }

  lemma UIntHead(tag: byte, raw: nat)
    requires raw < Pow256(WidthOf(tag)) && FormOf(tag).Sized? && FormOf(tag).kind == UInt
    ensures HeadLength(HeadOf(tag, raw).value) <= 1 + WidthOf(tag) + 4 * WideHead(tag, raw)
    ensures HeadLength(HeadOf(tag, raw).value) == 1 + WidthOf(tag) + 4 * WideHead(tag, raw) <==> SmallestHead(tag, raw)
  {
    Widths();
    assert WidthOf(tag) in {1, 2, 4, 8};
  }

  lemma SIntHead(tag: byte, raw: nat)
    requires raw < Pow256(WidthOf(tag)) && FormOf(tag).Sized? && FormOf(tag).kind == SInt
    ensures HeadLength(HeadOf(tag, raw).value) <= 1 + WidthOf(tag) + 4 * WideHead(tag, raw)
    ensures HeadLength(HeadOf(tag, raw).value) == 1 + WidthOf(tag) + 4 * WideHead(tag, raw) <==> SmallestHead(tag, raw)
  {
    Widths();
    assert WidthOf(tag) in {1, 2, 4, 8};
  }

  lemma LengthHead(tag: byte, raw: nat)
    requires raw < Pow256(WidthOf(tag)) && FormOf(tag).Sized?
    requires FormOf(tag).kind in {TextLen, BlobLen, ListLen, DictLen}
    ensures HeadLength(HeadOf(tag, raw).value) <= 1 + WidthOf(tag) + 4 * WideHead(tag, raw)
    ensures HeadLength(HeadOf(tag, raw).value) == 1 + WidthOf(tag) + 4 * WideHead(tag, raw) <==> SmallestHead(tag, raw)
  {
    Widths();
    assert WidthOf(tag) in {1, 2, 4};
  }

  lemma FloatHead(tag: byte, raw: nat)
    requires tag == 0xca || tag == 0xcb
    ensures HeadLength(HeadOf(tag, raw).value) <= 1 + WidthOf(tag) + 4 * WideHead(tag, raw)
    ensures HeadLength(HeadOf(tag, raw).value) == 1 + WidthOf(tag) + 4 * WideHead(tag, raw) <==> SmallestHead(tag, raw)
  {
    assert FormOf(tag) == Sized(Float, if tag == 0xca then 4 else 8);
  }

  // ---------------------------------------------------------------- repeated keys only shrink an object

  predicate Holds(es: seq<Entry>, key: seq<byte>) {
    es != [] && (es[0].key == key || Holds(es[1..], key))
  }

  /** None of the object's keys occurs in the pairs still to be assigned. */
  predicate AllAbsent(es: seq<Entry>, kids: seq<Value>) {
    es == [] || (KeyAbsent(kids, es[0].key) && AllAbsent(es[1..], kids))
  }

  function PairLength(key: seq<byte>, val: Value): nat {
    HeadLength(Text(|key|)) + |key| + Measure(val)
  }

  lemma {:induction false} PutSize(es: seq<Entry>, key: seq<byte>, val: Value)
    ensures Holds(es, key) ==>
      && |Put(es, key, val)| == |es|
      && MeasureEntries(Put(es, key, val)) < MeasureEntries(es) + PairLength(key, val)
    ensures !Holds(es, key) ==> Put(es, key, val) == es + [Entry(key, val)]
    ensures !Holds(es, key) ==> MeasureEntries(Put(es, key, val)) == MeasureEntries(es) + PairLength(key, val)
  {
    if es != [] && es[0].key != key {
      PutSize(es[1..], key, val);
      assert Put(es, key, val)[1..] == Put(es[1..], key, val);
    } else if es != [] {
      assert Put(es, key, val)[1..] == es[1..];
    }
  }

  lemma {:induction false} AbsentAfterPut(es: seq<Entry>, key: seq<byte>, val: Value, kids: seq<Value>)
    ensures AllAbsent(Put(es, key, val), kids) <==> AllAbsent(es, kids) && KeyAbsent(kids, key)
  {
    if es == [] {
      assert [Entry(key, val)][1..] == [];
    } else if es[0].key == key {
      assert ([Entry(key, val)] + es[1..])[1..] == es[1..];
    } else {
      AbsentAfterPut(es[1..], key, val, kids);
      assert Put(es, key, val)[1..] == Put(es[1..], key, val);
    }
  }

  lemma {:induction false} AbsentFromPairs(es: seq<Entry>, kids: seq<Value>)
    requires |kids| >= 2 && kids[0].Str?
    ensures AllAbsent(es, kids) <==> !Holds(es, kids[0].bytes) && AllAbsent(es, kids[1..][1..])
  {
    if es != [] {
      AbsentFromPairs(es[1..], kids);
    }
  }

  lemma {:induction false} NothingAbsent(es: seq<Entry>)
    ensures AllAbsent(es, [])
  {
    if es != [] {
      NothingAbsent(es[1..]);
    }
  }

  /** `after` is bounded by a size and a doubled entry count, and reaches them just when `clean`. */
  predicate Account(after: seq<Entry>, twice: nat, total: nat, clean: bool) {
    && 2 * |after| <= twice
    && MeasureEntries(after) <= total
    && (clean ==> MeasureEntries(after) == total && 2 * |after| == twice)
    && (MeasureEntries(after) == total ==> clean)
  }

  /** Assigning pairs one by one: the object ends no longer than the pairs, and as long only without repeats. */
  lemma {:induction false} AssignSize(es: seq<Entry>, kids: seq<Value>)
    requires Assign(es, kids).Some? && |kids| % 2 == 0
    ensures Account(Assign(es, kids).value, 2 * |es| + |kids|,
                    MeasureEntries(es) + MeasureAll(kids), DistinctKeys(kids) && AllAbsent(es, kids))
    decreases |kids|
  {
    if kids == [] {
      NothingAbsent(es);
    } else {
      var key, val, rest := kids[0].bytes, kids[1], kids[1..][1..];
      AssignSize(Put(es, key, val), rest);
      PutSize(es, key, val);
      AbsentAfterPut(es, key, val, rest);
      AbsentFromPairs(es, kids);
      assert MeasureAll(kids) == Measure(kids[0]) + MeasureAll(kids[1..]);
    }
  }

  // ---------------------------------------------------------------- re-encoded size against consumed size

  /**
    Re-encoding measures at most the input that was decoded plus four bytes for each wide float in it, and
    exactly that just when the input kept to the smallest-format rule.
   */
  lemma {:induction false} MeasureWire(w: Wire)
    requires WellFormed(w)
    ensures Measure(Interpret(w)) <= |Bytes(w)| + 4 * Wides(w)
    ensures Measure(Interpret(w)) == |Bytes(w)| + 4 * Wides(w) <==> IsSmallest(w)
    decreases w, 0
  {
    var h := HeadOf(w.tag, w.raw).value;
    MeasureWires(w.kids);
    if h.Dict? {
      MeasureDict(w);
    } else if h.List? {
      MeasureList(w);
    } else {
      MeasureLeaf(w);
    }
  }

  /** What `MeasureWire` says of the nested inputs. */
  ghost predicate KidsMeasured(w: Wire)
    requires WellFormed(w)
  {
    var m, n := MeasureAll(InterpretAll(w.kids)), |BytesAll(w.kids)| + 4 * WidesAll(w.kids);
    m <= n && (m == n <==> AllSmallest(w.kids))
  }

  ghost predicate Measured(w: Wire)
    requires WellFormed(w)
  {
    var m, n := Measure(Interpret(w)), |Bytes(w)| + 4 * Wides(w);
    m <= n && (m == n <==> IsSmallest(w))
  }

  lemma MeasureDict(w: Wire)
    requires WellFormed(w) && HeadOf(w.tag, w.raw).value.Dict? && KidsMeasured(w)
    ensures Measured(w)
  {
    Assembles(w);
    HeadNeverGrows(w.tag, w.raw);
    ObjectMeasured(InterpretAll(w.kids), HeadOf(w.tag, w.raw).value.n);
  }

  /** The object assigned from `n` pairs measures at most a head for `n` and the pairs, exactly that without repeats. */
  lemma ObjectMeasured(vals: seq<Value>, n: nat)
    requires |vals| == 2 * n && Assign([], vals).Some?
    ensures
      var m, total := Measure(Obj(Assign([], vals).value)), HeadLength(Dict(n)) + MeasureAll(vals);
      m <= total && (m == total <==> DistinctKeys(vals))
  {
    AssignSize([], vals);
    DictMeasure(Assign([], vals).value, n, MeasureAll(vals));
  }

  lemma MeasureList(w: Wire)
    requires WellFormed(w) && HeadOf(w.tag, w.raw).value.List? && KidsMeasured(w)
    ensures Measured(w)
  {
    Assembles(w);
    HeadNeverGrows(w.tag, w.raw);
    assert Interpret(w) == Arr(InterpretAll(w.kids));
  }

  lemma MeasureLeaf(w: Wire)
    requires WellFormed(w) && !HeadOf(w.tag, w.raw).value.Dict? && !HeadOf(w.tag, w.raw).value.List?
    ensures Measured(w)
  {
    Assembles(w);
    HeadNeverGrows(w.tag, w.raw);
    assert w.kids == [];
    LeafMeasure(HeadOf(w.tag, w.raw).value, w.payload);
  }

  lemma LeafMeasure(h: Head, payload: seq<byte>)
    requires !h.List? && !h.Dict? && |payload| == PayloadSize(h)
    requires h.Scalar? ==> !h.v.Str? && !h.v.Bin? && !h.v.Arr? && !h.v.Obj?
    ensures Measure(Assemble(h, payload, []).value) == HeadLength(h) + |payload|
  {
  }

  lemma DictHeadMonotone(m: nat, n: nat)
    requires m <= n
    ensures HeadLength(Dict(m)) <= HeadLength(Dict(n))
  {
  }

  lemma DictMeasure(es: seq<Entry>, n: nat, pairs: nat)
    requires |es| <= n && MeasureEntries(es) <= pairs
    ensures Measure(Obj(es)) <= HeadLength(Dict(n)) + pairs
    ensures Measure(Obj(es)) == HeadLength(Dict(n)) + pairs ==> MeasureEntries(es) == pairs
    ensures |es| == n && MeasureEntries(es) == pairs ==> Measure(Obj(es)) == HeadLength(Dict(n)) + pairs
  {
    DictHeadMonotone(|es|, n);
  }

  lemma {:induction false} MeasureWires(ws: seq<Wire>)
    requires AllWellFormed(ws)
    ensures MeasureAll(InterpretAll(ws)) <= |BytesAll(ws)| + 4 * WidesAll(ws)
    ensures MeasureAll(InterpretAll(ws)) == |BytesAll(ws)| + 4 * WidesAll(ws) <==> AllSmallest(ws)
    decreases ws, 1
  {
    if ws != [] {
      UnconsWires(ws);
      MeasureWire(ws[0]);
      MeasureWires(ws[1..]);
    }
  }

  // ---------------------------------------------------------------- the encoder

  predicate Distinct(es: seq<Entry>) {
    es == [] || (!Holds(es[1..], es[0].key) && Distinct(es[1..]))
  }

  /**
    What a decoder reads back unchanged from its encoding. Lengths must fit 32 bits, an object's keys differ,
    and every number that is a safe integer is represented as `Int`.
   */
  predicate Plain(v: Value)
    decreases v, 0
  {
    match v
    case Huge(_, _) => false
    case Single(_) => false
    case Double(bits) => bits < 0x1_0000_0000_0000_0000 && DoubleAsInt(bits) == None
    case Str(s) => |s| < 0x1_0000_0000
    case Bin(s) => |s| < 0x1_0000_0000
    case Arr(items) => |items| < 0x1_0000_0000 && AllPlain(items)
    case Obj(es) => |es| < 0x1_0000_0000 && Distinct(es) && EntriesPlain(es)
    case _ => true
  }

  predicate AllPlain(vs: seq<Value>)
    decreases vs, 1
  {
    vs == [] || (Plain(vs[0]) && AllPlain(vs[1..]))
  }

  predicate EntriesPlain(es: seq<Entry>)
    decreases es, 1
  {
    es == [] || (|es[0].key| < 0x1_0000_0000 && Plain(es[0].val) && EntriesPlain(es[1..]))
  }

  /** First byte and following integer of the shortest format for an integer. */
  function IntHead(i: SafeInt): (byte, nat) {
    if 0 <= i < 0x80 then (i, 0)
    else if -0x20 <= i < 0 then (i + 256, 0)
    else if 0 <= i < 0x100 then (0xcc, i)
    else if 0 <= i < 0x1_0000 then (0xcd, i)
    else if 0 <= i < 0x1_0000_0000 then (0xce, i)
    else if 0 <= i then (0xcf, i)
    else if -0x80 <= i then (0xd0, i + 0x100)
    else if -0x8000 <= i then (0xd1, i + 0x1_0000)
    else if -0x8000_0000 <= i then (0xd2, i + 0x1_0000_0000)
    else (0xd3, i + 0x1_0000_0000_0000_0000)
  }

  function ShortestHead(h: Head): (byte, nat) {
    match h
    case Scalar(Nil) => (0xc0, 0)
    case Scalar(Bool(b)) => if b then (0xc3, 0) else (0xc2, 0)
    case Scalar(Int(i)) => IntHead(i)
    case Scalar(Double(bits)) => (0xcb, bits)
    case Scalar(_) => (0xc1, 0)
    case Text(n) =>
      if n < 0x20 then (0xa0 + n, 0) else if n < 0x100 then (0xd9, n)
      else if n < 0x1_0000 then (0xda, n) else (0xdb, n)
    case Blob(n) => if n < 0x100 then (0xc4, n) else if n < 0x1_0000 then (0xc5, n) else (0xc6, n)
    case List(n) => if n < 0x10 then (0x90 + n, 0) else if n < 0x1_0000 then (0xdc, n) else (0xdd, n)
    case Dict(n) => if n < 0x10 then (0x80 + n, 0) else if n < 0x1_0000 then (0xde, n) else (0xdf, n)
  }

  predicate EncodableHead(h: Head) {
    match h
    case Scalar(v) => !v.Str? && !v.Bin? && !v.Arr? && !v.Obj? && Plain(v)
    case _ => h.n < 0x1_0000_0000
  }

  ghost predicate ReadsAs(tag: byte, raw: nat, h: Head) {
    && raw < Pow256(WidthOf(tag)) && HeadOf(tag, raw) == Some(h)
    && 1 + WidthOf(tag) == HeadLength(h) && tag != 0xca
  }

  lemma SignedReads(tag: byte, w: nat, i: SafeInt)
    requires FormOf(tag) == Sized(SInt, w) && -(Pow256(w) / 2) <= i < 0
    ensures i + Pow256(w) >= 0 && WidthOf(tag) == w
    ensures HeadOf(tag, i + Pow256(w)) == Some(Scalar(Int(i)))
  {
  }

  lemma UnsignedReads(tag: byte, w: nat, i: SafeInt)
    requires FormOf(tag) == Sized(UInt, w) && 0 <= i < Pow256(w)
    ensures WidthOf(tag) == w && HeadOf(tag, i) == Some(Scalar(Int(i)))
  {
  }

  lemma IntHeadReads(i: SafeInt)
    ensures ReadsAs(IntHead(i).0, IntHead(i).1, Scalar(Int(i)))
  {
    Widths();
    if -0x20 <= i < 0x80 {
    } else if 0 <= i < 0x100 {
      UnsignedReads(0xcc, 1, i);
    } else if 0 <= i < 0x1_0000 {
      UnsignedReads(0xcd, 2, i);
    } else if 0 <= i < 0x1_0000_0000 {
      UnsignedReads(0xce, 4, i);
    } else if 0 <= i {
      UnsignedReads(0xcf, 8, i);
    } else if i >= -0x80 {
      SignedReads(0xd0, 1, i);
    } else if i >= -0x8000 {
      SignedReads(0xd1, 2, i);
    } else if i >= -0x8000_0000 {
      SignedReads(0xd2, 4, i);
    } else {
      SignedReads(0xd3, 8, i);
    }
  }

  lemma LengthReads(n: nat)
    requires n < 0x1_0000_0000
    ensures ReadsAs(ShortestHead(Text(n)).0, ShortestHead(Text(n)).1, Text(n))
    ensures ReadsAs(ShortestHead(Blob(n)).0, ShortestHead(Blob(n)).1, Blob(n))
  {
    Widths();
    if n < 0x20 {
      assert FormOf(0xa0 + n) == Whole(Text(n));
    } else if n < 0x100 {
      assert FormOf(0xd9) == Sized(TextLen, 1);
    } else if n < 0x1_0000 {
      assert FormOf(0xda) == Sized(TextLen, 2);
    } else {
      assert FormOf(0xdb) == Sized(TextLen, 4);
    }
  }

  lemma ListHeadReads(n: nat)
    requires n < 0x1_0000_0000
    ensures ReadsAs(ShortestHead(List(n)).0, ShortestHead(List(n)).1, List(n))
  {
    Widths();
    if n < 0x10 {
      assert FormOf(0x90 + n) == Whole(List(n));
    } else if n < 0x1_0000 {
      assert FormOf(0xdc) == Sized(ListLen, 2);
    } else {
      assert FormOf(0xdd) == Sized(ListLen, 4);
    }
  }

  lemma DictHeadReads(n: nat)
    requires n < 0x1_0000_0000
    ensures ReadsAs(ShortestHead(Dict(n)).0, ShortestHead(Dict(n)).1, Dict(n))
  {
    Widths();
    if n < 0x10 {
      assert FormOf(0x80 + n) == Whole(Dict(n));
    } else if n < 0x1_0000 {
      assert FormOf(0xde) == Sized(DictLen, 2);
    } else {
      assert FormOf(0xdf) == Sized(DictLen, 4);
    }
  }

  lemma ShortestHeadReads(h: Head)
    requires EncodableHead(h)
    ensures ReadsAs(ShortestHead(h).0, ShortestHead(h).1, h)
  {
    match h
    case Scalar(v) => ScalarReads(v);
    case Text(n) => LengthReads(n);
    case Blob(n) => LengthReads(n);
    case List(n) => ListHeadReads(n);
    case Dict(n) => DictHeadReads(n);
  }

  lemma ScalarReads(v: Value)
    requires EncodableHead(Scalar(v))
    ensures ReadsAs(ShortestHead(Scalar(v)).0, ShortestHead(Scalar(v)).1, Scalar(v))
  {
    match v
    case Nil =>
    case Bool(_) =>
    case Int(i) => IntHeadReads(i);
    case Double(bits) =>
      Widths();
      assert FormOf(0xcb) == Sized(Float, 8);
  }

  /** What the encoder writes, unless it throws, as concrete syntax. */
  function Written(v: Value): Wire
    requires Plain(v)
    decreases v, 0
  {
    match v
    case Str(s) => WriteHead(Text(|s|), s, [])
    case Bin(s) => WriteHead(Blob(|s|), s, [])
    case Arr(items) => WriteHead(List(|items|), [], WrittenAll(items))
    case Obj(es) => WriteHead(Dict(|es|), [], WrittenEntries(es))
    case _ => WriteHead(Scalar(v), [], [])
  }

  function WriteHead(h: Head, payload: seq<byte>, kids: seq<Wire>): Wire {
    Wire(ShortestHead(h).0, ShortestHead(h).1, payload, kids)
  }

  function WrittenAll(vs: seq<Value>): (ws: seq<Wire>)
    requires AllPlain(vs)
    ensures |ws| == |vs|
    decreases vs, 1
  {
    if vs == [] then [] else [Written(vs[0])] + WrittenAll(vs[1..])
  }

  function WrittenEntries(es: seq<Entry>): (ws: seq<Wire>)
    requires EntriesPlain(es)
    ensures |ws| == 2 * |es|
    decreases es, 1
  {
    if es == [] then []
    else [WriteHead(Text(|es[0].key|), es[0].key, [])] + ([Written(es[0].val)] + WrittenEntries(es[1..]))
  }

  /** A head, payload and nested inputs written around a value they assemble to. */
  lemma WriteHeadSound(h: Head, payload: seq<byte>, kids: seq<Wire>, v: Value)
    requires EncodableHead(h) && |payload| == PayloadSize(h) && |kids| == KidCount(h)
    requires AllWellFormed(kids) && (h.Dict? ==> KeysAreText(kids))
    requires Assemble(h, payload, InterpretAll(kids)) == Some(v)
    ensures
      var w := WriteHead(h, payload, kids);
      && WellFormed(w) && Interpret(w) == v && w.tag != 0xca
      && |Bytes(w)| == HeadLength(h) + |payload| + |BytesAll(kids)|
  {
    ShortestHeadReads(h);
    Assembles(WriteHead(h, payload, kids));
  }

  /** What is written is well formed, reads back as the value, and is as long as `Measure` says. */
  ghost predicate Faithful(w: Wire, v: Value) {
    && WellFormed(w) && Wides(w) == 0
    && Interpret(w) == v && |Bytes(w)| == Measure(v)
  }

  lemma {:induction false} WrittenFaithful(v: Value)
    requires Plain(v)
    ensures Faithful(Written(v), v)
    decreases v, 0
  {
    match v
    case Str(s) => WriteHeadSound(Text(|s|), s, [], v);
    case Bin(s) => WriteHeadSound(Blob(|s|), s, [], v);
    case Arr(items) =>
      WrittenAllFaithful(items);
      WriteHeadSound(List(|items|), [], WrittenAll(items), v);
    case Obj(es) =>
      WrittenEntriesFaithful(es);
      NoneHeldByEmpty(es);
      AssignDistinct([], es);
      assert [] + es == es;
      WriteHeadSound(Dict(|es|), [], WrittenEntries(es), v);
    case _ => WriteHeadSound(Scalar(v), [], [], v);
  }

  lemma {:induction false} WrittenAllFaithful(vs: seq<Value>)
    requires AllPlain(vs)
    ensures AllFaithful(WrittenAll(vs), vs)
    decreases vs, 1
  {
    if vs != [] {
      WrittenFaithful(vs[0]);
      WrittenAllFaithful(vs[1..]);
      FaithfulCons(Written(vs[0]), WrittenAll(vs[1..]), vs);
    }
  }

  ghost predicate AllFaithful(ws: seq<Wire>, vs: seq<Value>) {
    && AllWellFormed(ws) && WidesAll(ws) == 0
    && InterpretAll(ws) == vs && |BytesAll(ws)| == MeasureAll(vs)
  }

  lemma FaithfulCons(w: Wire, ws: seq<Wire>, vs: seq<Value>)
    requires vs != [] && Faithful(w, vs[0]) && AllFaithful(ws, vs[1..])
    ensures AllFaithful([w] + ws, vs)
  {
    ConsWires(w, ws);
    ConsWides(w, ws);
    assert vs == [vs[0]] + vs[1..];
  }

  lemma ConsWides(w: Wire, ws: seq<Wire>)
    ensures WidesAll([w] + ws) == Wides(w) + WidesAll(ws)
  {
    assert ([w] + ws)[1..] == ws;
  }

  lemma WrittenKey(key: seq<byte>)
    requires |key| < 0x1_0000_0000
    ensures
      var w := WriteHead(Text(|key|), key, []);
      && WellFormed(w) && Wides(w) == 0 && IsText(w)
      && Interpret(w) == Str(key) && |Bytes(w)| == HeadLength(Text(|key|)) + |key|
  {
    WriteHeadSound(Text(|key|), key, [], Str(key));
    StringIsText(WriteHead(Text(|key|), key, []));
  }

  /** The alternating keys and values of an object. */
  function Pairs(es: seq<Entry>): seq<Value> {
    if es == [] then [] else [Str(es[0].key)] + ([es[0].val] + Pairs(es[1..]))
  }

  lemma {:induction false} WrittenEntriesFaithful(es: seq<Entry>)
    requires EntriesPlain(es)
    ensures PairsFaithful(WrittenEntries(es), es)
    decreases es, 1
  {
    if es != [] {
      WrittenKey(es[0].key);
      WrittenFaithful(es[0].val);
      WrittenEntriesFaithful(es[1..]);
      PairsCons(WriteHead(Text(|es[0].key|), es[0].key, []), Written(es[0].val), WrittenEntries(es[1..]), es);
    }
  }

  /** Alternating keys and values, written. */
  ghost predicate PairsFaithful(ws: seq<Wire>, es: seq<Entry>) {
    && AllWellFormed(ws) && WidesAll(ws) == 0 && KeysAreText(ws)
    && InterpretAll(ws) == Pairs(es) && |BytesAll(ws)| == MeasureEntries(es)
  }

  lemma PairsCons(k: Wire, w: Wire, rest: seq<Wire>, es: seq<Entry>)
    requires es != [] && PairsFaithful(rest, es[1..]) && Faithful(w, es[0].val)
    requires WellFormed(k) && Wides(k) == 0 && IsText(k) && Interpret(k) == Str(es[0].key)
    requires |Bytes(k)| == HeadLength(Text(|es[0].key|)) + |es[0].key|
    ensures PairsFaithful([k] + ([w] + rest), es)
  {
    ConsWires(w, rest);
    ConsWides(w, rest);
    ConsWires(k, [w] + rest);
    ConsWides(k, [w] + rest);
    KeysConsText(k, w, rest);
  }

  lemma KeysConsText(k: Wire, w: Wire, rest: seq<Wire>)
    requires IsText(k) && KeysAreText(rest)
    ensures KeysAreText([k] + ([w] + rest))
  {
    assert ([k] + ([w] + rest))[1..] == [w] + rest;
    assert ([w] + rest)[1..] == rest;
  }

  /** Assigning an object's own pairs, with no key repeated, rebuilds it in order. */
  lemma {:induction false} AssignDistinct(acc: seq<Entry>, es: seq<Entry>)
    requires Distinct(es) && NoneHeld(acc, es)
    ensures Assign(acc, Pairs(es)) == Some(acc + es)
    decreases |es|
  {
    if es == [] {
      assert acc + es == acc;
    } else {
      var e := es[0];
      PutSize(acc, e.key, e.val);
      NoneHeldSnoc(acc, e, es[1..]);
      AssignDistinct(acc + [e], es[1..]);
      assert acc + [e] + es[1..] == acc + es;
      assert Pairs(es)[1..][1..] == Pairs(es[1..]);
    }
  }

  predicate NoneHeld(acc: seq<Entry>, es: seq<Entry>) {
    es == [] || (!Holds(acc, es[0].key) && NoneHeld(acc, es[1..]))
  }

  lemma {:induction false} NoneHeldSnoc(acc: seq<Entry>, e: Entry, es: seq<Entry>)
    requires NoneHeld(acc, es) && !Holds(es, e.key)
    ensures NoneHeld(acc + [e], es)
  {
    if es != [] {
      HoldsSnoc(acc, e, es[0].key);
      NoneHeldSnoc(acc, e, es[1..]);
    }
  }

  lemma {:induction false} HoldsSnoc(acc: seq<Entry>, e: Entry, key: seq<byte>)
    ensures Holds(acc + [e], key) <==> Holds(acc, key) || e.key == key
  {
    if acc != [] {
      assert (acc + [e])[1..] == acc[1..] + [e];
      HoldsSnoc(acc[1..], e, key);
    }
  }

  lemma {:induction false} NoneHeldByEmpty(es: seq<Entry>)
    ensures NoneHeld([], es)
  {
    if es != [] {
      NoneHeldByEmpty(es[1..]);
    }
  }

  /** The encoder: the bytes of what is written, or the error on a value nested too deep. */
  function Encode(v: Value): (r: Option<seq<byte>>)
    requires Plain(v)
    ensures r.Some? <==> !TooDeep(v)
    ensures r.Some? ==> |r.value| == Measure(v)
  {
    WrittenFaithful(v);
    if TooDeep(v) then None else Some(Bytes(Written(v)))
  }

  /**
    Round trip: a value of up to a hundred levels is encoded, and whatever follows, its encoding decodes to it
    and takes exactly its own bytes; the encoder keeps to the smallest-format rule.
   */
  lemma EncodeDecodes(v: Value, rest: seq<byte>)
    requires Plain(v)
    ensures Encode(v).Some? <==> Depth(v) <= 100
    ensures Encode(v).Some? ==> Decode(Encode(v).value + rest) == Done(v, |Encode(v).value|)
    ensures WellFormed(Written(v)) && Wides(Written(v)) == 0 && IsSmallest(Written(v))
  {
    WrittenFaithful(v);
    DecodeWire(Written(v), rest);
    MeasureWire(Written(v));
  }
}
