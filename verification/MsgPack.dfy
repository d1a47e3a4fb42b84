/**
  The MessagePack value codec the stream decoder relies on: the "Formats" of the MessagePack
  specification as one table over the first byte, a decoder over raw bytes, an encoder that picks the
  smallest format, and a concrete-syntax tree (`Wire`) for every well-formed input, smallest or not.
  Extension types are not part of this model and are reported as bad input.
 */
module MsgPack {
  import opened BigEndian
  import opened Common
  import opened Options

  const MAX_SAFE: int := 9007199254740991

  /** The integers a JavaScript number holds exactly (Number.isSafeInteger). */
  type SafeInt = i: int | -MAX_SAFE <= i <= MAX_SAFE

  datatype Entry = Entry(key: seq<byte>, val: Value)

  /** A decoded value. Strings stay byte sequences; an object keeps its properties in insertion order. */
  datatype Value =
    | Nil
    | Bool(b: bool)
    | Int(i: SafeInt)
    | Huge(tag: byte, raw: nat)    // a 64-bit integer outside the safe range, read as an inexact number
    | Double(bits: nat)            // a 64-bit float that is not a safe integer
    | Single(bits: nat)            // a 32-bit float that is not a safe integer
    | Str(bytes: seq<byte>)
    | Bin(bytes: seq<byte>)
    | Arr(items: seq<Value>)
    | Obj(entries: seq<Entry>)

  /** What the leading bytes of a value announce. */
  datatype Head = Scalar(v: Value) | Text(n: nat) | Blob(n: nat) | List(n: nat) | Dict(n: nat)

  datatype Kind = UInt | SInt | Float | TextLen | BlobLen | ListLen | DictLen

  datatype Form = Whole(h: Head) | Sized(kind: Kind, width: nat) | Unused

  /** The first-byte table of the specification, section "Formats". */
  function FormOf(t: byte): Form {
    if t < 0x80 then Whole(Scalar(Int(t)))
    else if t < 0x90 then Whole(Dict(t - 0x80))
    else if t < 0xa0 then Whole(List(t - 0x90))
    else if t < 0xc0 then Whole(Text(t - 0xa0))
    else if t >= 0xe0 then Whole(Scalar(Int(t - 256)))
    else if t == 0xc0 then Whole(Scalar(Nil))
    else if t == 0xc2 then Whole(Scalar(Bool(false)))
    else if t == 0xc3 then Whole(Scalar(Bool(true)))
    else if t == 0xc4 then Sized(BlobLen, 1)
    else if t == 0xc5 then Sized(BlobLen, 2)
    else if t == 0xc6 then Sized(BlobLen, 4)
    else if t == 0xca then Sized(Float, 4)
    else if t == 0xcb then Sized(Float, 8)
    else if t == 0xcc then Sized(UInt, 1)
    else if t == 0xcd then Sized(UInt, 2)
    else if t == 0xce then Sized(UInt, 4)
    else if t == 0xcf then Sized(UInt, 8)
    else if t == 0xd0 then Sized(SInt, 1)
    else if t == 0xd1 then Sized(SInt, 2)
    else if t == 0xd2 then Sized(SInt, 4)
    else if t == 0xd3 then Sized(SInt, 8)
    else if t == 0xd9 then Sized(TextLen, 1)
    else if t == 0xda then Sized(TextLen, 2)
    else if t == 0xdb then Sized(TextLen, 4)
    else if t == 0xdc then Sized(ListLen, 2)
    else if t == 0xdd then Sized(ListLen, 4)
    else if t == 0xde then Sized(DictLen, 2)
    else if t == 0xdf then Sized(DictLen, 4)
    else Unused
  }

  /** Bytes that follow the first one and belong to the head. */
  function WidthOf(t: byte): nat {
    match FormOf(t) case Sized(_, w) => w case _ => 0
  }

  /** The safe integer with significand `m`, scaled by 2^-s, if the scaling is exact. */
  function Scaled(negative: bool, m: nat, s: nat): (v: Option<int>) {
    if m % Pow2(s) != 0 then None
    else var i := m / Pow2(s); if i > MAX_SAFE then None else if negative then Some(-i) else Some(i)
  }

  /** The safe integer an IEEE 754 binary64 pattern stands for, if it does. */
  function DoubleAsInt(bits: nat): (v: Option<int>)
    ensures v.Some? ==> -MAX_SAFE <= v.value <= MAX_SAFE
  {
    IntOfDouble(bits / 0x8000_0000_0000_0000 % 2 == 1, bits / 0x10_0000_0000_0000 % 2048, bits % 0x10_0000_0000_0000)
  }

  function IntOfDouble(negative: bool, e: nat, m: nat): (v: Option<int>)
    ensures v.Some? ==> -MAX_SAFE <= v.value <= MAX_SAFE
  {
    if e == 0 && m == 0 then Some(0)
    else if e < 1023 || e > 1075 then None
    else Scaled(negative, 0x10_0000_0000_0000 + m, 1075 - e)
  }

  /** The same for binary32. */
  function SingleAsInt(bits: nat): (v: Option<int>)
    ensures v.Some? ==> -MAX_SAFE <= v.value <= MAX_SAFE
  {
    IntOfSingle(bits / 0x8000_0000 % 2 == 1, bits / 0x80_0000 % 256, bits % 0x80_0000)
  }

  function IntOfSingle(negative: bool, e: nat, m: nat): (v: Option<int>)
    ensures v.Some? ==> -MAX_SAFE <= v.value <= MAX_SAFE
  {
    if e == 0 && m == 0 then Some(0)
    else if e < 127 || e > 179 then None
    else if e <= 150 then Scaled(negative, 0x80_0000 + m, 150 - e)
    else Scaled(negative, (0x80_0000 + m) * Pow2(e - 150), 0)
  }

  /** The number a float head yields: floats that are safe integers are indistinguishable from integers. */
  function FloatValue(w: nat, raw: nat): Value {
    if w == 4 then
      match SingleAsInt(raw) case Some(i) => Int(i) case None => Single(raw)
    else
      match DoubleAsInt(raw) case Some(i) => Int(i) case None => Double(raw)
  }

  function IntValue(t: byte, i: int, raw: nat): Value {
    if -MAX_SAFE <= i <= MAX_SAFE then Int(i) else Huge(t, raw)
  }

  /** Two's complement reading of a `w`-byte integer. */
  function Signed(w: nat, raw: nat): int {
    if raw < Pow256(w) / 2 then raw else raw - Pow256(w)
  }

  /** The head with first byte `t` and following big-endian integer `raw`. */
  function HeadOf(t: byte, raw: nat): Option<Head> {
    match FormOf(t)
    case Whole(h) => Some(h)
    case Unused => None
    case Sized(kind, w) =>
      Some(match kind
           case UInt => Scalar(IntValue(t, raw, raw))
           case SInt => Scalar(IntValue(t, Signed(w, raw), raw))
           case Float => Scalar(FloatValue(w, raw))
           case TextLen => Text(raw)
           case BlobLen => Blob(raw)
           case ListLen => List(raw)
           case DictLen => Dict(raw))
  }

  /** Payload bytes directly after the head. */
  function PayloadSize(h: Head): nat {
    match h case Text(n) => n case Blob(n) => n case _ => 0
  }

  /** Values nested after the head; a dictionary alternates keys and values. */
  function KidCount(h: Head): nat {
    match h case List(n) => n case Dict(n) => 2 * n case _ => 0
  }

  /** The specification's formats: those whose length or value is in the first byte. */
  lemma FixedFormats(n: byte)
    ensures n < 0x80 ==> HeadOf(n, 0) == Some(Scalar(Int(n)))
    ensures n < 0x10 ==> HeadOf(0x80 + n, 0) == Some(Dict(n)) && HeadOf(0x90 + n, 0) == Some(List(n))
    ensures n < 0x20 ==> HeadOf(0xa0 + n, 0) == Some(Text(n)) && HeadOf(0xe0 + n, 0) == Some(Scalar(Int(n - 0x20)))
    ensures HeadOf(0xc0, 0) == Some(Scalar(Nil))
    ensures HeadOf(0xc2, 0) == Some(Scalar(Bool(false))) && HeadOf(0xc3, 0) == Some(Scalar(Bool(true)))
  {
  }

  /** Those that announce a length `r`. */
  lemma LengthFormats(r: nat)
    ensures HeadOf(0xc4, r) == HeadOf(0xc5, r) == HeadOf(0xc6, r) == Some(Blob(r))
    ensures HeadOf(0xd9, r) == HeadOf(0xda, r) == HeadOf(0xdb, r) == Some(Text(r))
    ensures HeadOf(0xdc, r) == HeadOf(0xdd, r) == Some(List(r)) && HeadOf(0xde, r) == HeadOf(0xdf, r) == Some(Dict(r))
    ensures WidthOf(0xc4) == WidthOf(0xd9) == 1
    ensures WidthOf(0xc5) == WidthOf(0xda) == WidthOf(0xdc) == WidthOf(0xde) == 2
    ensures WidthOf(0xc6) == WidthOf(0xdb) == WidthOf(0xdd) == WidthOf(0xdf) == 4
  {
  }

  /** And the integers, unsigned and in two's complement. */
  lemma IntegerFormats(r: nat)
    ensures r < 0x1_0000_0000 ==>
      HeadOf(0xcc, r) == HeadOf(0xcd, r) == HeadOf(0xce, r) == HeadOf(0xcf, r) == Some(Scalar(Int(r)))
    ensures r < 0x100 ==> HeadOf(0xd0, r) == Some(Scalar(Int(if r < 0x80 then r else r - 0x100)))
    ensures r < 0x1_0000 ==> HeadOf(0xd1, r) == Some(Scalar(Int(if r < 0x8000 then r else r - 0x1_0000)))
    ensures r < 0x1_0000_0000 ==>
      HeadOf(0xd2, r) == Some(Scalar(Int(if r < 0x8000_0000 then r else r - 0x1_0000_0000)))
    ensures WidthOf(0xcc) == WidthOf(0xd0) == 1 && WidthOf(0xcd) == WidthOf(0xd1) == 2
    ensures WidthOf(0xce) == WidthOf(0xd2) == 4 && WidthOf(0xcf) == WidthOf(0xd3) == 8
    ensures WidthOf(0xca) == 4 && WidthOf(0xcb) == 8
  {
    assert Pow256(1) == 0x100 && Pow256(2) == 0x1_0000 && Pow256(3) == 0x100_0000 && Pow256(4) == 0x1_0000_0000;
  }

  // ---------------------------------------------------------------- objects

  /** Assigning a property: a repeated key keeps its place and takes the new value. */
  function Put(es: seq<Entry>, key: seq<byte>, val: Value): seq<Entry> {
    if es == [] then [Entry(key, val)]
    else if es[0].key == key then [Entry(key, val)] + es[1..]
    else [es[0]] + Put(es[1..], key, val)
  }

  /** The object built by assigning the key/value pairs in order; a non-string key is an error. */
  function Assign(es: seq<Entry>, kids: seq<Value>): Option<seq<Entry>>
    decreases |kids|
  {
    if |kids| < 2 then Some(es)
    else if !kids[0].Str? then None
    else Assign(Put(es, kids[0].bytes, kids[1]), kids[1..][1..])
  }

  /** The value an object holds under a key. */
  function ValueOf(es: seq<Entry>, key: seq<byte>): Option<Value> {
    if es == [] then None else if es[0].key == key then Some(es[0].val) else ValueOf(es[1..], key)
  }

  lemma {:induction false} PutTakes(es: seq<Entry>, key: seq<byte>, val: Value, other: seq<byte>)
    ensures ValueOf(Put(es, key, val), other) == if other == key then Some(val) else ValueOf(es, other)
  {
    if es == [] {
      assert [Entry(key, val)][1..] == [];
    } else if es[0].key == key {
      assert ([Entry(key, val)] + es[1..])[1..] == es[1..];
    } else {
      PutTakes(es[1..], key, val, other);
      assert ([es[0]] + Put(es[1..], key, val))[1..] == Put(es[1..], key, val);
    }
  }

  /** The last value given for `key` among alternating keys and values, or else `before`. */
  function LastGiven(kids: seq<Value>, key: seq<byte>, before: Option<Value>): Option<Value>
    decreases |kids|
  {
    if |kids| < 2 then before
    else LastGiven(kids[1..][1..], key, if kids[0] == Str(key) then Some(kids[1]) else before)
  }

  /** An object read from pairs holds, under every key, the last value given for it. */
  lemma {:induction false} LastPairWins(es: seq<Entry>, kids: seq<Value>, key: seq<byte>)
    requires Assign(es, kids).Some?
    ensures ValueOf(Assign(es, kids).value, key) == LastGiven(kids, key, ValueOf(es, key))
    decreases |kids|
  {
    if |kids| >= 2 {
      PutTakes(es, kids[0].bytes, kids[1], key);
      LastPairWins(Put(es, kids[0].bytes, kids[1]), kids[1..][1..], key);
    }
  }

  function Assemble(h: Head, payload: seq<byte>, kids: seq<Value>): Option<Value> {
    match h
    case Scalar(v) => Some(v)
    case Text(_) => Some(Str(payload))
    case Blob(_) => Some(Bin(payload))
    case List(_) => Some(Arr(kids))
    case Dict(_) => match Assign([], kids) case Some(es) => Some(Obj(es)) case None => None
  }

  // ---------------------------------------------------------------- decoder

  /** A parse step: a value and the bytes it took, a plea for more input, or a rejection. */
  datatype Parse<+T> = Done(value: T, size: nat) | More | Bad

  function ReadHead(b: seq<byte>): (r: Parse<Head>)
    ensures r.Done? ==> 1 <= r.size <= |b|
  {
    if b == [] then More
    else if FormOf(b[0]).Unused? then Bad
    else
      var w := WidthOf(b[0]);
      if |b| < 1 + w then More else Done(HeadOf(b[0], FromBE(b[1..1 + w])).value, 1 + w)
  }

  function Decode(b: seq<byte>): (r: Parse<Value>)
    ensures r.Done? ==> 1 <= r.size <= |b|
    decreases |b|, 0
  {
    match ReadHead(b)
    case More => More
    case Bad => Bad
    case Done(h, n) =>
      var p := PayloadSize(h);
      if |b| < n + p then More
      else Finish(h, b[n..n + p], n + p, DecodeItems(b[n + p..], KidCount(h)))
  }

  /** The value behind a head and payload of `size` bytes, once its nested values are in. */
  function Finish(h: Head, payload: seq<byte>, size: nat, nested: Parse<seq<Value>>): Parse<Value> {
    match nested
    case More => More
    case Bad => Bad
    case Done(kids, m) =>
      match Assemble(h, payload, kids)
      case None => Bad
      case Some(v) => Done(v, size + m)
  }

  function DecodeItems(b: seq<byte>, k: nat): (r: Parse<seq<Value>>)
    ensures r.Done? ==> r.size <= |b| && |r.value| == k
    decreases |b|, 1
  {
    if k == 0 then Done([], 0) else
    match Decode(b)
    case More => More
    case Bad => Bad
    case Done(v, n) => ConsItem(v, n, DecodeItems(b[n..], k - 1))
  }

  function ConsItem(v: Value, n: nat, rest: Parse<seq<Value>>): Parse<seq<Value>> {
    match rest
    case More => More
    case Bad => Bad
    case Done(vs, m) => Done([v] + vs, n + m)
  }

  // ---------------------------------------------------------------- concrete syntax

  /** A well-formed input: its first byte, the integer after it, raw payload bytes and nested inputs. */
  datatype Wire = Wire(tag: byte, raw: nat, payload: seq<byte>, kids: seq<Wire>)

  ghost predicate WellFormed(w: Wire)
    decreases w, 0
  {
    && w.raw < Pow256(WidthOf(w.tag))
    && HeadOf(w.tag, w.raw).Some?
    && |w.payload| == PayloadSize(HeadOf(w.tag, w.raw).value)
    && |w.kids| == KidCount(HeadOf(w.tag, w.raw).value)
    && AllWellFormed(w.kids)
    && (HeadOf(w.tag, w.raw).value.Dict? ==> KeysAreText(w.kids))
  }

  ghost predicate AllWellFormed(ws: seq<Wire>)
    decreases ws, 1
  {
    ws == [] || (WellFormed(ws[0]) && AllWellFormed(ws[1..]))
  }

  ghost predicate IsText(w: Wire) {
    HeadOf(w.tag, w.raw).Some? && HeadOf(w.tag, w.raw).value.Text?
  }

  /** In a dictionary's alternating keys and values, every key is a string. */
  ghost predicate KeysAreText(ws: seq<Wire>) {
    |ws| < 2 || (IsText(ws[0]) && KeysAreText(ws[1..][1..]))
  }

  function HeadBytes(tag: byte, raw: nat): seq<byte>
    requires raw < Pow256(WidthOf(tag))
  {
    [tag] + ToBE(raw, WidthOf(tag))
  }

  function Bytes(w: Wire): (b: seq<byte>)
    requires WellFormed(w)
    ensures |b| >= 1
    decreases w, 0
  {
    HeadBytes(w.tag, w.raw) + w.payload + BytesAll(w.kids)
  }

  function BytesAll(ws: seq<Wire>): seq<byte>
    requires AllWellFormed(ws)
    decreases ws, 1
  {
    if ws == [] then [] else Bytes(ws[0]) + BytesAll(ws[1..])
  }

  /** The value a well-formed input stands for. */
  function Interpret(w: Wire): Value
    requires WellFormed(w)
    decreases w, 0
  {
    match Assemble(HeadOf(w.tag, w.raw).value, w.payload, InterpretAll(w.kids))
    case Some(v) => v
    case None => Nil
  }

  function InterpretAll(ws: seq<Wire>): (vs: seq<Value>)
    requires AllWellFormed(ws)
    ensures |vs| == |ws|
    decreases ws, 1
  {
    if ws == [] then [] else [Interpret(ws[0])] + InterpretAll(ws[1..])
  }

  // ---------------------------------------------------------------- sequence facts

  lemma SplitAt<T>(b: seq<T>, i: nat, j: nat)
    requires i + j <= |b|
    ensures b[..i + j] == b[..i] + b[i..][..j]
  {
  }

  lemma PrefixOf<T>(a: seq<T>, b: seq<T>, k: nat)
    requires k <= |a| + |b|
    ensures k <= |a| ==> (a + b)[..k] == a[..k]
    ensures k >= |a| ==> (a + b)[..k] == a + b[..k - |a|]
  {
  }

  // ---------------------------------------------------------------- decoding well-formed input

  lemma ReadHeadBack(tag: byte, raw: nat, rest: seq<byte>)
    requires raw < Pow256(WidthOf(tag)) && HeadOf(tag, raw).Some?
    ensures ReadHead(HeadBytes(tag, raw) + rest) == Done(HeadOf(tag, raw).value, 1 + WidthOf(tag))
  {
    var w := WidthOf(tag);
    var b := HeadBytes(tag, raw) + rest;
    assert b[1..1 + w] == ToBE(raw, w);
    FromTo(raw, w);
  }

  lemma StringIsText(w: Wire)
    requires WellFormed(w)
    ensures IsText(w) ==> Interpret(w) == Str(w.payload)
    ensures Interpret(w).Str? ==> IsText(w)
  {
    if FormOf(w.tag).Whole? {
      assert HeadOf(w.tag, w.raw).value == FormOf(w.tag).h;
    }
  }

  lemma ConsWires(w: Wire, ws: seq<Wire>)
    requires WellFormed(w) && AllWellFormed(ws)
    ensures AllWellFormed([w] + ws)
    ensures InterpretAll([w] + ws) == [Interpret(w)] + InterpretAll(ws)
    ensures BytesAll([w] + ws) == Bytes(w) + BytesAll(ws)
  {
    assert ([w] + ws)[1..] == ws;
  }

  lemma UnconsWires(ws: seq<Wire>)
    requires AllWellFormed(ws) && ws != []
    ensures WellFormed(ws[0]) && AllWellFormed(ws[1..])
    ensures InterpretAll(ws) == [Interpret(ws[0])] + InterpretAll(ws[1..])
    ensures InterpretAll(ws)[1..] == InterpretAll(ws[1..])
    ensures BytesAll(ws) == Bytes(ws[0]) + BytesAll(ws[1..])
  {
  }

  /** Assigning a dictionary's first key and value, then the rest. */
  lemma AssignStep(es: seq<Entry>, ws: seq<Wire>)
    requires AllWellFormed(ws) && |ws| >= 2
    ensures WellFormed(ws[0]) && WellFormed(ws[1]) && AllWellFormed(ws[1..]) && AllWellFormed(ws[1..][1..])
    ensures IsText(ws[0]) ==>
      Assign(es, InterpretAll(ws)) == Assign(Put(es, ws[0].payload, Interpret(ws[1])), InterpretAll(ws[1..][1..]))
    ensures !IsText(ws[0]) ==> Assign(es, InterpretAll(ws)) == None
  {
    UnconsWires(ws);
    UnconsWires(ws[1..]);
    StringIsText(ws[0]);
  }

  lemma KeysAreTextStep(ws: seq<Wire>)
    requires |ws| >= 2
    ensures KeysAreText(ws) <==> IsText(ws[0]) && KeysAreText(ws[1..][1..])
  {
  }

  lemma {:induction false} AssignTotal(es: seq<Entry>, ws: seq<Wire>)
    requires AllWellFormed(ws)
    ensures Assign(es, InterpretAll(ws)).Some? <==> KeysAreText(ws)
    decreases |ws|
  {
    if |ws| >= 2 {
      AssignStep(es, ws);
      KeysAreTextStep(ws);
      if IsText(ws[0]) { AssignTotal(Put(es, ws[0].payload, Interpret(ws[1])), ws[1..][1..]); }
    } else {
      AssignFew(es, InterpretAll(ws));
    }
  }

  lemma AssignFew(es: seq<Entry>, kids: seq<Value>)
    requires |kids| < 2
    ensures Assign(es, kids) == Some(es)
  {
  }

  /** Every well-formed input assembles to a value, so `Interpret` never falls back. */
  lemma Assembles(w: Wire)
    requires WellFormed(w)
    ensures Assemble(HeadOf(w.tag, w.raw).value, w.payload, InterpretAll(w.kids)) == Some(Interpret(w))
  {
    if HeadOf(w.tag, w.raw).value.Dict? {
      AssignTotal([], w.kids);
    }
  }

  /** One decoding step over input split as head, payload, nested values and whatever follows. */
  lemma DecodeSplit(tag: byte, raw: nat, payload: seq<byte>, tail: seq<byte>)
    requires raw < Pow256(WidthOf(tag)) && HeadOf(tag, raw).Some?
    requires |payload| == PayloadSize(HeadOf(tag, raw).value)
    ensures
      var h := HeadOf(tag, raw).value;
      Decode(HeadBytes(tag, raw) + payload + tail)
      == Finish(h, payload, 1 + WidthOf(tag) + |payload|, DecodeItems(tail, KidCount(h)))
  {
    var hb := HeadBytes(tag, raw);
    var b := hb + payload + tail;
    assert b == hb + (payload + tail);
    ReadHeadBack(tag, raw, payload + tail);
    assert b[|hb|..|hb| + |payload|] == payload;
    assert b[|hb| + |payload|..] == tail;
  }

  /** Self-delimiting: whatever follows, decoding a well-formed input yields its value and its own size. */
  lemma {:induction false} DecodeWire(w: Wire, rest: seq<byte>)
    requires WellFormed(w)
    ensures Decode(Bytes(w) + rest) == Done(Interpret(w), |Bytes(w)|)
    decreases w, 0
  {
    var kb := BytesAll(w.kids);
    assert Bytes(w) + rest == HeadBytes(w.tag, w.raw) + w.payload + (kb + rest);
    DecodeSplit(w.tag, w.raw, w.payload, kb + rest);
    DecodeWires(w.kids, rest);
    Assembles(w);
  }

  /** One item decoded off the front. */
  lemma DecodeItemsSplit(w: Wire, tail: seq<byte>, k: nat)
    requires WellFormed(w) && Decode(Bytes(w) + tail) == Done(Interpret(w), |Bytes(w)|)
    ensures DecodeItems(Bytes(w) + tail, k + 1) == ConsItem(Interpret(w), |Bytes(w)|, DecodeItems(tail, k))
  {
    assert (Bytes(w) + tail)[|Bytes(w)|..] == tail;
  }

  lemma {:induction false} DecodeWires(ws: seq<Wire>, rest: seq<byte>)
    requires AllWellFormed(ws)
    ensures DecodeItems(BytesAll(ws) + rest, |ws|) == Done(InterpretAll(ws), |BytesAll(ws)|)
    decreases ws, 1
  {
    if ws != [] {
      var others := BytesAll(ws[1..]);
      UnconsWires(ws);
      Regroup(Bytes(ws[0]), others, rest);
      DecodeWire(ws[0], others + rest);
      DecodeWires(ws[1..], rest);
      DecodeMore(BytesAll(ws) + rest, ws[0], others + rest, |ws| - 1);
    }
  }

  lemma DecodeMore(b: seq<byte>, w: Wire, tail: seq<byte>, n: nat)
    requires WellFormed(w) && b == Bytes(w) + tail && Decode(b) == Done(Interpret(w), |Bytes(w)|)
    requires DecodeItems(tail, n).Done?
    ensures
      var r := DecodeItems(tail, n);
      DecodeItems(b, n + 1) == Done([Interpret(w)] + r.value, |Bytes(w)| + r.size)
  {
    DecodeItemsSplit(w, tail, n);
  }

  /** Every strict prefix of a well-formed input asks for more bytes; none is taken for a value or rejected. */
  lemma {:induction false} PrefixAsksForMore(w: Wire, k: nat)
    requires WellFormed(w) && k < |Bytes(w)|
    ensures Decode(Bytes(w)[..k]) == More
    decreases w, 0
  {
    var n, p := 1 + WidthOf(w.tag), |w.payload|;
    if n + p <= k {
      PrefixesAskForMore(w.kids, k - n - p);
      KidsMissing(w, k);
    } else if n <= k {
      PayloadMissing(w, k);
    } else {
      HeadMissing(w, k);
    }
  }

  lemma PrefixParts(w: Wire, k: nat)
    requires WellFormed(w) && 1 + WidthOf(w.tag) + |w.payload| <= k <= |Bytes(w)|
    ensures
      Bytes(w)[..k] == HeadBytes(w.tag, w.raw) + w.payload + BytesAll(w.kids)[..k - 1 - WidthOf(w.tag) - |w.payload|]
  {
    PrefixOf(HeadBytes(w.tag, w.raw) + w.payload, BytesAll(w.kids), k);
  }

  /** The prefix ends within the nested inputs. */
  lemma KidsMissing(w: Wire, k: nat)
    requires WellFormed(w) && 1 + WidthOf(w.tag) + |w.payload| <= k < |Bytes(w)|
    requires DecodeItems(BytesAll(w.kids)[..k - 1 - WidthOf(w.tag) - |w.payload|], |w.kids|) == More
    ensures Decode(Bytes(w)[..k]) == More
  {
    PrefixParts(w, k);
    DecodeSplit(w.tag, w.raw, w.payload, BytesAll(w.kids)[..k - 1 - WidthOf(w.tag) - |w.payload|]);
  }

  /** It ends within the payload. */
  lemma PayloadMissing(w: Wire, k: nat)
    requires WellFormed(w) && 1 + WidthOf(w.tag) <= k < 1 + WidthOf(w.tag) + |w.payload|
    ensures Decode(Bytes(w)[..k]) == More
  {
    var hb := HeadBytes(w.tag, w.raw);
    PrefixOf(hb + w.payload, BytesAll(w.kids), k);
    PrefixOf(hb, w.payload, k);
    ReadHeadBack(w.tag, w.raw, w.payload[..k - |hb|]);
  }

  /** It ends within the head. */
  lemma HeadMissing(w: Wire, k: nat)
    requires WellFormed(w) && k < 1 + WidthOf(w.tag)
    ensures Decode(Bytes(w)[..k]) == More
  {
    if k > 0 { assert Bytes(w)[..k][0] == w.tag; }
  }

  lemma {:induction false} PrefixesAskForMore(ws: seq<Wire>, k: nat)
    requires AllWellFormed(ws)
    requires k < |BytesAll(ws)|
    ensures DecodeItems(BytesAll(ws)[..k], |ws|) == More
    decreases ws, 1
  {
    var n := |Bytes(ws[0])|;
    if k < n {
      PrefixAsksForMore(ws[0], k);
      WithinFirst(ws, k);
      FirstItemAsksForMore(BytesAll(ws)[..k], |ws|);
    } else {
      PrefixesAskForMore(ws[1..], k - n);
      FirstAndPart(ws, k);
      LaterItemAsksForMore(BytesAll(ws)[..k], ws[0], BytesAll(ws[1..])[..k - n], |ws| - 1);
    }
  }

  lemma WithinFirst(ws: seq<Wire>, k: nat)
    requires AllWellFormed(ws) && ws != [] && k < |Bytes(ws[0])|
    ensures |BytesAll(ws)| >= k && BytesAll(ws)[..k] == Bytes(ws[0])[..k]
  {
    PrefixOf(Bytes(ws[0]), BytesAll(ws[1..]), k);
  }

  lemma FirstAndPart(ws: seq<Wire>, k: nat)
    requires AllWellFormed(ws) && ws != [] && |Bytes(ws[0])| <= k <= |BytesAll(ws)|
    ensures BytesAll(ws)[..k] == Bytes(ws[0]) + BytesAll(ws[1..])[..k - |Bytes(ws[0])|]
  {
    PrefixOf(Bytes(ws[0]), BytesAll(ws[1..]), k);
  }

  lemma FirstItemAsksForMore(b: seq<byte>, n: nat)
    requires n > 0 && Decode(b) == More
    ensures DecodeItems(b, n) == More
  {
  }

  lemma LaterItemAsksForMore(b: seq<byte>, w: Wire, tail: seq<byte>, n: nat)
    requires WellFormed(w) && b == Bytes(w) + tail && DecodeItems(tail, n) == More
    ensures DecodeItems(b, n + 1) == More
  {
    DecodeWire(w, tail);
    DecodeItemsSplit(w, tail, n);
  }

  lemma HeadFromBytes(b: seq<byte>)
    requires ReadHead(b).Done?
    ensures
      var n := 1 + WidthOf(b[0]);
      var raw := FromBE(b[1..n]);
      && n == ReadHead(b).size && raw < Pow256(WidthOf(b[0]))
      && HeadOf(b[0], raw) == Some(ReadHead(b).value)
      && b[..n] == HeadBytes(b[0], raw)
  {
    var n := 1 + WidthOf(b[0]);
    ToFrom(b[1..n]);
  }

  /** Conversely, whatever the decoder accepts is the bytes of some well-formed input. */
  lemma {:induction false} AcceptedIsWire(b: seq<byte>) returns (w: Wire)
    requires Decode(b).Done?
    ensures WellFormed(w)
    ensures Bytes(w) == b[..Decode(b).size] && Interpret(w) == Decode(b).value
    decreases |b|, 0
  {
    var h, n := ReadHead(b).value, ReadHead(b).size;
    var p := PayloadSize(h);
    var tail := b[n + p..];
    var kids := AcceptedAreWires(tail, KidCount(h));
    w := RebuildWire(b, kids);
    SplitAt(b, n, p);
    SplitAt(b, n + p, |BytesAll(kids)|);
  }

  lemma {:induction false} AcceptedAreWires(b: seq<byte>, k: nat) returns (ws: seq<Wire>)
    requires DecodeItems(b, k).Done?
    ensures |ws| == k && AllWellFormed(ws)
    ensures BytesAll(ws) == b[..DecodeItems(b, k).size] && InterpretAll(ws) == DecodeItems(b, k).value
    decreases |b|, 1
  {
    if k == 0 {
      ws := [];
    } else {
      var n := Decode(b).size;
      var w := AcceptedIsWire(b);
      var rest := AcceptedAreWires(b[n..], k - 1);
      ws := [w] + rest;
      ConsWires(w, rest);
      SplitAt(b, n, DecodeItems(b[n..], k - 1).size);
    }
  }

  /** The well-formed input behind an accepted head and payload with the given nested inputs. */
  lemma RebuildWire(b: seq<byte>, kids: seq<Wire>) returns (w: Wire)
    requires Decode(b).Done? && AllWellFormed(kids)
    requires
      var h, n := ReadHead(b).value, ReadHead(b).size;
      && |kids| == KidCount(h)
      && DecodeItems(b[n + PayloadSize(h)..], KidCount(h)) == Done(InterpretAll(kids), |BytesAll(kids)|)
    ensures WellFormed(w) && Interpret(w) == Decode(b).value
    ensures
      var n := ReadHead(b).size;
      Bytes(w) == b[..n] + b[n..][..PayloadSize(ReadHead(b).value)] + BytesAll(kids)
  {
    var h, n := ReadHead(b).value, ReadHead(b).size;
    var payload := b[n..n + PayloadSize(h)];
    HeadFromBytes(b);
    w := Wire(b[0], FromBE(b[1..n]), payload, kids);
    Middle(b, n, PayloadSize(h));
    AssembledIsWellFormed(w, h);
    Assembles(w);
  }

  lemma Middle(b: seq<byte>, n: nat, p: nat)
    requires n + p <= |b|
    ensures b[n..n + p] == b[n..][..p]
  {
  }

  lemma AssembledIsWellFormed(w: Wire, h: Head)
    requires w.raw < Pow256(WidthOf(w.tag)) && HeadOf(w.tag, w.raw) == Some(h)
    requires |w.payload| == PayloadSize(h) && |w.kids| == KidCount(h) && AllWellFormed(w.kids)
    requires Assemble(h, w.payload, InterpretAll(w.kids)).Some?
    ensures WellFormed(w)
  {
    if h.Dict? {
      AssignTotal([], w.kids);
    }
  }
}
