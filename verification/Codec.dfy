/**
  packages/bridge/src/codec.ts: the three MessagePack-RPC message builders and the stream decoder that
  reassembles socket chunks, measuring what it consumed by re-encoding each decoded value.
 */
module Codec {
  import opened BigEndian
  import opened Common
  import opened Options
  import opened MsgPack
  import opened Smallest

  // ---------------------------------------------------------------- messages

  const MSG_REQUEST: SafeInt := 0
  const MSG_RESPONSE: SafeInt := 1
  const MSG_NOTIFY: SafeInt := 2

  function Request(msgid: SafeInt, name: seq<byte>, params: seq<Value>): Value {
    Arr([Int(MSG_REQUEST), Int(msgid), Str(name), Arr(params)])
  }

  function Response(msgid: SafeInt, error: Value, result: Value): Value {
    Arr([Int(MSG_RESPONSE), Int(msgid), error, result])
  }

  function Notify(name: seq<byte>, params: seq<Value>): Value {
    Arr([Int(MSG_NOTIFY), Str(name), Arr(params)])
  }

  predicate PlainCall(name: seq<byte>, params: seq<Value>) {
    |name| < 0x1_0000_0000 && |params| < 0x1_0000_0000 && AllPlain(params)
  }

  lemma PlainCons(v: Value, vs: seq<Value>)
    requires Plain(v) && AllPlain(vs)
    ensures AllPlain([v] + vs) && DepthAll([v] + vs) == Max(Depth(v), DepthAll(vs))
  {
    assert ([v] + vs)[1..] == vs;
  }

  lemma RequestPlain(msgid: SafeInt, name: seq<byte>, params: seq<Value>)
    requires PlainCall(name, params)
    ensures Plain(Request(msgid, name, params)) && Depth(Request(msgid, name, params)) == 2 + DepthAll(params)
    ensures Plain(Notify(name, params)) && Depth(Notify(name, params)) == 2 + DepthAll(params)
  {
    PlainCons(Arr(params), []);
    PlainCons(Str(name), [Arr(params)]);
    assert [Str(name)] + [Arr(params)] == [Str(name), Arr(params)];
    PlainCons(Int(MSG_NOTIFY), [Str(name), Arr(params)]);
    assert [Int(MSG_NOTIFY)] + [Str(name), Arr(params)] == [Int(MSG_NOTIFY), Str(name), Arr(params)];
    PlainCons(Int(msgid), [Str(name), Arr(params)]);
    assert [Int(msgid)] + [Str(name), Arr(params)] == [Int(msgid), Str(name), Arr(params)];
    PlainCons(Int(MSG_REQUEST), [Int(msgid), Str(name), Arr(params)]);
    assert [Int(MSG_REQUEST)] + [Int(msgid), Str(name), Arr(params)] ==
      [Int(MSG_REQUEST), Int(msgid), Str(name), Arr(params)];
  }

  lemma ResponsePlain(msgid: SafeInt, error: Value, result: Value)
    requires Plain(error) && Plain(result)
    ensures Plain(Response(msgid, error, result))
    ensures Depth(Response(msgid, error, result)) == 1 + Max(Depth(error), Depth(result))
  {
    PlainCons(result, []);
    PlainCons(error, [result]);
    assert [error] + [result] == [error, result];
    PlainCons(Int(msgid), [error, result]);
    assert [Int(msgid)] + [error, result] == [Int(msgid), error, result];
    PlainCons(Int(MSG_RESPONSE), [Int(msgid), error, result]);
    assert [Int(MSG_RESPONSE)] + [Int(msgid), error, result] == [Int(MSG_RESPONSE), Int(msgid), error, result];
  }

  function EncodeRequest(msgid: SafeInt, name: seq<byte>, params: seq<Value>): Option<seq<byte>>
    requires PlainCall(name, params)
  {
    RequestPlain(msgid, name, params);
    Encode(Request(msgid, name, params))
  }

  function EncodeResponse(msgid: SafeInt, error: Value, result: Value): Option<seq<byte>>
    requires Plain(error) && Plain(result)
  {
    ResponsePlain(msgid, error, result);
    Encode(Response(msgid, error, result))
  }

  function EncodeNotify(name: seq<byte>, params: seq<Value>): Option<seq<byte>>
    requires PlainCall(name, params)
  {
    RequestPlain(0, name, params);
    Encode(Notify(name, params))
  }

  /** The message array and the parameter array take two of the encoder's hundred levels. */
  lemma CallsEncodable(msgid: SafeInt, name: seq<byte>, params: seq<Value>)
    requires PlainCall(name, params)
    ensures EncodeRequest(msgid, name, params).Some? <==> DepthAll(params) <= 98
    ensures EncodeNotify(name, params).Some? <==> DepthAll(params) <= 98
  {
    RequestPlain(msgid, name, params);
  }

  lemma ResponsesEncodable(msgid: SafeInt, error: Value, result: Value)
    requires Plain(error) && Plain(result)
    ensures EncodeResponse(msgid, error, result).Some? <==> Depth(error) <= 99 && Depth(result) <= 99
  {
    ResponsePlain(msgid, error, result);
  }

  /**
    What a peer reads, whatever follows: the three shapes of the MessagePack-RPC specification, whole and in
    the order it gives.
   */
  lemma MessagesDecode(msgid: SafeInt, name: seq<byte>, params: seq<Value>, error: Value, result: Value,
                       rest: seq<byte>)
    requires PlainCall(name, params) && Plain(error) && Plain(result)
    ensures
      var r := EncodeRequest(msgid, name, params);
      r.Some? ==> Decode(r.value + rest) == Done(Arr([Int(0), Int(msgid), Str(name), Arr(params)]), |r.value|)
    ensures
      var r := EncodeResponse(msgid, error, result);
      r.Some? ==> Decode(r.value + rest) == Done(Arr([Int(1), Int(msgid), error, result]), |r.value|)
    ensures
      var r := EncodeNotify(name, params);
      r.Some? ==> Decode(r.value + rest) == Done(Arr([Int(2), Str(name), Arr(params)]), |r.value|)
  {
    RequestPlain(msgid, name, params);
    ResponsePlain(msgid, error, result);
    EncodeDecodes(Request(msgid, name, params), rest);
    EncodeDecodes(Response(msgid, error, result), rest);
    EncodeDecodes(Notify(name, params), rest);
  }

  // ---------------------------------------------------------------- stream decoder

  /**
    Everything the loop over `decodeMulti` sees: values until the buffer runs out, cannot be read on, or
    yields one that re-encoding throws on.
   */
  function DecodeAll(b: seq<byte>): seq<Value>
    decreases |b|
  {
    match Decode(b)
    case Done(v, n) => if TooDeep(v) then [v] else [v] + DecodeAll(b[n..])
    case _ => []
  }

  /** What the loop counts: re-encoded lengths, up to the value that throws. */
  function Consumed(vs: seq<Value>): nat {
    if vs == [] || TooDeep(vs[0]) then 0 else Measure(vs[0]) + Consumed(vs[1..])
  }

  /** `Uint8Array.slice(n)`, which yields an empty array past the end. */
  function Slice(b: seq<byte>, n: nat): seq<byte> {
    if n <= |b| then b[n..] else []
  }

  /** What one `feed` returns and leaves in the buffer. */
  function FeedOne(buffer: seq<byte>, chunk: seq<byte>): (seq<Value>, seq<byte>) {
    var b := buffer + chunk;
    (DecodeAll(b), Slice(b, Consumed(DecodeAll(b))))
  }

  function FeedAll(buffer: seq<byte>, chunks: seq<seq<byte>>): (seq<Value>, seq<byte>)
    decreases |chunks|
  {
    if chunks == [] then ([], buffer)
    else
      var (first, b) := FeedOne(buffer, chunks[0]);
      var (others, final) := FeedAll(b, chunks[1..]);
      (first + others, final)
  }

  function Concat(chunks: seq<seq<byte>>): seq<byte> {
    if chunks == [] then [] else chunks[0] + Concat(chunks[1..])
  }

  lemma {:induction false} ConsumedAppend(vs: seq<Value>, ws: seq<Value>)
    requires DepthAll(vs) <= MAX_DEPTH
    ensures Consumed(vs) == MeasureAll(vs) && Consumed(vs + ws) == MeasureAll(vs) + Consumed(ws)
  {
    if vs == [] {
      assert vs + ws == ws;
    } else {
      ConsumedAppend(vs[1..], ws);
      assert (vs + ws)[1..] == vs[1..] + ws;
    }
  }

  lemma {:induction false} DepthSnoc(vs: seq<Value>, v: Value)
    ensures DepthAll(vs + [v]) == Max(DepthAll(vs), Depth(v))
    ensures MeasureAll(vs + [v]) == MeasureAll(vs) + Measure(v)
  {
    if vs == [] {
      assert vs + [v] == [v] && [v][1..] == [];
    } else {
      DepthSnoc(vs[1..], v);
      assert (vs + [v])[1..] == vs[1..] + [v];
    }
  }

  /** `messages` has been yielded and measured, and `rest` is still to be decoded. */
  ghost predicate Yielded(b: seq<byte>, messages: seq<Value>, rest: seq<byte>) {
    DepthAll(messages) <= MAX_DEPTH && DecodeAll(b) == messages + DecodeAll(rest)
  }

  lemma NothingYielded(b: seq<byte>)
    ensures Yielded(b, [], b) && MeasureAll([]) == 0
  {
    assert [] + DecodeAll(b) == DecodeAll(b);
  }

  lemma YieldNext(b: seq<byte>, messages: seq<Value>, rest: seq<byte>, v: Value, n: nat)
    requires Yielded(b, messages, rest) && Decode(rest) == Done(v, n) && !TooDeep(v)
    ensures Yielded(b, messages + [v], rest[n..])
    ensures MeasureAll(messages + [v]) == MeasureAll(messages) + Measure(v)
  {
    DecodeAllNext(rest, v, n);
    Regroup(messages, [v], DecodeAll(rest[n..]));
    DepthSnoc(messages, v);
  }

  lemma DecodeAllNext(b: seq<byte>, v: Value, n: nat)
    requires Decode(b) == Done(v, n)
    ensures DecodeAll(b) == [v] + (if TooDeep(v) then [] else DecodeAll(b[n..]))
  {
  }

  lemma YieldedAll(b: seq<byte>, messages: seq<Value>, rest: seq<byte>)
    requires Yielded(b, messages, rest) && !Decode(rest).Done?
    ensures messages == DecodeAll(b) && Consumed(messages) == MeasureAll(messages)
  {
    ConsumedAppend(messages, []);
  }

  /** Re-encoding throws: the value has been returned, and counting stops before it. */
  lemma YieldedDeep(b: seq<byte>, messages: seq<Value>, rest: seq<byte>, v: Value, n: nat)
    requires Yielded(b, messages, rest) && Decode(rest) == Done(v, n) && TooDeep(v)
    ensures messages + [v] == DecodeAll(b) && Consumed(messages + [v]) == MeasureAll(messages)
  {
    DecodeAllNext(rest, v, n);
    ConsumedAppend(messages, [v]);
  }

  class StreamDecoder {
    var buffer: seq<byte>

    constructor ()
      ensures buffer == []
    {
      buffer := [];
    }

    method Feed(chunk: seq<byte>) returns (messages: seq<Value>)
      modifies this
      ensures (messages, buffer) == FeedOne(old(buffer), chunk)
    {
      var combined := buffer + chunk;
      buffer := combined;
      var bytesConsumed;
      messages, bytesConsumed := DecodeAndMeasure(combined);
      buffer := if bytesConsumed <= |buffer| then buffer[bytesConsumed..] else [];
    }

    /** The loop of `feed`; an error, in decoding or in re-encoding, ends it. */
    static method DecodeAndMeasure(combined: seq<byte>) returns (messages: seq<Value>, bytesConsumed: nat)
      ensures messages == DecodeAll(combined) && bytesConsumed == Consumed(messages)
    {
      messages, bytesConsumed := [], 0;
      var rest := combined;
      var next := Decode(rest);
      NothingYielded(combined);
      while next.Done?
        invariant Yielded(combined, messages, rest)
        invariant next == Decode(rest)
        invariant bytesConsumed == MeasureAll(messages)
        decreases |rest|
      {
        if TooDeep(next.value) {
          YieldedDeep(combined, messages, rest, next.value, next.size);
          messages := messages + [next.value];
          return;
        }
        YieldNext(combined, messages, rest, next.value, next.size);
        messages := messages + [next.value];
        bytesConsumed := bytesConsumed + Measure(next.value);
        rest := rest[next.size..];
        next := Decode(rest);
      }
      YieldedAll(combined, messages, rest);
    }
  }

  // ---------------------------------------------------------------- chunk invariance

  /** Inputs re-encoding measures exactly: no wide 32-bit float, smallest formats throughout. */
  ghost predicate Measurable(ws: seq<Wire>) {
    AllWellFormed(ws) && WidesAll(ws) == 0 && AllSmallest(ws)
  }

  /** No message is nested deeper than the encoder goes. */
  ghost predicate Shallow(ws: seq<Wire>)
    requires AllWellFormed(ws)
  {
    DepthAll(InterpretAll(ws)) <= MAX_DEPTH
  }

  ghost predicate DeepFirst(ws: seq<Wire>)
    requires AllWellFormed(ws)
  {
    ws != [] && TooDeep(Interpret(ws[0]))
  }

  /** `rest` is the strict prefix of the next message that has arrived; nothing when none is due. */
  ghost predicate Awaiting(todo: seq<Wire>, rest: seq<byte>)
    requires AllWellFormed(todo)
  {
    if todo == [] then rest == [] else |rest| < |Bytes(todo[0])| && rest <= Bytes(todo[0])
  }

  /** `rest` begins with a whole message that re-encoding throws on. */
  ghost predicate Stuck(todo: seq<Wire>, rest: seq<byte>)
    requires AllWellFormed(todo)
  {
    DeepFirst(todo) && Bytes(todo[0]) <= rest
  }

  /** A stream read up to `b`: the messages counted and those not. */
  ghost predicate Splits(ws: seq<Wire>, b: seq<byte>, done: seq<Wire>, todo: seq<Wire>, rest: seq<byte>) {
    && ws == done + todo && Measurable(done) && Shallow(done) && Measurable(todo)
    && b == BytesAll(done) + rest && (Awaiting(todo, rest) || Stuck(todo, rest))
  }

  lemma MeasurableCons(w: Wire, ws: seq<Wire>)
    requires WellFormed(w) && Wides(w) == 0 && IsSmallest(w) && Measurable(ws)
    ensures Measurable([w] + ws)
  {
    ConsWires(w, ws);
    assert ([w] + ws)[1..] == ws;
  }

  lemma SplitsCons(ws: seq<Wire>, later: seq<byte>, done: seq<Wire>, todo: seq<Wire>, rest: seq<byte>)
    requires ws != [] && Measurable(ws) && AllWellFormed(ws[1..]) && !DeepFirst(ws)
    requires Splits(ws[1..], later, done, todo, rest)
    ensures Splits(ws, Bytes(ws[0]) + later, [ws[0]] + done, todo, rest)
  {
    Regroup(Bytes(ws[0]), BytesAll(done), rest);
    Regroup([ws[0]], done, todo);
    assert ws == [ws[0]] + ws[1..];
    ConsWires(ws[0], done);
    MeasurableCons(ws[0], done);
  }

  lemma CutAfter(b: seq<byte>, first: seq<byte>, others: seq<byte>)
    requires b <= first + others
    ensures |b| < |first| ==> b <= first
    ensures |b| >= |first| ==> first <= b && b == first + b[|first|..] && b[|first|..] <= others
  {
    PrefixOf(first, others, |b|);
    if |b| >= |first| { assert b[|first|..] == others[..|b| - |first|]; }
  }

  /** Any prefix of a measurable stream splits into messages counted and one that is incomplete or stuck. */
  lemma {:induction false} SplitStream(ws: seq<Wire>, b: seq<byte>)
    returns (done: seq<Wire>, todo: seq<Wire>, rest: seq<byte>)
    requires Measurable(ws) && b <= BytesAll(ws)
    ensures Splits(ws, b, done, todo, rest)
    decreases |ws|
  {
    if ws == [] {
      done, todo, rest := [], [], [];
    } else {
      UnconsWires(ws);
      var first, others := Bytes(ws[0]), BytesAll(ws[1..]);
      CutAfter(b, first, others);
      if |b| < |first| || DeepFirst(ws) {
        done, todo, rest := [], ws, b;
      } else {
        var later := b[|first|..];
        done, todo, rest := SplitStream(ws[1..], later);
        SplitsCons(ws, later, done, todo, rest);
        done := [ws[0]] + done;
      }
    }
  }

  /** Complete messages are decoded one by one, whatever follows them. */
  lemma {:induction false} DecodeAllStream(ws: seq<Wire>, tail: seq<byte>)
    requires AllWellFormed(ws) && Shallow(ws)
    ensures DecodeAll(BytesAll(ws) + tail) == InterpretAll(ws) + DecodeAll(tail)
  {
    if ws == [] {
      assert BytesAll(ws) + tail == tail;
    } else {
      UnconsWires(ws);
      var later := BytesAll(ws[1..]) + tail;
      Regroup(Bytes(ws[0]), BytesAll(ws[1..]), tail);
      DecodeFirst(ws[0], later);
      DecodeAllStream(ws[1..], tail);
      Regroup([Interpret(ws[0])], InterpretAll(ws[1..]), DecodeAll(tail));
    }
  }

  lemma DecodeFirst(w: Wire, later: seq<byte>)
    requires WellFormed(w)
    ensures DecodeAll(Bytes(w) + later) == [Interpret(w)] + (if TooDeep(Interpret(w)) then [] else DecodeAll(later))
  {
    DecodeWire(w, later);
    DecodeAllNext(Bytes(w) + later, Interpret(w), |Bytes(w)|);
    assert (Bytes(w) + later)[|Bytes(w)|..] == later;
  }

  lemma AwaitingAsksForMore(todo: seq<Wire>, rest: seq<byte>)
    requires AllWellFormed(todo) && Awaiting(todo, rest)
    ensures Decode(rest) == More
  {
    if todo != [] {
      assert rest == Bytes(todo[0])[..|rest|];
      PrefixAsksForMore(todo[0], |rest|);
    }
  }

  /** What one more `feed` returns after the messages counted: the one it is stuck on, if any. */
  ghost function Again(todo: seq<Wire>, rest: seq<byte>): seq<Value>
    requires AllWellFormed(todo)
  {
    if Stuck(todo, rest) then [Interpret(todo[0])] else []
  }

  lemma DecodesRest(todo: seq<Wire>, rest: seq<byte>)
    requires AllWellFormed(todo) && (Awaiting(todo, rest) || Stuck(todo, rest))
    ensures DecodeAll(rest) == Again(todo, rest) && Consumed(Again(todo, rest)) == 0
  {
    if Stuck(todo, rest) {
      assert rest == Bytes(todo[0]) + rest[|Bytes(todo[0])|..];
      DecodeFirst(todo[0], rest[|Bytes(todo[0])|..]);
    } else {
      AwaitingAsksForMore(todo, rest);
    }
  }

  /** One `feed` on a split stream returns the messages it counts and the one it is stuck on, and keeps the rest. */
  lemma FeedSplit(ws: seq<Wire>, buffer: seq<byte>, chunk: seq<byte>, done: seq<Wire>, todo: seq<Wire>, rest: seq<byte>)
    requires Splits(ws, buffer + chunk, done, todo, rest)
    ensures FeedOne(buffer, chunk) == (InterpretAll(done) + Again(todo, rest), rest)
  {
    DecodesRest(todo, rest);
    DecodeAllStream(done, rest);
    ConsumedAppend(InterpretAll(done), Again(todo, rest));
    MeasureWires(done);
  }

  function Repeated(v: Value, n: nat): seq<Value> { if n == 0 then [] else [v] + Repeated(v, n - 1) }

  /**
    Once a message nested too deep heads the buffer, every `feed` returns it again, and neither it nor
    anything behind it is ever taken off the buffer.
   */
  lemma {:induction false} StuckForever(w: Wire, buffer: seq<byte>, chunks: seq<seq<byte>>)
    requires WellFormed(w) && TooDeep(Interpret(w)) && Bytes(w) <= buffer
    ensures FeedAll(buffer, chunks) == (Repeated(Interpret(w), |chunks|), buffer + Concat(chunks))
    decreases |chunks|
  {
    if chunks == [] {
      assert buffer + Concat(chunks) == buffer;
    } else {
      var b := buffer + chunks[0];
      FeedStuck(w, b);
      assert FeedOne(buffer, chunks[0]) == ([Interpret(w)], b);
      StuckForever(w, b, chunks[1..]);
      Regroup(buffer, chunks[0], Concat(chunks[1..]));
    }
  }

  lemma FeedStuck(w: Wire, b: seq<byte>)
    requires WellFormed(w) && TooDeep(Interpret(w)) && Bytes(w) <= b
    ensures DecodeAll(b) == [Interpret(w)] && Slice(b, Consumed(DecodeAll(b))) == b
  {
    assert b == Bytes(w) + b[|Bytes(w)|..];
    DecodeFirst(w, b[|Bytes(w)|..]);
  }

  /**
    What was returned: each message counted, once, then the one the decoder is stuck on, once for every `feed`
    since it arrived.
   */
  ghost predicate Returns(vs: seq<Value>, done: seq<Wire>, todo: seq<Wire>, rest: seq<byte>, again: nat)
    requires AllWellFormed(done) && AllWellFormed(todo)
  {
    && (again > 0 <==> Stuck(todo, rest))
    && vs == InterpretAll(done) + (if again > 0 then Repeated(Interpret(todo[0]), again) else [])
  }

  /**
    Chunk invariance at every moment: however a prefix of a stream was cut into chunks, its complete messages
    up to the first nested too deep have each been returned once, and the buffer holds exactly the rest.
   */
  lemma {:induction false} FeedPrefix(ws: seq<Wire>, buffer: seq<byte>, chunks: seq<seq<byte>>)
    returns (done: seq<Wire>, todo: seq<Wire>, again: nat)
    requires Measurable(ws) && Awaiting(ws, buffer) && buffer + Concat(chunks) <= BytesAll(ws)
    ensures Splits(ws, buffer + Concat(chunks), done, todo, FeedAll(buffer, chunks).1)
    ensures Returns(FeedAll(buffer, chunks).0, done, todo, FeedAll(buffer, chunks).1, again)
    decreases |chunks|
  {
    if chunks == [] {
      done, todo, again := [], ws, 0;
      assert buffer + Concat(chunks) == buffer;
    } else {
      var b, later := buffer + chunks[0], Concat(chunks[1..]);
      Regroup(buffer, chunks[0], later);
      var first, others, rest := SplitStream(ws, b);
      FeedSplit(ws, buffer, chunks[0], first, others, rest);
      if Stuck(others, rest) {
        done, todo, again := first, others, |chunks|;
        Regroup(BytesAll(first), rest, later);
        FeedStays(first, others, rest, chunks[1..]);
      } else {
        StillWithin(first, others, rest, later);
        done, todo, again := FeedPrefix(others, rest, chunks[1..]);
        FeedOn(first, others, rest, later, done, todo, FeedAll(rest, chunks[1..]), again);
        done := first + done;
      }
    }
  }

  lemma StillWithin(first: seq<Wire>, others: seq<Wire>, rest: seq<byte>, later: seq<byte>)
    requires Measurable(first) && Measurable(others) && AllWellFormed(first + others)
    requires BytesAll(first) + rest + later <= BytesAll(first + others)
    ensures rest + later <= BytesAll(others)
  {
    StreamAppend(first, others);
    Regroup(BytesAll(first), rest, later);
    StripPrefix(BytesAll(first), rest + later, BytesAll(others));
  }

  lemma FeedStays(done: seq<Wire>, todo: seq<Wire>, rest: seq<byte>, chunks: seq<seq<byte>>)
    requires AllWellFormed(done) && AllWellFormed(todo) && Stuck(todo, rest)
    ensures FeedAll(rest, chunks).1 == rest + Concat(chunks) && Stuck(todo, rest + Concat(chunks))
    ensures Returns(InterpretAll(done) + Again(todo, rest) + FeedAll(rest, chunks).0,
                    done, todo, rest + Concat(chunks), |chunks| + 1)
  {
    StuckForever(todo[0], rest, chunks);
    Regroup(InterpretAll(done), [Interpret(todo[0])], Repeated(Interpret(todo[0]), |chunks|));
  }

  /** Messages counted first, then those that follow. */
  lemma FeedOn(first: seq<Wire>, others: seq<Wire>, rest: seq<byte>, later: seq<byte>,
               done: seq<Wire>, todo: seq<Wire>, fed: (seq<Value>, seq<byte>), again: nat)
    requires Measurable(first) && Shallow(first)
    requires Splits(others, rest + later, done, todo, fed.1) && Returns(fed.0, done, todo, fed.1, again)
    ensures Splits(first + others, BytesAll(first) + rest + later, first + done, todo, fed.1)
    ensures Returns(InterpretAll(first) + [] + fed.0, first + done, todo, fed.1, again)
  {
    StreamAppend(first, done);
    DepthAppend(InterpretAll(first), InterpretAll(done));
    Regroup(BytesAll(first), rest, later);
    Regroup(BytesAll(first), BytesAll(done), fed.1);
    Regroup(first, done, todo);
    assert InterpretAll(first) + [] == InterpretAll(first);
    Regroup(InterpretAll(first), InterpretAll(done), if again > 0 then Repeated(Interpret(todo[0]), again) else []);
  }

  lemma {:induction false} DepthAppend(us: seq<Value>, vs: seq<Value>)
    ensures DepthAll(us + vs) == Max(DepthAll(us), DepthAll(vs))
  {
    if us == [] {
      assert us + vs == vs;
    } else {
      assert (us + vs)[1..] == us[1..] + vs;
      DepthAppend(us[1..], vs);
    }
  }

  lemma StripPrefix(a: seq<byte>, b: seq<byte>, c: seq<byte>)
    requires a + b <= a + c
    ensures b <= c
  {
    assert b == (a + b)[|a|..] && c == (a + c)[|a|..];
  }

  lemma {:induction false} StreamAppend(xs: seq<Wire>, ys: seq<Wire>)
    requires Measurable(xs) && Measurable(ys)
    ensures Measurable(xs + ys)
    ensures BytesAll(xs + ys) == BytesAll(xs) + BytesAll(ys)
    ensures InterpretAll(xs + ys) == InterpretAll(xs) + InterpretAll(ys)
  {
    if xs == [] {
      assert xs + ys == ys;
    } else {
      UnconsWires(xs);
      StreamAppend(xs[1..], ys);
      ConsAppended(xs, ys);
      Regroup(Bytes(xs[0]), BytesAll(xs[1..]), BytesAll(ys));
      Regroup([Interpret(xs[0])], InterpretAll(xs[1..]), InterpretAll(ys));
    }
  }

  lemma ConsAppended(xs: seq<Wire>, ys: seq<Wire>)
    requires xs != [] && Measurable(xs) && Measurable(xs[1..] + ys)
    ensures Measurable(xs + ys)
    ensures BytesAll(xs + ys) == Bytes(xs[0]) + BytesAll(xs[1..] + ys)
    ensures InterpretAll(xs + ys) == [Interpret(xs[0])] + InterpretAll(xs[1..] + ys)
  {
    assert xs + ys == [xs[0]] + (xs[1..] + ys);
    ConsWires(xs[0], xs[1..] + ys);
    MeasurableCons(xs[0], xs[1..] + ys);
  }

  /** The messages before the first one nested too deep, and those from it on. */
  ghost function Ahead(ws: seq<Wire>): (us: seq<Wire>)
    requires AllWellFormed(ws)
    ensures AllWellFormed(us)
  {
    if ws == [] || DeepFirst(ws) then [] else [ws[0]] + Ahead(ws[1..])
  }

  ghost function Behind(ws: seq<Wire>): (us: seq<Wire>)
    requires AllWellFormed(ws)
    ensures AllWellFormed(us)
  {
    if ws == [] || DeepFirst(ws) then ws else Behind(ws[1..])
  }

  lemma {:induction false} OnlySplit(done: seq<Wire>, todo: seq<Wire>)
    requires AllWellFormed(done) && AllWellFormed(todo) && AllWellFormed(done + todo)
    requires Shallow(done) && (todo == [] || DeepFirst(todo))
    ensures Ahead(done + todo) == done && Behind(done + todo) == todo
  {
    if done == [] {
      assert done + todo == todo;
    } else {
      assert (done + todo)[1..] == done[1..] + todo;
      OnlySplit(done[1..], todo);
    }
  }

  lemma {:induction false} NoneBehind(ws: seq<Wire>)
    requires AllWellFormed(ws)
    ensures Shallow(ws) <==> Behind(ws) == []
    ensures Behind(ws) == [] ==> Ahead(ws) == ws
  {
    if ws != [] && !DeepFirst(ws) {
      NoneBehind(ws[1..]);
      assert ws == [ws[0]] + ws[1..];
    }
  }

  /**
    Chunk invariance of a whole measurable stream: every split returns its messages and nothing more, if and
    only if none is nested too deep. Otherwise those ahead of the first such one are returned once, it again
    and again, and the buffer keeps everything from it on.
   */
  lemma ChunkInvariance(ws: seq<Wire>, chunks: seq<seq<byte>>) returns (again: nat)
    requires Measurable(ws) && Concat(chunks) == BytesAll(ws)
    ensures FeedAll([], chunks) == (InterpretAll(ws), []) <==> Shallow(ws)
    ensures FeedAll([], chunks).1 == BytesAll(Behind(ws))
    ensures Returns(FeedAll([], chunks).0, Ahead(ws), Behind(ws), BytesAll(Behind(ws)), again)
  {
    assert [] + Concat(chunks) == BytesAll(ws);
    var done, todo, n := FeedPrefix(ws, [], chunks);
    again := n;
    WholeStream(done, todo, FeedAll([], chunks).1);
    OnlySplit(done, todo);
    NoneBehind(ws);
    if todo == [] {
      assert done + todo == done && InterpretAll(done) + [] == InterpretAll(done);
    }
  }

  /** With the whole stream in, nothing is awaited: what is left is what the decoder is stuck on. */
  lemma WholeStream(done: seq<Wire>, todo: seq<Wire>, rest: seq<byte>)
    requires AllWellFormed(done + todo) && Splits(done + todo, BytesAll(done + todo), done, todo, rest)
    ensures rest == BytesAll(todo) && (todo == [] || DeepFirst(todo)) && (todo != [] ==> rest != [])
  {
    StreamAppend(done, todo);
    assert rest == BytesAll(todo) by { StripPrefix(BytesAll(done), rest, BytesAll(todo)); }
    if todo != [] { UnconsWires(todo); }
  }

  predicate Encodable(v: Value) { Plain(v) && !TooDeep(v) }

  predicate AllEncodable(vs: seq<Value>) { vs == [] || (Encodable(vs[0]) && AllEncodable(vs[1..])) }

  function EncodeAll(vs: seq<Value>): seq<byte>
    requires AllEncodable(vs)
  {
    if vs == [] then [] else Encode(vs[0]).value + EncodeAll(vs[1..])
  }

  lemma {:induction false} EncodeAllMeasurable(vs: seq<Value>)
    requires AllEncodable(vs)
    ensures AllPlain(vs) && DepthAll(vs) <= MAX_DEPTH
    ensures Measurable(WrittenAll(vs)) && InterpretAll(WrittenAll(vs)) == vs
    ensures BytesAll(WrittenAll(vs)) == EncodeAll(vs)
  {
    if vs != [] {
      EncodeDecodes(vs[0], []);
      WrittenFaithful(vs[0]);
      EncodeAllMeasurable(vs[1..]);
      ConsWires(Written(vs[0]), WrittenAll(vs[1..]));
      MeasurableCons(Written(vs[0]), WrittenAll(vs[1..]));
    }
  }

  /** Chunk invariance between two ends that both use the encoder. */
  lemma ChunkInvarianceOfEncoded(vs: seq<Value>, chunks: seq<seq<byte>>)
    requires AllEncodable(vs) && Concat(chunks) == EncodeAll(vs)
    ensures FeedAll([], chunks) == (vs, [])
  {
    EncodeAllMeasurable(vs);
    var _ := ChunkInvariance(WrittenAll(vs), chunks);
  }

  // ---------------------------------------------------------------- where measuring by re-encoding goes wrong

  /** A stream cut before its first message nested too deep. */
  lemma {:induction false} AheadBehind(ws: seq<Wire>)
    requires AllWellFormed(ws)
    ensures Shallow(Ahead(ws)) && (Behind(ws) == [] || DeepFirst(Behind(ws)))
    ensures BytesAll(ws) == BytesAll(Ahead(ws)) + BytesAll(Behind(ws))
    ensures AllSmallest(ws) ==> AllSmallest(Ahead(ws))
  {
    if ws != [] && !DeepFirst(ws) {
      AheadBehind(ws[1..]);
      AheadCons(ws);
      Regroup(Bytes(ws[0]), BytesAll(Ahead(ws[1..])), BytesAll(Behind(ws[1..])));
    }
  }

  lemma AheadCons(ws: seq<Wire>)
    requires ws != [] && AllWellFormed(ws) && AllWellFormed(ws[1..]) && !DeepFirst(ws)
    ensures Behind(ws) == Behind(ws[1..])
    ensures BytesAll(ws) == Bytes(ws[0]) + BytesAll(ws[1..])
    ensures BytesAll(Ahead(ws)) == Bytes(ws[0]) + BytesAll(Ahead(ws[1..]))
    ensures Shallow(Ahead(ws[1..])) ==> Shallow(Ahead(ws))
    ensures AllSmallest(ws) && AllSmallest(Ahead(ws[1..])) ==> AllSmallest(Ahead(ws))
  {
    ConsWires(ws[0], Ahead(ws[1..]));
    assert Ahead(ws)[1..] == Ahead(ws[1..]);
  }

  /** What one `feed` of a stream returns: everything up to and with its first message nested too deep. */
  ghost function Seen(ws: seq<Wire>): seq<Value>
    requires AllWellFormed(ws)
  {
    InterpretAll(Ahead(ws)) + (if Behind(ws) == [] then [] else [Interpret(Behind(ws)[0])])
  }

  /** And what it has not counted, with the bytes of the next message behind it. */
  ghost function Uncounted(ws: seq<Wire>, tail: seq<byte>): seq<byte>
    requires AllWellFormed(ws)
  {
    BytesAll(Behind(ws)) + tail
  }

  lemma DecodesUncounted(ws: seq<Wire>, tail: seq<byte>)
    requires AllWellFormed(ws) && (ws == [] || DeepFirst(ws)) && Decode(tail) == More
    ensures DecodeAll(BytesAll(ws) + tail) == if ws == [] then [] else [Interpret(ws[0])]
    ensures Consumed(DecodeAll(BytesAll(ws) + tail)) == 0
  {
    if ws == [] {
      assert BytesAll(ws) + tail == tail;
    } else {
      UnconsWires(ws);
      Regroup(Bytes(ws[0]), BytesAll(ws[1..]), tail);
      DecodeFirst(ws[0], BytesAll(ws[1..]) + tail);
    }
  }

  lemma FedOnce(ws: seq<Wire>, tail: seq<byte>)
    requires AllWellFormed(ws) && Decode(tail) == More
    ensures FeedOne([], BytesAll(ws) + tail) ==
      (Seen(ws), Slice(BytesAll(Ahead(ws)) + Uncounted(ws, tail), MeasureAll(InterpretAll(Ahead(ws)))))
  {
    AheadBehind(ws);
    Regroup(BytesAll(Ahead(ws)), BytesAll(Behind(ws)), tail);
    DecodesUncounted(Behind(ws), tail);
    FedAhead(Ahead(ws), Uncounted(ws, tail));
  }

  lemma FedAhead(ahead: seq<Wire>, rest: seq<byte>)
    requires AllWellFormed(ahead) && Shallow(ahead) && Consumed(DecodeAll(rest)) == 0
    ensures FeedOne([], BytesAll(ahead) + rest) ==
      (InterpretAll(ahead) + DecodeAll(rest), Slice(BytesAll(ahead) + rest, MeasureAll(InterpretAll(ahead))))
  {
    DecodeAllStream(ahead, rest);
    ConsumedAppend(InterpretAll(ahead), DecodeAll(rest));
    FirstFeed(BytesAll(ahead) + rest, InterpretAll(ahead) + DecodeAll(rest), MeasureAll(InterpretAll(ahead)));
  }

  lemma FirstFeed(b: seq<byte>, vs: seq<Value>, n: nat)
    requires DecodeAll(b) == vs && Consumed(vs) == n
    ensures FeedOne([], b) == (vs, Slice(b, n))
  {
    assert [] + b == b;
  }

  /**
    Without wide floats no byte after the messages counted is ever dropped, smallest formats or not, and the
    buffer holds nothing but what has arrived of the next message just when every message kept to smallest
    formats and none is nested too deep.
   */
  lemma NeverDropsLaterBytes(ws: seq<Wire>, tail: seq<byte>)
    requires AllWellFormed(ws) && Decode(tail) == More && WidesAll(Ahead(ws)) == 0
    ensures
      var rest := Uncounted(ws, tail);
      var messages, left := FeedOne([], BytesAll(ws) + tail).0, FeedOne([], BytesAll(ws) + tail).1;
      && messages == Seen(ws) && (Shallow(ws) <==> rest == tail)
      && |left| >= |rest| && left[|left| - |rest|..] == rest
      && (left == tail <==> AllSmallest(ws) && Shallow(ws))
  {
    FedOnce(ws, tail);
    AheadBehind(ws);
    NoneBehind(ws);
    MeasureWires(Ahead(ws));
    SliceWithin(BytesAll(Ahead(ws)), Uncounted(ws, tail), MeasureAll(InterpretAll(Ahead(ws))));
    if Shallow(ws) {
      assert [] + tail == tail;
    } else {
      UnconsWires(Behind(ws));
    }
  }

  lemma SliceWithin(a: seq<byte>, b: seq<byte>, n: nat)
    requires n <= |a|
    ensures
      var left := Slice(a + b, n);
      && |left| >= |b| && left[|left| - |b|..] == b && (left == b <==> n == |a|)
  {
    assert (a + b)[n..] == a[n..] + b;
  }

  lemma SlicePast(a: seq<byte>, b: seq<byte>, n: nat)
    ensures Slice(a + b, |a| + n) == Slice(b, n)
  {
    if n <= |b| { assert (a + b)[|a| + n..] == b[n..]; }
  }

  lemma SliceUpTo(a: seq<byte>, b: seq<byte>, n: nat, past: nat)
    requires n <= |a| + past
    ensures |Slice(a + b, n)| >= |b| - past
  {
  }

  /**
    In any stream at most four of the bytes not counted are lost to each wide float counted, and in one of
    smallest formats exactly that many, so those bytes survive whole if and only if there is no wide float
    among the messages counted or nothing is left uncounted.
   */
  lemma WideFloatsSwallow(ws: seq<Wire>, tail: seq<byte>)
    requires AllWellFormed(ws) && Decode(tail) == More
    ensures
      var lost, rest := 4 * WidesAll(Ahead(ws)), Uncounted(ws, tail);
      var messages, left := FeedOne([], BytesAll(ws) + tail).0, FeedOne([], BytesAll(ws) + tail).1;
      && messages == Seen(ws)
      && |left| >= |rest| - lost
      && (AllSmallest(ws) ==> left == Slice(rest, lost))
      && (AllSmallest(ws) ==> (left == rest <==> lost == 0 || rest == []))
  {
    var ahead, rest := Ahead(ws), Uncounted(ws, tail);
    FedOnce(ws, tail);
    AheadBehind(ws);
    MeasureWires(ahead);
    SliceUpTo(BytesAll(ahead), rest, MeasureAll(InterpretAll(ahead)), 4 * WidesAll(ahead));
    SlicePast(BytesAll(ahead), rest, 4 * WidesAll(ahead));
  }

  /** `n` one-element arrays around nil. */
  function Nested(n: nat): (v: Value)
    ensures Plain(v) && Depth(v) == n + 1
  {
    if n == 0 then Nil
    else
      var v := Nested(n - 1);
      PlainCons(v, []);
      assert [v] + [] == [v];
      Arr([v])
  }

  lemma DeepPlain(msgid: SafeInt, name: seq<byte>)
    requires |name| < 0x1_0000_0000
    ensures
      var v := Request(msgid, name, [Nested(98)]);
      PlainCall(name, [Nested(98)]) && Plain(v) && Depth(v) == 101 && Faithful(Written(v), v)
  {
    PlainCons(Nested(98), []);
    assert [Nested(98)] + [] == [Nested(98)];
    RequestPlain(msgid, name, [Nested(98)]);
    WrittenFaithful(Request(msgid, name, [Nested(98)]));
  }

  /** A request with a parameter of 99 levels, as an encoder without the limit would write it. */
  function DeepRequest(msgid: SafeInt, name: seq<byte>): seq<byte>
    requires |name| < 0x1_0000_0000
  {
    DeepPlain(msgid, name);
    Bytes(Written(Request(msgid, name, [Nested(98)])))
  }

  /**
    A request with a parameter of 99 levels: this side's encoder throws on it, and once it has arrived it is
    returned again with every later chunk, whatever that holds.
   */
  lemma DeepRequestRepeats(msgid: SafeInt, name: seq<byte>, chunks: seq<seq<byte>>)
    requires |name| < 0x1_0000_0000
    ensures PlainCall(name, [Nested(98)]) && EncodeRequest(msgid, name, [Nested(98)]) == None
    ensures
      var b := DeepRequest(msgid, name);
      FeedAll([], [b] + chunks) == (Repeated(Request(msgid, name, [Nested(98)]), |chunks| + 1), b + Concat(chunks))
  {
    DeepPlain(msgid, name);
    StuckFromStart(Written(Request(msgid, name, [Nested(98)])), chunks);
  }

  lemma StuckFromStart(w: Wire, chunks: seq<seq<byte>>)
    requires WellFormed(w) && TooDeep(Interpret(w))
    ensures FeedAll([], [Bytes(w)] + chunks) == (Repeated(Interpret(w), |chunks| + 1), Bytes(w) + Concat(chunks))
  {
    FeedStuck(w, Bytes(w));
    assert [] + Bytes(w) == Bytes(w) && ([Bytes(w)] + chunks)[1..] == chunks;
    StuckForever(w, Bytes(w), chunks);
  }

  lemma ScalarRead(b: seq<byte>, v: Value, n: nat)
    requires ReadHead(b) == Done(Scalar(v), n)
    ensures Decode(b) == Done(v, n)
  {
  }

  lemma ScalarStream(tag: byte, raw: nat, v: Value, rest: seq<byte>)
    requires raw < Pow256(WidthOf(tag)) && HeadOf(tag, raw) == Some(Scalar(v)) && !TooDeep(v)
    ensures DecodeAll(HeadBytes(tag, raw) + rest) == [v] + DecodeAll(rest)
  {
    ReadHeadBack(tag, raw, rest);
    var b, n := HeadBytes(tag, raw) + rest, 1 + WidthOf(tag);
    ScalarRead(b, v, n);
    DecodeAllNext(b, v, n);
    assert b[n..] == rest;
  }

  /**
    A small integer sent in 16-bit form is returned once, but its last two bytes stay in the buffer and
    come back as two messages nobody sent.
   */
  lemma LongFormReplayed(i: byte)
    requires i < 0x80
    ensures FeedOne([], [0xcd] + ToBE(i, 2)) == ([Int(i)], [0x00] + [i])
    ensures FeedOne([0x00] + [i], []) == ([Int(0), Int(i)], [])
  {
    LongFormRead(i);
    LeftoverRead(i);
  }

  lemma LongFormRead(i: byte)
    requires i < 0x80
    ensures FeedOne([], [0xcd] + ToBE(i, 2)) == ([Int(i)], [0x00] + [i])
  {
    Widths();
    var b := HeadBytes(0xcd, i);
    assert FormOf(0xcd) == Sized(UInt, 2);
    assert [] + ([0xcd] + ToBE(i, 2)) == b + [] == b;
    ScalarStream(0xcd, i, Int(i), []);
    assert DecodeAll([]) == [];
    assert DecodeAll(b) == [Int(i)] && [Int(i)][1..] == [];
    assert Consumed([Int(i)]) == 1;
    TwoBytes(i);
    assert b[1..] == ToBE(i, 2);
  }

  lemma LeftoverRead(i: byte)
    requires i < 0x80
    ensures FeedOne([0x00] + [i], []) == ([Int(0), Int(i)], [])
  {
    var b: seq<byte> := [0x00] + [i];
    assert b + [] == b == HeadBytes(0, 0) + [i];
    ScalarStream(0, 0, Int(0), [i]);
    assert [i] == HeadBytes(i, 0) + [];
    ScalarStream(i, 0, Int(i), []);
    assert DecodeAll([]) == [];
    assert DecodeAll(b) == [Int(0), Int(i)];
    assert [Int(0), Int(i)][1..] == [Int(i)] && [Int(i)][1..] == [];
    assert Consumed([Int(i)]) == 1;
  }

  /** Alone, a wide float is returned and takes up to four bytes of the next message with it. */
  lemma SingleSwallowsNext(bits: nat, tail: seq<byte>)
    requires bits < 0x1_0000_0000 && WideFloat(bits) && Decode(tail) == More
    ensures FeedOne([], [0xca] + ToBE(bits, 4) + tail) == ([FloatValue(4, bits)], Slice(tail, 4))
  {
    Widths();
    assert FormOf(0xca) == Sized(Float, 4);
    ScalarStream(0xca, bits, FloatValue(4, bits), tail);
    var b := [0xca] + ToBE(bits, 4) + tail;
    assert [] + b == b == HeadBytes(0xca, bits) + tail;
    assert DecodeAll(tail) == [] && DecodeAll(b) == [FloatValue(4, bits)];
    assert [FloatValue(4, bits)][1..] == [];
    assert Consumed([FloatValue(4, bits)]) == 9;
    SlicePast(HeadBytes(0xca, bits), tail, 4);
  }

  /** 1.5 is wide, being no integer. */
  lemma OnePointFiveIsSingle()
    ensures SingleAsInt(0x3fc0_0000) == None && WideFloat(0x3fc0_0000)
  {
    var bits := 0x3fc0_0000;
    assert bits / 0x80_0000 % 256 == 127 && bits % 0x80_0000 == 0x40_0000;
    assert Pow2(23) == 0x80_0000 by {
      assert Pow2(8) == 256;
      assert Pow2(16) == 65536;
    }
  }

  /** So is 2 to the 33rd, a safe integer; 2 to the 31st, of 32 bits, is not, and is measured exactly. */
  lemma IntegersBeyond32BitsAreWide()
    ensures SingleAsInt(0x5000_0000) == Some(0x2_0000_0000) && WideFloat(0x5000_0000)
    ensures SingleAsInt(0x4f00_0000) == Some(0x8000_0000) && !WideFloat(0x4f00_0000) && SmallestHead(0xca, 0x4f00_0000)
  {
    assert 0x5000_0000 / 0x80_0000 % 256 == 160 && 0x5000_0000 % 0x80_0000 == 0;
    assert 0x4f00_0000 / 0x80_0000 % 256 == 158 && 0x4f00_0000 % 0x80_0000 == 0;
    assert Pow2(8) == 256 && Pow2(10) == 1024;
    assert Pow2(0) == 1;
  }
}
