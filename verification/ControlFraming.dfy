/** Control messages on the wire: a 32-bit size, then the serialized message. */
module ControlFraming {
  import opened Basics
  import opened Framing

  function EncodeControl<M>(s: Serializer<M>, m: M): seq<Byte> { Write32(|s.write(m)|) + s.write(m) }

  function EncodeControls<M>(s: Serializer<M>, ms: seq<M>): seq<Byte> {
    if ms == [] then [] else EncodeControl(s, ms[0]) + EncodeControls(s, ms[1..])
  }

  /** What is on the wire: the size of the message, then the message. */
  lemma ControlLayout<M>(s: Serializer<M>, m: M)
    requires |s.write(m)| < TWO_32
    ensures var wire := EncodeControl(s, m); |wire| >= 4 && Number(wire[..4]) == |s.write(m)| && wire[4..] == s.write(m)
  {
    hide Write32;
    assert EncodeControl(s, m)[..4] == Write32(|s.write(m)|);
    BigEndian(|s.write(m)|);
  }

  datatype ControlReply<M> = Message(message: M) | Wait | Failed

  /** One call of `decode`; `size` is the size of the message being read, if it is known. A message that cannot be
      deserialized is unwrapped, which panics: `Failed`. */
  function DecodeControl<M>(s: Serializer<M>, size: Option<nat>, buf: seq<Byte>): (Option<nat>, seq<Byte>, ControlReply<M>)
    decreases size.None?
  {
    match size
    case None =>
      if |buf| < 4 then (None, buf, Wait) else DecodeControl(s, Some(Read32(buf[..4])), buf[4..])
    case Some(n) =>
      if |buf| < n then (size, buf, Wait)
      else
        match s.read(buf[..n])
        case None => (size, buf[n..], Failed)
        case Some(m) => (None, buf[n..], Message(m))
  }

  class ControlMessageCodec<M> {
    const serializer: Serializer<M>
    var msgSize: Option<nat>

    constructor (serializer: Serializer<M>)
      ensures msgSize == None && this.serializer == serializer
    {
      this.serializer := serializer;
      msgSize := None;
    }

    method TryReadMessage(buf: seq<Byte>) returns (rest: seq<Byte>, r: ControlReply<M>)
      requires msgSize.Some?
      modifies this
      ensures (msgSize, rest, r) == DecodeControl(serializer, old(msgSize), buf)
    {
      var n := msgSize.value;
      if |buf| < n { return buf, Wait; }
      var m := serializer.read(buf[..n]);
      if m.None? { return buf[n..], Failed; }
      msgSize := None;
      return buf[n..], Message(m.value);
    }

    method DecodeFrom(buf: seq<Byte>) returns (rest: seq<Byte>, r: ControlReply<M>)
      modifies this
      ensures (msgSize, rest, r) == DecodeControl(serializer, old(msgSize), buf)
    {
      if msgSize.Some? {
        rest, r := TryReadMessage(buf);
      } else if |buf| >= 4 {
        msgSize := Some(Read32(buf[..4]));
        rest, r := TryReadMessage(buf[4..]);
      } else {
        return buf, Wait;
      }
    }
  }

  /** With `future` still to arrive, the decoder is about to produce exactly the messages ms. */
  ghost predicate InStep<M>(s: Serializer<M>, size: Option<nat>, buf: seq<Byte>, future: seq<Byte>, ms: seq<M>) {
    match size
    case None => buf + future == EncodeControls(s, ms)
    case Some(n) =>
      ms != [] && n == |s.write(ms[0])| && buf + future == s.write(ms[0]) + EncodeControls(s, ms[1..])
  }

  ghost predicate Short<M>(s: Serializer<M>, ms: seq<M>) { forall m <- ms :: |s.write(m)| < TWO_32 }

  lemma StepMessage<M(!new)>(s: Serializer<M>, size: Option<nat>, buf: seq<Byte>, future: seq<Byte>, ms: seq<M>)
    requires Honest(s) && InStep(s, size, buf, future, ms) && size.Some?
    ensures var (size', rest, r) := DecodeControl(s, size, buf);
      if |buf| >= |s.write(ms[0])| then r == Message(ms[0]) && InStep(s, size', rest, future, ms[1..])
      else r == Wait && size' == size && rest == buf
  {
    hide EncodeControls, Honest;
    if |buf| >= |s.write(ms[0])| {
      ReadBack(s, ms[0]);
      assert s.write(ms[0]) + [] == s.write(ms[0]) && [] + EncodeControls(s, ms[1..]) == EncodeControls(s, ms[1..]);
      CutAt(buf, future, s.write(ms[0]), [], EncodeControls(s, ms[1..]));
    }
  }

  lemma StepSize<M(!new)>(s: Serializer<M>, buf: seq<Byte>, future: seq<Byte>, ms: seq<M>)
    requires Short(s, ms) && InStep(s, None, buf, future, ms) && |buf| >= 4
    ensures ms != [] && InStep(s, Some(Read32(buf[..4])), buf[4..], future, ms)
  {
    hide Read32, Write32;
    assert |buf + future| >= 4;
    assert ms[0] in ms;
    ReadWrite(|s.write(ms[0])|);
    CutAt(buf, future, Write32(|s.write(ms[0])|), s.write(ms[0]), EncodeControls(s, ms[1..]));
  }

  /** One call of `decode` produces the next message, or waits for bytes that are still to come; it never fails. */
  lemma ControlInStep<M(!new)>(s: Serializer<M>, size: Option<nat>, buf: seq<Byte>, future: seq<Byte>, ms: seq<M>)
    requires Honest(s) && Short(s, ms) && InStep(s, size, buf, future, ms)
    ensures var (size', rest, r) := DecodeControl(s, size, buf);
      match r
      case Message(m) => ms != [] && m == ms[0] && InStep(s, size', rest, future, ms[1..])
      case Wait => InStep(s, size', rest, future, ms) && (future == [] ==> ms == [])
      case Failed => false
  {
    assert future == [] ==> buf + future == buf;
    if size.Some? {
      StepMessage(s, size, buf, future, ms);
    } else if |buf| >= 4 {
      StepSize(s, buf, future, ms);
      StepMessage(s, Some(Read32(buf[..4])), buf[4..], future, ms);
      assert future == [] ==> buf[4..] + future == buf[4..];
    }
  }

  /** Calling `decode` until it waits. */
  function DrainControls<M>(s: Serializer<M>, size: Option<nat>, buf: seq<Byte>): (Option<nat>, seq<Byte>, seq<M>)
    decreases |buf|, size.Some?
  {
    var (size', rest, r) := DecodeControl(s, size, buf);
    if r.Message? then
      var (size'', rest', ms) := DrainControls(s, size', rest);
      (size'', rest', [r.message] + ms)
    else (size', rest, [])
  }

  function FeedControls<M>(s: Serializer<M>, size: Option<nat>, buf: seq<Byte>, chunks: seq<seq<Byte>>):
    (Option<nat>, seq<Byte>, seq<M>)
    decreases |chunks|
  {
    if chunks == [] then (size, buf, [])
    else
      var (size', rest, ms) := DrainControls(s, size, buf + chunks[0]);
      var (size'', rest', more) := FeedControls(s, size', rest, chunks[1..]);
      (size'', rest', ms + more)
  }

  lemma {:induction false} DrainInStep<M(!new)>(s: Serializer<M>, size: Option<nat>, buf: seq<Byte>, future: seq<Byte>, ms: seq<M>)
    requires Honest(s) && Short(s, ms) && InStep(s, size, buf, future, ms)
    ensures var (size', rest, out) := DrainControls(s, size, buf);
      out <= ms && InStep(s, size', rest, future, ms[|out|..]) && (future == [] ==> out == ms)
    decreases |ms|
  {
    hide InStep, DecodeControl, Honest;
    ControlInStep(s, size, buf, future, ms);
    var (size', rest, r) := DecodeControl(s, size, buf);
    if r.Message? {
      DrainInStep(s, size', rest, future, ms[1..]);
      var out := DrainControls(s, size', rest).2;
      assert ms == [ms[0]] + ms[1..];
      assert ms[1..][|out|..] == ms[|out| + 1..];
    } else {
      assert ms[0..] == ms;
    }
  }

  lemma {:induction false} FeedInStep<M(!new)>(s: Serializer<M>, size: Option<nat>, buf: seq<Byte>, chunks: seq<seq<Byte>>, ms: seq<M>)
    requires Honest(s) && Short(s, ms) && InStep(s, size, buf, Joined(chunks), ms) && chunks != []
    ensures var (size', rest, out) := FeedControls(s, size, buf, chunks);
      out == ms && InStep(s, size', rest, [], [])
    decreases |chunks|
  {
    hide DrainControls, Honest, EncodeControls;
    var later := Joined(chunks[1..]);
    assert buf + chunks[0] + later == buf + Joined(chunks);
    DrainInStep(s, size, buf + chunks[0], later, ms);
    var (size', rest, out) := DrainControls(s, size, buf + chunks[0]);
    if |chunks| > 1 {
      FeedInStep(s, size', rest, chunks[1..], ms[|out|..]);
      assert out + ms[|out|..] == ms;
    } else {
      assert later == [] && chunks[1..] == [];
    }
  }

  /** Round trip under any chunking. */
  lemma ControlRoundTrip<M(!new)>(s: Serializer<M>, ms: seq<M>, chunks: seq<seq<Byte>>)
    requires Honest(s) && Short(s, ms) && Joined(chunks) == EncodeControls(s, ms)
    ensures FeedControls(s, None, [], chunks) == (None, [], ms)
  {
    assert [] + Joined(chunks) == EncodeControls(s, ms);
    if chunks == [] {
      assert ms == [];
    } else {
      FeedInStep(s, None, [], chunks, ms);
      var (size, rest, out) := FeedControls(s, None, [], chunks);
      assert rest + [] == rest;
    }
  }
}
