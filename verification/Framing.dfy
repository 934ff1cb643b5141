/** Frames on the wire: the encoders, the incremental decoders and the one-shot parser. */
module Framing {
  import opened Basics

  type Byte = b: int | 0 <= b < 256

  const TWO_32 := 0x1_0000_0000

  // ---------------------------------------------------------------------------------------------
  // Big-endian sizes; writing one truncates it to 32 bits.

  function Write32(n: nat): (r: seq<Byte>)
    ensures |r| == 4
  {
    [n / 0x100_0000 % 256, n / 0x1_0000 % 256, n / 0x100 % 256, n % 256]
  }

  function Read32(s: seq<Byte>): nat
    requires |s| == 4
  {
    s[0] as int * 0x100_0000 + s[1] as int * 0x1_0000 + s[2] as int * 0x100 + s[3] as int
  }

  lemma ReadWrite(n: nat)
    ensures Read32(Write32(n)) == n % TWO_32
  {
    var a, b, c := n / 0x100, n / 0x1_0000, n / 0x100_0000;
    assert n == 0x100 * a + n % 0x100;
    assert a == 0x100 * b + a % 0x100 by { assert b == a / 0x100; }
    assert b == 0x100 * c + b % 0x100 by { assert c == b / 0x100; }
    var d := c / 256;
    assert c == 256 * d + c % 256;
    assert n == TWO_32 * d + Read32(Write32(n));
  }

  /** The number that four bytes stand for, most significant first. */
  function Number(b: seq<Byte>): nat
    requires |b| == 4
  {
    ((b[0] as int * 256 + b[1] as int) * 256 + b[2] as int) * 256 + b[3] as int
  }

  /** The four bytes of a size, most significant first. */
  lemma BigEndian(n: nat)
    ensures Number(Write32(n)) == n % TWO_32
  {
    ReadWrite(n);
  }

  // ---------------------------------------------------------------------------------------------
  // Serializers.

  /** What the codecs rely on: reading back what was written. */
  datatype Serializer<!M> = Serializer(write: M -> seq<Byte>, read: seq<Byte> -> Option<M>)

  ghost predicate Honest<M(!new)>(s: Serializer<M>) { forall m: M :: s.read(s.write(m)) == Some(m) }

  /** A message for another process: its metadata, and its data already in bytes. */
  datatype Frame<M> = Frame(metadata: M, data: seq<Byte>)

  function Body<M>(s: Serializer<M>, f: Frame<M>): seq<Byte> { s.write(f.metadata) + f.data }

  /** `encode` and `into_rbuf`. */
  function Encode<M>(s: Serializer<M>, f: Frame<M>): seq<Byte> {
    Write32(|s.write(f.metadata)|) + Write32(|f.data|) + Body(s, f)
  }

  function EncodeAll<M>(s: Serializer<M>, fs: seq<Frame<M>>): seq<Byte> {
    if fs == [] then [] else Encode(s, fs[0]) + EncodeAll(s, fs[1..])
  }

  ghost predicate Fits<M>(s: Serializer<M>, f: Frame<M>) { |s.write(f.metadata)| < TWO_32 && |f.data| < TWO_32 }

  /** What is on the wire: the size of the metadata, the size of the data, the metadata, the data. */
  lemma WireLayout<M>(s: Serializer<M>, f: Frame<M>)
    requires Fits(s, f)
    ensures var wire, m := Encode(s, f), |s.write(f.metadata)|;
      && |wire| == 8 + m + |f.data|
      && Number(wire[..4]) == m && Number(wire[4..8]) == |f.data|
      && wire[8..8 + m] == s.write(f.metadata) && wire[8 + m..] == f.data
  {
    hide Write32, Number;
    var m, d := |s.write(f.metadata)|, |f.data|;
    Slices(Write32(m), Write32(d), s.write(f.metadata), f.data);
    BigEndian(m);
    BigEndian(d);
  }

  lemma Slices(a: seq<Byte>, b: seq<Byte>, c: seq<Byte>, d: seq<Byte>)
    requires |a| == 4 && |b| == 4
    ensures var all := a + b + (c + d);
      && |all| == 8 + |c| + |d| && all[..4] == a && all[4..8] == b && all[8..8 + |c|] == c && all[8 + |c|..] == d
  {
  }

  // ---------------------------------------------------------------------------------------------
  // The incremental decoder.

  datatype Status = Header | Metadata(metadataSize: nat, dataSize: nat) | Data(dataSize: nat)

  datatype Codec<M> = Codec(status: Status, metadata: Option<M>)

  datatype Reply<M> = Got(frame: Frame<M>) | NeedMore | Malformed | Panicked

  const HEADER_SIZE := 8

  /** One call of `decode`: the codec, what is left of the buffer, and the reply. */
  function Decode<M>(s: Serializer<M>, c: Codec<M>, buf: seq<Byte>): (Codec<M>, seq<Byte>, Reply<M>)
    decreases match c.status case Header => 2 case Metadata(_, _) => 1 case Data(_) => 0
  {
    match c.status
    case Header =>
      if |buf| < HEADER_SIZE then (c, buf, NeedMore)
      else Decode(s, c.(status := Metadata(Read32(buf[..4]), Read32(buf[4..8]))), buf[8..])
    case Metadata(m, d) =>
      if |buf| < m then (c, buf, NeedMore)
      else (
        match s.read(buf[..m])
        case None => (c, buf[m..], Malformed)
        case Some(x) => Decode(s, Codec(Data(d), Some(x)), buf[m..]))
    case Data(d) =>
      if |buf| < d then (c, buf, NeedMore)
      else if c.metadata.None? then (c, buf[d..], Panicked)
      else (Codec(Header, None), buf[d..], Got(Frame(c.metadata.value, buf[..d])))
  }

  class MessageCodec<M> {
    const serializer: Serializer<M>
    var status: Status
    var metadata: Option<M>

    function Value(): Codec<M> reads this { Codec(status, metadata) }

    constructor (serializer: Serializer<M>)
      ensures Value() == Codec(Header, None) && this.serializer == serializer
    {
      this.serializer := serializer;
      status := Header;
      metadata := None;
    }

    method DecodeFrom(buf: seq<Byte>) returns (rest: seq<Byte>, r: Reply<M>)
      modifies this
      ensures (Value(), rest, r) == Decode(serializer, old(Value()), buf)
      decreases match status case Header => 2 case Metadata(_, _) => 1 case Data(_) => 0
    {
      match status {
        case Header =>
          if |buf| < HEADER_SIZE { return buf, NeedMore; }
          status := Metadata(Read32(buf[..4]), Read32(buf[4..8]));
          rest, r := DecodeFrom(buf[8..]);
        case Metadata(m, d) =>
          if |buf| < m { return buf, NeedMore; }
          var x := serializer.read(buf[..m]);
          if x.None? { return buf[m..], Malformed; }
          metadata := x;
          status := Data(d);
          rest, r := DecodeFrom(buf[m..]);
        case Data(d) =>
          if |buf| < d { return buf, NeedMore; }
          if metadata.None? { return buf[d..], Panicked; }
          var f := Frame(metadata.value, buf[..d]);
          metadata := None;
          status := Header;
          return buf[d..], Got(f);
      }
    }
  }

  // ---------------------------------------------------------------------------------------------
  // The decoder against the encoder.

  /** With `future` still to arrive, the decoder is about to produce exactly the frames fs. */
  ghost predicate InSync<M>(s: Serializer<M>, c: Codec<M>, buf: seq<Byte>, future: seq<Byte>, fs: seq<Frame<M>>) {
    match c.status
    case Header => c.metadata == None && buf + future == EncodeAll(s, fs)
    case Metadata(m, d) =>
      && fs != [] && c.metadata == None && m == |s.write(fs[0].metadata)| && d == |fs[0].data|
      && buf + future == Body(s, fs[0]) + EncodeAll(s, fs[1..])
    case Data(d) =>
      && fs != [] && c.metadata == Some(fs[0].metadata) && d == |fs[0].data|
      && buf + future == fs[0].data + EncodeAll(s, fs[1..])
  }

  /** How many bytes of the frame being decoded are still missing from its beginning. */
  function Remaining<M>(s: Serializer<M>, c: Codec<M>, f: Frame<M>): nat {
    match c.status
    case Header => |Encode(s, f)|
    case Metadata(_, _) => |Body(s, f)|
    case Data(_) => |f.data|
  }

  ghost predicate AllFit<M>(s: Serializer<M>, fs: seq<Frame<M>>) { forall f <- fs :: Fits(s, f) }

  lemma SyncData<M(!new)>(s: Serializer<M>, c: Codec<M>, buf: seq<Byte>, future: seq<Byte>, fs: seq<Frame<M>>)
    requires Honest(s) && InSync(s, c, buf, future, fs) && c.status.Data?
    ensures var (c', rest, r) := Decode(s, c, buf);
      if |buf| >= |fs[0].data| then r == Got(fs[0]) && InSync(s, c', rest, future, fs[1..])
      else r == NeedMore && c' == c && rest == buf
  {
    hide EncodeAll, Encode, Honest;
    var d := |fs[0].data|;
    if |buf| >= d {
      var all := buf + future;
      assert all[..d] == buf[..d] && all[..d] == fs[0].data;
      assert all[d..] == buf[d..] + future && all[d..] == EncodeAll(s, fs[1..]);
    }
  }

  lemma CutAt(buf: seq<Byte>, future: seq<Byte>, a: seq<Byte>, b: seq<Byte>, c: seq<Byte>)
    requires buf + future == a + b + c && |buf| >= |a|
    ensures buf[..|a|] == a && buf[|a|..] + future == b + c
  {
    var all := buf + future;
    assert all[..|a|] == buf[..|a|] && all[..|a|] == a;
    assert all[|a|..] == buf[|a|..] + future && all[|a|..] == b + c;
  }

  lemma ReadBack<M(!new)>(s: Serializer<M>, m: M)
    requires Honest(s)
    ensures s.read(s.write(m)) == Some(m)
  {
  }

  lemma SyncMetadata<M(!new)>(s: Serializer<M>, c: Codec<M>, buf: seq<Byte>, future: seq<Byte>, fs: seq<Frame<M>>)
    requires Honest(s) && InSync(s, c, buf, future, fs) && c.status.Metadata?
    ensures var (c', rest, r) := Decode(s, c, buf);
      if |buf| >= |Body(s, fs[0])| then r == Got(fs[0]) && InSync(s, c', rest, future, fs[1..])
      else r == NeedMore && InSync(s, c', rest, future, fs) && |rest| < Remaining(s, c', fs[0])
  {
    hide EncodeAll, Encode, Honest;
    var m := |s.write(fs[0].metadata)|;
    if |buf| >= m {
      ReadBack(s, fs[0].metadata);
      CutAt(buf, future, s.write(fs[0].metadata), fs[0].data, EncodeAll(s, fs[1..]));
      SyncData(s, Codec(Data(|fs[0].data|), Some(fs[0].metadata)), buf[m..], future, fs);
    }
  }

  lemma HeaderOf<M>(s: Serializer<M>, f: Frame<M>, rest: seq<Byte>)
    requires Fits(s, f)
    ensures var all := Encode(s, f) + rest;
      && Read32(all[..4]) == |s.write(f.metadata)| && Read32(all[4..8]) == |f.data|
      && all[8..] == Body(s, f) + rest
  {
    hide Read32, Write32, Body;
    ReadWrite(|s.write(f.metadata)|);
    ReadWrite(|f.data|);
    var all := Encode(s, f) + rest;
    assert all[..4] == Write32(|s.write(f.metadata)|);
    assert all[4..8] == Write32(|f.data|);
  }

  lemma SyncHeader<M(!new)>(s: Serializer<M>, c: Codec<M>, buf: seq<Byte>, future: seq<Byte>, fs: seq<Frame<M>>)
    requires Honest(s) && InSync(s, c, buf, future, fs) && c.status.Header? && fs != [] && Fits(s, fs[0])
    ensures var (c', rest, r) := Decode(s, c, buf);
      if |buf| >= |Encode(s, fs[0])| then r == Got(fs[0]) && InSync(s, c', rest, future, fs[1..])
      else r == NeedMore && InSync(s, c', rest, future, fs) && |rest| < Remaining(s, c', fs[0])
  {
    if |buf| >= HEADER_SIZE {
      var all := buf + future;
      HeaderOf(s, fs[0], EncodeAll(s, fs[1..]));
      assert all[..4] == buf[..4] && all[4..8] == buf[4..8] && all[8..] == buf[8..] + future;
      SyncMetadata(s, c.(status := Metadata(Read32(buf[..4]), Read32(buf[4..8]))), buf[8..], future, fs);
    }
  }

  /** One call of `decode` produces the next frame exactly when the whole of it is buffered, and never fails. */
  lemma DecodeInSync<M(!new)>(s: Serializer<M>, c: Codec<M>, buf: seq<Byte>, future: seq<Byte>, fs: seq<Frame<M>>)
    requires Honest(s) && AllFit(s, fs) && InSync(s, c, buf, future, fs)
    ensures var (c', rest, r) := Decode(s, c, buf);
      if fs != [] && |buf| >= Remaining(s, c, fs[0]) then r == Got(fs[0]) && InSync(s, c', rest, future, fs[1..])
      else r == NeedMore && InSync(s, c', rest, future, fs) && (fs != [] ==> |rest| < Remaining(s, c', fs[0]))
  {
    match c.status
    case Header =>
      if fs != [] {
        assert fs[0] in fs;
        SyncHeader(s, c, buf, future, fs);
      } else {
        assert |buf + future| == 0;
      }
    case Metadata(_, _) => SyncMetadata(s, c, buf, future, fs);
    case Data(_) => SyncData(s, c, buf, future, fs);
  }

  /** Calling `decode` until it asks for more (or fails): the codec, the rest of the buffer, and the frames. */
  function Drain<M>(s: Serializer<M>, c: Codec<M>, buf: seq<Byte>): (Codec<M>, seq<Byte>, seq<Frame<M>>)
    decreases |buf|, if c.status.Header? then 0 else 1
  {
    var (c', rest, r) := Decode(s, c, buf);
    DecodeShrinks(s, c, buf);
    if r.Got? then
      var (c'', rest', fs) := Drain(s, c', rest);
      (c'', rest', [r.frame] + fs)
    else (c', rest, [])
  }

  lemma DecodeShrinks<M>(s: Serializer<M>, c: Codec<M>, buf: seq<Byte>)
    ensures var (c', rest, r) := Decode(s, c, buf);
      |rest| <= |buf| && (r.Got? ==> c'.status.Header? && (c.status.Header? ==> |rest| < |buf|))
    decreases match c.status case Header => 2 case Metadata(_, _) => 1 case Data(_) => 0
  {
    match c.status
    case Header =>
      if |buf| >= HEADER_SIZE {
        DecodeShrinks(s, c.(status := Metadata(Read32(buf[..4]), Read32(buf[4..8]))), buf[8..]);
      }
    case Metadata(m, d) =>
      if |buf| >= m && s.read(buf[..m]).Some? {
        DecodeShrinks(s, Codec(Data(d), s.read(buf[..m])), buf[m..]);
      }
    case Data(d) =>
  }

  /** Draining yields the next frames in order and stops only when no whole frame is left. */
  lemma {:induction false} DrainInSync<M(!new)>(s: Serializer<M>, c: Codec<M>, buf: seq<Byte>, future: seq<Byte>, fs: seq<Frame<M>>)
    requires Honest(s) && AllFit(s, fs) && InSync(s, c, buf, future, fs)
    ensures var (c', rest, out) := Drain(s, c, buf);
      && out <= fs && InSync(s, c', rest, future, fs[|out|..])
      && (|out| < |fs| ==> |rest| < Remaining(s, c', fs[|out|]))
    decreases |fs|
  {
    hide InSync, Remaining, Decode;
    DecodeInSync(s, c, buf, future, fs);
    var (c', rest, r) := Decode(s, c, buf);
    if r.Got? {
      DrainInSync(s, c', rest, future, fs[1..]);
      var out := Drain(s, c', rest).2;
      assert fs == [fs[0]] + fs[1..];
      assert fs[1..][|out|..] == fs[|out| + 1..];
    } else {
      assert fs[0..] == fs;
    }
  }

  /** Reading from the network in chunks, draining the decoder after each. */
  function Feed<M>(s: Serializer<M>, c: Codec<M>, buf: seq<Byte>, chunks: seq<seq<Byte>>): (Codec<M>, seq<Byte>, seq<Frame<M>>)
    decreases |chunks|
  {
    if chunks == [] then (c, buf, [])
    else
      var (c', rest, out) := Drain(s, c, buf + chunks[0]);
      var (c'', rest', more) := Feed(s, c', rest, chunks[1..]);
      (c'', rest', out + more)
  }

  function Joined(chunks: seq<seq<Byte>>): seq<Byte> {
    if chunks == [] then [] else chunks[0] + Joined(chunks[1..])
  }

  lemma MoreArrives<M>(s: Serializer<M>, c: Codec<M>, buf: seq<Byte>, chunk: seq<Byte>, future: seq<Byte>, fs: seq<Frame<M>>)
    requires InSync(s, c, buf, chunk + future, fs)
    ensures InSync(s, c, buf + chunk, future, fs)
  {
    assert buf + chunk + future == buf + (chunk + future);
  }

  lemma {:induction false} FeedInSync<M(!new)>(s: Serializer<M>, c: Codec<M>, buf: seq<Byte>, chunks: seq<seq<Byte>>,
                                               future: seq<Byte>, fs: seq<Frame<M>>)
    requires Honest(s) && AllFit(s, fs) && InSync(s, c, buf, Joined(chunks) + future, fs)
    ensures var (c', rest, out) := Feed(s, c, buf, chunks);
      && out <= fs && InSync(s, c', rest, future, fs[|out|..])
      && (chunks != [] && |out| < |fs| ==> |rest| < Remaining(s, c', fs[|out|]))
    decreases |chunks|
  {
    hide InSync, Remaining, Drain;
    if chunks == [] {
      assert [] + future == future && fs[0..] == fs;
    } else {
      var later := Joined(chunks[1..]) + future;
      assert Joined(chunks) + future == chunks[0] + later;
      MoreArrives(s, c, buf, chunks[0], later, fs);
      DrainInSync(s, c, buf + chunks[0], later, fs);
      var (c', rest, out) := Drain(s, c, buf + chunks[0]);
      FeedInSync(s, c', rest, chunks[1..], future, fs[|out|..]);
      var more := Feed(s, c', rest, chunks[1..]).2;
      assert fs[|out|..][|more|..] == fs[|out + more|..];
      if |out + more| < |fs| { assert fs[|out|..][|more|] == fs[|out + more|]; }
    }
  }

  lemma SyncLength<M>(s: Serializer<M>, c: Codec<M>, buf: seq<Byte>, future: seq<Byte>, fs: seq<Frame<M>>)
    requires InSync(s, c, buf, future, fs)
    ensures fs != [] ==> |buf| + |future| == Remaining(s, c, fs[0]) + |EncodeAll(s, fs[1..])|
    ensures fs == [] ==> c == Codec(Header, None) && buf == [] && future == []
    ensures forall f :: Remaining(s, c, f) <= |Encode(s, f)|
  {
    var n := |buf + future|;
  }

  lemma Started<M>(s: Serializer<M>, future: seq<Byte>, fs: seq<Frame<M>>)
    requires future == EncodeAll(s, fs)
    ensures InSync(s, Codec(Header, None), [], future, fs)
  {
    assert [] + future == future;
  }

  /** Partial input: after any prefix of the stream exactly the frames wholly inside it have come out. */
  lemma PrefixTrip<M(!new)>(s: Serializer<M>, fs: seq<Frame<M>>, chunks: seq<seq<Byte>>, future: seq<Byte>)
    requires Honest(s) && AllFit(s, fs) && Joined(chunks) + future == EncodeAll(s, fs)
    ensures var out := Feed(s, Codec(Header, None), [], chunks).2;
      && out <= fs && |EncodeAll(s, out)| <= |Joined(chunks)|
      && (|out| < |fs| ==> |Joined(chunks)| < |EncodeAll(s, out)| + |Encode(s, fs[|out|])|)
  {
    hide InSync, Remaining, Feed, Honest, AllFit, EncodeAll, Joined;
    var c: Codec<M> := Codec(Header, None);
    Started(s, Joined(chunks) + future, fs);
    FeedInSync(s, c, [], chunks, future, fs);
    var (c', rest, out) := Feed(s, c, [], chunks);
    EncodeSplit(s, fs, |out|);
    assert fs[..|out|] == out;
    SyncLength(s, c', rest, future, fs[|out|..]);
    Nothing(s, c, chunks);
    EncodeHead(s, fs[|out|..]);
  }

  lemma EncodeHead<M>(s: Serializer<M>, fs: seq<Frame<M>>)
    ensures fs != [] ==> |EncodeAll(s, fs)| == |Encode(s, fs[0])| + |EncodeAll(s, fs[1..])| && |Encode(s, fs[0])| >= 8
    ensures fs == [] ==> EncodeAll(s, fs) == []
  {
  }

  lemma Nothing<M>(s: Serializer<M>, c: Codec<M>, chunks: seq<seq<Byte>>)
    ensures chunks == [] ==> Feed(s, c, [], chunks) == (c, [], []) && Joined(chunks) == []
  {
  }

  /** Round trip under any chunking: however the encoded frames are cut up, they come out in order, all of them,
      and the decoder is back where it started. */
  lemma RoundTrip<M(!new)>(s: Serializer<M>, fs: seq<Frame<M>>, chunks: seq<seq<Byte>>)
    requires Honest(s) && AllFit(s, fs) && Joined(chunks) == EncodeAll(s, fs)
    ensures Feed(s, Codec(Header, None), [], chunks) == (Codec(Header, None), [], fs)
  {
    hide InSync, Remaining, Feed, Honest, AllFit, EncodeAll, Joined;
    assert Joined(chunks) + [] == Joined(chunks);
    PrefixTrip(s, fs, chunks, []);
    Started(s, Joined(chunks) + [], fs);
    FeedInSync(s, Codec(Header, None), [], chunks, [], fs);
    var (c', rest, out) := Feed(s, Codec(Header, None), [], chunks);
    EncodeSplit(s, fs, |out|);
    assert fs[..|out|] == out;
    EncodeHead(s, fs[|out|..]);
    assert |out| == |fs|;
    assert out == fs;
    SyncLength(s, c', rest, [], fs[|out|..]);
  }

  lemma {:induction false} EncodeSplit<M>(s: Serializer<M>, fs: seq<Frame<M>>, k: nat)
    requires k <= |fs|
    ensures EncodeAll(s, fs) == EncodeAll(s, fs[..k]) + EncodeAll(s, fs[k..])
    decreases |fs|
  {
    if k == 0 {
      assert fs[..0] == [] && fs[0..] == fs;
    } else {
      EncodeSplit(s, fs[1..], k - 1);
      assert fs[1..][..k - 1] == fs[..k][1..] && fs[1..][k - 1..] == fs[k..];
    }
  }

  // ---------------------------------------------------------------------------------------------
  // The one-shot parser.

  /** `from_slice`: slicing the metadata out of a buffer that is too short panics before any length is checked. */
  function FromSlice<M>(s: Serializer<M>, buf: seq<Byte>): Reply<M> {
    if |buf| < HEADER_SIZE then Malformed
    else
      var m, d := Read32(buf[..4]), Read32(buf[4..8]);
      if |buf| < 8 + m then Panicked
      else
        match s.read(buf[8..8 + m])
        case None => Malformed
        case Some(x) => if |buf| - 8 - m < d then Malformed else Got(Frame(x, buf[8 + m..8 + m + d]))
  }

  lemma OneShotRoundTrip<M(!new)>(s: Serializer<M>, f: Frame<M>)
    requires Honest(s) && Fits(s, f)
    ensures FromSlice(s, Encode(s, f)) == Got(f)
  {
    HeaderOf(s, f, []);
    var buf := Encode(s, f);
    assert buf + [] == buf && Body(s, f) + [] == Body(s, f);
    var m := |s.write(f.metadata)|;
    assert buf[8..8 + m] == buf[8..][..m] == s.write(f.metadata);
    assert buf[8 + m..8 + m + |f.data|] == buf[8..][m..] == f.data;
  }

  /** A frame cut short panics exactly if it ends within the metadata, and is malformed otherwise: within the header or
      within the data. The serializer does not matter. */
  lemma TruncatedExactly<M>(s: Serializer<M>, f: Frame<M>, n: nat)
    requires Fits(s, f) && n < |Encode(s, f)|
    ensures FromSlice(s, Encode(s, f)[..n]) ==
      if 8 <= n < 8 + |s.write(f.metadata)| then Panicked else Malformed
  {
    hide Write32, Read32;
    var whole, m, d := Encode(s, f), |s.write(f.metadata)|, |f.data|;
    var buf := whole[..n];
    if n >= 8 {
      assert buf[..4] == Write32(m);
      assert buf[4..8] == Write32(d);
      ReadWrite(m);
      ReadWrite(d);
    }
  }

  /** What a new decoder replies to a buffer: it waits for the header, for the metadata and, unless the metadata cannot be
      read, for the data. */
  lemma DecodeReplies<M>(s: Serializer<M>, buf: seq<Byte>)
    ensures var r := Decode(s, Codec(Header, None), buf).2;
      if |buf| < 8 then r == NeedMore
      else
        var m, d := Number(buf[..4]), Number(buf[4..8]);
        if |buf| < 8 + m then r == NeedMore
        else if s.read(buf[8..8 + m]).None? then r == Malformed
        else if |buf| < 8 + m + d then r == NeedMore
        else r == Got(Frame(s.read(buf[8..8 + m]).value, buf[8 + m..8 + m + d]))
  {
    if |buf| >= 8 {
      var m, d := Read32(buf[..4]), Read32(buf[4..8]);
      if |buf| >= 8 + m {
        assert buf[8..][..m] == buf[8..8 + m];
        if |buf| >= 8 + m + d { assert buf[8..][m..][..d] == buf[8 + m..8 + m + d]; }
      }
    }
  }

  /** On every buffer whatsoever, the two parsers produce the same frames. */
  lemma ParsersAgree<M>(s: Serializer<M>, buf: seq<Byte>, f: Frame<M>)
    ensures Decode(s, Codec(Header, None), buf).2 == Got(f) <==> FromSlice(s, buf) == Got(f)
  {
    if |buf| >= HEADER_SIZE {
      var m, d := Read32(buf[..4]), Read32(buf[4..8]);
      if |buf| >= 8 + m {
        assert buf[8..][..m] == buf[8..8 + m];
        if |buf| - 8 - m >= d { assert buf[8..][m..][..d] == buf[8 + m..8 + m + d]; }
      }
    }
  }
}
