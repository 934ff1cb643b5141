/** Compiling the dataflow graph: channels for reader slots, aliases, scheduling and endpoints. */
module Dataflows {
  import opened ControlMessages

  type StreamId = int

  datatype Vertex = Driver(node: NodeId) | Operator(id: OperatorId)

  datatype Kind = InterThread | InterNode | Unscheduled

  datatype Channel = Channel(kind: Kind, stream: StreamId, source: Vertex, sink: Vertex)

  datatype OperatorInfo = OperatorInfo(node: NodeId, readIds: seq<StreamId>)

  datatype StreamInfo = StreamInfo(source: Vertex, channels: seq<Channel>)

  datatype Dataflow = Dataflow(
    operators: map<OperatorId, OperatorInfo>,
    drivers: map<NodeId, seq<StreamId>>,
    streams: map<StreamId, StreamInfo>,
    aliases: map<StreamId, StreamId>
  )

  const EMPTY_DATAFLOW := Dataflow(map[], map[], map[], map[])

  /** One step of alias resolution. */
  function Resolve(aliases: map<StreamId, StreamId>, s: StreamId): StreamId {
    if s in aliases then aliases[s] else s
  }

  predicate Targeted(aliases: map<StreamId, StreamId>, s: StreamId) { exists f <- aliases :: aliases[f] == s }

  function ResolveAll(aliases: map<StreamId, StreamId>, ids: seq<StreamId>): seq<StreamId> {
    seq(|ids|, i requires 0 <= i < |ids| => Resolve(aliases, ids[i]))
  }

  /** How many of the ids resolve to s. */
  function CountIn(aliases: map<StreamId, StreamId>, ids: seq<StreamId>, s: StreamId): nat {
    if ids == [] then 0
    else CountIn(aliases, ids[..|ids| - 1], s) + if Resolve(aliases, ids[|ids| - 1]) == s then 1 else 0
  }

  function ReadIds(g: Dataflow, v: Vertex): seq<StreamId> {
    match v
    case Operator(o) => if o in g.operators then g.operators[o].readIds else []
    case Driver(n) => if n in g.drivers then g.drivers[n] else []
  }

  /** The reader slots of vertex v that resolve to stream s. */
  function Slots(g: Dataflow, s: StreamId, v: Vertex): nat { CountIn(g.aliases, ReadIds(g, v), s) }

  /** The reader slots of vertex v that name s itself. */
  function Named(g: Dataflow, s: StreamId, v: Vertex): nat { CountIn(map[], ReadIds(g, v), s) }

  function SinkCount(cs: seq<Channel>, v: Vertex): nat {
    if cs == [] then 0 else SinkCount(cs[..|cs| - 1], v) + if cs[|cs| - 1].sink == v then 1 else 0
  }

  predicate Belongs(s: StreamId, source: Vertex, c: Channel) {
    c.kind == Unscheduled && c.stream == s && c.source == source
  }

  /** One channel for each reader slot, on the stream the slot resolves to. */
  ghost predicate Matched(g: Dataflow, s: StreamId)
    requires s in g.streams
  {
    && (forall v :: SinkCount(g.streams[s].channels, v) == Slots(g, s, v))
    && (forall c <- g.streams[s].channels :: Belongs(s, g.streams[s].source, c))
  }

  /** Aliases are one step long: from a stream that is gone to one that is there. */
  ghost predicate OneStep(g: Dataflow) {
    forall f <- g.aliases :: f !in g.streams && g.aliases[f] in g.streams
  }

  ghost predicate Conserved(g: Dataflow) { OneStep(g) && forall s <- g.streams :: Matched(g, s) }

  // ---------------------------------------------------------------------------------------------
  // Counting.

  lemma {:induction false} SinkCountAppend(a: seq<Channel>, b: seq<Channel>, v: Vertex)
    ensures SinkCount(a + b, v) == SinkCount(a, v) + SinkCount(b, v)
  {
    if b == [] {
      assert a + b == a;
    } else {
      SinkCountAppend(a, b[..|b| - 1], v);
      assert (a + b)[..|a + b| - 1] == a + b[..|b| - 1];
    }
  }

  lemma {:induction false} CountAppend(aliases: map<StreamId, StreamId>, a: seq<StreamId>, b: seq<StreamId>, s: StreamId)
    ensures CountIn(aliases, a + b, s) == CountIn(aliases, a, s) + CountIn(aliases, b, s)
  {
    if b == [] {
      assert a + b == a;
    } else {
      CountAppend(aliases, a, b[..|b| - 1], s);
      assert (a + b)[..|a + b| - 1] == a + b[..|b| - 1];
    }
  }

  /** Resolving twice is resolving once, as long as aliases are one step long. */
  lemma {:induction false} CountResolved(g: Dataflow, ids: seq<StreamId>, s: StreamId)
    requires OneStep(g)
    ensures CountIn(g.aliases, ResolveAll(g.aliases, ids), s) == CountIn(g.aliases, ids, s)
    ensures CountIn(map[], ResolveAll(g.aliases, ids), s) == CountIn(g.aliases, ids, s)
  {
    if ids != [] {
      var rs := ResolveAll(g.aliases, ids);
      CountResolved(g, ids[..|ids| - 1], s);
      assert rs[..|rs| - 1] == ResolveAll(g.aliases, ids[..|ids| - 1]);
    }
  }

  /** Setting an alias moves exactly the slots that name its source, away from where they resolved before. */
  lemma {:induction false} CountAliased(aliases: map<StreamId, StreamId>, from: StreamId, to: StreamId, ids: seq<StreamId>, s: StreamId)
    ensures CountIn(aliases[from := to], ids, s) + (if s == Resolve(aliases, from) then CountIn(map[], ids, from) else 0)
      == CountIn(aliases, ids, s) + (if s == to then CountIn(map[], ids, from) else 0)
  {
    if ids != [] {
      CountAliased(aliases, from, to, ids[..|ids| - 1], s);
    }
  }

  /** Where nothing is aliased to or from s, only its own name resolves to it. */
  lemma {:induction false} CountPlain(aliases: map<StreamId, StreamId>, ids: seq<StreamId>, s: StreamId)
    requires s !in aliases && !Targeted(aliases, s)
    ensures CountIn(aliases, ids, s) == CountIn(map[], ids, s)
  {
    if ids != [] {
      CountPlain(aliases, ids[..|ids| - 1], s);
    }
  }

  function Copies(n: nat, c: Channel): seq<Channel> { seq(n, _ => c) }

  lemma {:induction false} SinkCountCopies(n: nat, c: Channel, v: Vertex)
    ensures SinkCount(Copies(n, c), v) == if c.sink == v then n else 0
  {
    if n > 0 {
      SinkCountCopies(n - 1, c, v);
      assert Copies(n, c)[..n - 1] == Copies(n - 1, c);
    }
  }

  // ---------------------------------------------------------------------------------------------
  // Registration.

  function Extended(info: StreamInfo, s: StreamId, sink: Vertex, n: nat): StreamInfo {
    info.(channels := info.channels + Copies(n, Channel(Unscheduled, s, info.source, sink)))
  }

  function AddOperator(g: Dataflow, id: OperatorId, node: NodeId, ids: seq<StreamId>): Dataflow {
    var rs := ResolveAll(g.aliases, ids);
    g.(operators := g.operators[id := OperatorInfo(node, rs)],
       streams := map s <- g.streams :: Extended(g.streams[s], s, Operator(id), CountIn(map[], rs, s)))
  }

  function AddExtract(g: Dataflow, n: NodeId, s: StreamId): Dataflow {
    g.(drivers := g.drivers[n := (if n in g.drivers then g.drivers[n] else []) + [s]],
       streams := if s in g.streams then g.streams[s := Extended(g.streams[s], s, Driver(n), 1)] else g.streams)
  }

  function AddDriver(g: Dataflow, n: NodeId): Dataflow {
    if n in g.drivers then g else g.(drivers := g.drivers[n := []])
  }

  /** A new stream gets a channel for every slot that already names it; operators and drivers are visited in any order. */
  ghost predicate AddedStream(g: Dataflow, s: StreamId, source: Vertex, g': Dataflow) {
    && s in g'.streams && g' == g.(streams := g.streams[s := g'.streams[s]]) && g'.streams[s].source == source
    && (forall v :: SinkCount(g'.streams[s].channels, v) == Named(g, s, v))
    && (forall c <- g'.streams[s].channels :: Belongs(s, source, c))
  }

  function Moved(cs: seq<Channel>, to: StreamId, source: Vertex): seq<Channel> {
    seq(|cs|, i requires 0 <= i < |cs| => Channel(Unscheduled, to, source, cs[i].sink))
  }

  datatype AliasResult = Aliased | NoSuchStream | Panicked

  function AddAlias(g: Dataflow, from: StreamId, to: StreamId): (Dataflow, AliasResult) {
    if to !in g.streams then (g, NoSuchStream)
    else if from !in g.streams then (g.(aliases := g.aliases[from := to]), Aliased)
    else if from == to then (g.(aliases := g.aliases[from := to], streams := g.streams - {from}), Panicked)
    else
      var info := g.streams[to];
      var merged := info.(channels := info.channels + Moved(g.streams[from].channels, to, info.source));
      (g.(aliases := g.aliases[from := to], streams := (g.streams - {from})[to := merged]), Aliased)
  }

  // ---------------------------------------------------------------------------------------------
  // Each registration keeps one channel per slot.

  lemma AddOperatorConserves(g: Dataflow, id: OperatorId, node: NodeId, ids: seq<StreamId>)
    requires Conserved(g) && id !in g.operators
    ensures Conserved(AddOperator(g, id, node, ids))
  {
    var g' := AddOperator(g, id, node, ids);
    forall s <- g'.streams ensures Matched(g', s) {
      assert Matched(g, s);
      OperatorMatched(g, id, node, ids, s);
    }
  }

  lemma OperatorMatched(g: Dataflow, id: OperatorId, node: NodeId, ids: seq<StreamId>, s: StreamId)
    requires OneStep(g) && s in g.streams && Matched(g, s) && id !in g.operators
    ensures Matched(AddOperator(g, id, node, ids), s)
  {
    var g', rs := AddOperator(g, id, node, ids), ResolveAll(g.aliases, ids);
    var c := Channel(Unscheduled, s, g.streams[s].source, Operator(id));
    var n := CountIn(map[], rs, s);
    CountResolved(g, ids, s);
    forall v ensures SinkCount(g'.streams[s].channels, v) == Slots(g', s, v) {
      SinkCountAppend(g.streams[s].channels, Copies(n, c), v);
      SinkCountCopies(n, c, v);
      assert SinkCount(g.streams[s].channels, v) == Slots(g, s, v);
      if v == Operator(id) {
        assert ReadIds(g', v) == rs && ReadIds(g, v) == [];
      } else {
        assert ReadIds(g', v) == ReadIds(g, v);
      }
    }
  }

  lemma AddStreamConserves(g: Dataflow, s: StreamId, source: Vertex, g': Dataflow)
    requires Conserved(g) && s !in g.streams && s !in g.aliases && AddedStream(g, s, source, g')
    ensures Conserved(g')
  {
    forall r <- g'.streams ensures Matched(g', r) {
      if r == s {
        assert !Targeted(g.aliases, s);
        forall v ensures SinkCount(g'.streams[s].channels, v) == Slots(g', s, v) {
          CountPlain(g.aliases, ReadIds(g, v), s);
          assert ReadIds(g', v) == ReadIds(g, v);
        }
      } else {
        assert Matched(g, r);
        forall v ensures ReadIds(g', v) == ReadIds(g, v) {}
      }
    }
  }

  lemma AddDriverConserves(g: Dataflow, n: NodeId)
    requires Conserved(g)
    ensures Conserved(AddDriver(g, n))
  {
    var g' := AddDriver(g, n);
    forall v ensures ReadIds(g', v) == ReadIds(g, v) {}
    forall r <- g'.streams ensures Matched(g', r) { assert Matched(g, r); }
  }

  lemma ExtractSlots(g: Dataflow, n: NodeId, s: StreamId, r: StreamId, v: Vertex)
    ensures Slots(AddExtract(g, n, s), r, v) == Slots(g, r, v) + if v == Driver(n) && r == Resolve(g.aliases, s) then 1 else 0
  {
    var g' := AddExtract(g, n, s);
    if v == Driver(n) {
      CountAppend(g.aliases, ReadIds(g, v), [s], r);
      assert [s][..0] == [];
      assert ReadIds(g', v) == ReadIds(g, v) + [s];
    } else {
      assert ReadIds(g', v) == ReadIds(g, v);
    }
  }

  lemma ExtractMatched(g: Dataflow, n: NodeId, s: StreamId, r: StreamId)
    requires r in g.streams && Matched(g, r) && s !in g.aliases
    ensures Matched(AddExtract(g, n, s), r)
  {
    var g' := AddExtract(g, n, s);
    var c := Channel(Unscheduled, r, g.streams[r].source, Driver(n));
    forall v ensures SinkCount(g'.streams[r].channels, v) == Slots(g', r, v) {
      assert SinkCount(g.streams[r].channels, v) == Slots(g, r, v);
      if r == s {
        SinkCountAppend(g.streams[r].channels, Copies(1, c), v);
        SinkCountCopies(1, c, v);
      }
      ExtractSlots(g, n, s, r, v);
    }
  }

  /** An extract stream does not resolve its id when it makes its channel, although taking an endpoint does: it keeps one
      channel per slot exactly if the id is not that of a loop that has been set. */
  lemma AddExtractExactly(g: Dataflow, n: NodeId, s: StreamId)
    requires Conserved(g)
    ensures Conserved(AddExtract(g, n, s)) <==> s !in g.aliases
  {
    var g' := AddExtract(g, n, s);
    if s in g.aliases {
      var t := g.aliases[s];
      assert Matched(g, t);
      assert SinkCount(g'.streams[t].channels, Driver(n)) == Slots(g, t, Driver(n));
      ExtractSlots(g, n, s, t, Driver(n));
      assert !Matched(g', t);
    } else {
      forall r <- g'.streams ensures Matched(g', r) {
        assert Matched(g, r);
        ExtractMatched(g, n, s, r);
      }
    }
  }

  lemma {:induction false} SinkCountMoved(cs: seq<Channel>, to: StreamId, source: Vertex, v: Vertex)
    ensures SinkCount(Moved(cs, to, source), v) == SinkCount(cs, v)
  {
    if cs != [] {
      SinkCountMoved(cs[..|cs| - 1], to, source, v);
      assert Moved(cs, to, source)[..|cs| - 1] == Moved(cs[..|cs| - 1], to, source);
    }
  }

  lemma MergedMatched(g: Dataflow, from: StreamId, to: StreamId)
    requires from in g.streams && to in g.streams && from != to && from !in g.aliases && !Targeted(g.aliases, from)
    requires Matched(g, from) && Matched(g, to)
    ensures to in AddAlias(g, from, to).0.streams && Matched(AddAlias(g, from, to).0, to)
  {
    var g' := AddAlias(g, from, to).0;
    var a, b := g.streams[to].channels, Moved(g.streams[from].channels, to, g.streams[to].source);
    assert g'.streams[to].channels == a + b;
    forall v ensures SinkCount(g'.streams[to].channels, v) == Slots(g', to, v) {
      SinkCountAppend(a, b, v);
      SinkCountMoved(g.streams[from].channels, to, g.streams[to].source, v);
      assert SinkCount(g.streams[from].channels, v) == Slots(g, from, v) && SinkCount(a, v) == Slots(g, to, v);
      CountAliased(g.aliases, from, to, ReadIds(g, v), to);
      CountPlain(g.aliases, ReadIds(g, v), from);
      assert ReadIds(g', v) == ReadIds(g, v);
    }
  }

  /** Streams the alias does not point to or away from. */
  lemma OtherMatched(g: Dataflow, from: StreamId, to: StreamId, r: StreamId)
    requires r in g.streams && to in g.streams && Matched(g, r) && r != from
    requires (r != to && r != Resolve(g.aliases, from)) || forall v :: Named(g, from, v) == 0
    requires r == to ==> from !in g.streams
    ensures r in AddAlias(g, from, to).0.streams && Matched(AddAlias(g, from, to).0, r)
  {
    var g' := AddAlias(g, from, to).0;
    forall v ensures Slots(g', r, v) == Slots(g, r, v) {
      CountAliased(g.aliases, from, to, ReadIds(g, v), r);
      assert ReadIds(g', v) == ReadIds(g, v);
      assert Named(g, from, v) == CountIn(map[], ReadIds(g, v), from);
    }
    assert g'.streams[r].channels == g.streams[r].channels;
  }

  /** What a caller can look at before setting a loop. A loop that is still registered must not be set to itself, and no
      other loop may have been set to it; one that is gone must already point there, or have no readers under its own id. */
  ghost predicate SafeAlias(g: Dataflow, from: StreamId, to: StreamId) {
    || to !in g.streams
    || if from in g.streams then from != to && !Targeted(g.aliases, from)
       else Resolve(g.aliases, from) == to || forall v :: Named(g, from, v) == 0
  }

  /** Aliasing a registered loop stream moves its channels along with its readers. */
  lemma AliasOfRegistered(g: Dataflow, from: StreamId, to: StreamId)
    requires Conserved(g) && from in g.streams && to in g.streams
    ensures Conserved(AddAlias(g, from, to).0) <==> from != to && !Targeted(g.aliases, from)
  {
    var g' := AddAlias(g, from, to).0;
    if from == to {
      assert g'.aliases[from] !in g'.streams;
    } else if Targeted(g.aliases, from) {
      var f :| f in g.aliases && g.aliases[f] == from;
      assert f in g'.aliases && g'.aliases[f] !in g'.streams;
    } else {
      assert from !in g.aliases;
      MergedMatched(g, from, to);
      forall r <- g'.streams ensures Matched(g', r) {
        if r != to { OtherMatched(g, from, to, r); }
      }
    }
  }

  /** Aliasing a stream that is not registered moves its readers but no channels. */
  lemma AliasOfUnregistered(g: Dataflow, from: StreamId, to: StreamId)
    requires Conserved(g) && from !in g.streams && to in g.streams
    ensures Conserved(AddAlias(g, from, to).0) <==> Resolve(g.aliases, from) == to || forall v :: Named(g, from, v) == 0
  {
    var g' := AddAlias(g, from, to).0;
    if Resolve(g.aliases, from) == to {
      assert g'.aliases == g.aliases && g' == g;
    } else if forall v :: Named(g, from, v) == 0 {
      forall r <- g'.streams ensures Matched(g', r) {
        assert Matched(g, r);
        OtherMatched(g, from, to, r);
      }
    } else {
      var v :| Named(g, from, v) != 0;
      assert Matched(g, to);
      assert ReadIds(g', v) == ReadIds(g, v);
      CountAliased(g.aliases, from, to, ReadIds(g, v), to);
      assert SinkCount(g'.streams[to].channels, v) != Slots(g', to, v);
      assert !Matched(g', to);
    }
  }

  /** Setting a loop keeps one channel per slot exactly if it is safe. */
  lemma AddAliasExactly(g: Dataflow, from: StreamId, to: StreamId)
    requires Conserved(g)
    ensures Conserved(AddAlias(g, from, to).0) <==> SafeAlias(g, from, to)
  {
    if to in g.streams {
      if from in g.streams { AliasOfRegistered(g, from, to); } else { AliasOfUnregistered(g, from, to); }
    }
  }

  /** Setting a loop fails, without effect, exactly if its target is not registered, and panics exactly if a registered loop
      is set to itself; otherwise its id resolves to the target from then on, and other ids as before. */
  lemma AliasRepliesExactly(g: Dataflow, from: StreamId, to: StreamId)
    ensures var (g', r) := AddAlias(g, from, to);
      && (r == NoSuchStream <==> to !in g.streams) && (r == Panicked <==> from == to && to in g.streams)
      && (r == NoSuchStream ==> g' == g)
      && (r == Aliased ==> from !in g'.streams && forall s :: Resolve(g'.aliases, s) == if s == from then to else Resolve(g.aliases, s))
  {
  }
}
