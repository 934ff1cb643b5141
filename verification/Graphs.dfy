/** The dataflow graph object that registrations update. */
module Graphs {
  import opened ControlMessages
  import opened Dataflows

  class Graph {
    var operators: map<OperatorId, OperatorInfo>
    var drivers: map<NodeId, seq<StreamId>>
    var streams: map<StreamId, StreamInfo>
    var aliases: map<StreamId, StreamId>

    function Value(): Dataflow reads this { Dataflow(operators, drivers, streams, aliases) }

    constructor ()
      ensures Value() == EMPTY_DATAFLOW
    {
      operators, drivers, streams, aliases := map[], map[], map[], map[];
    }

    /** The operator's read streams are resolved first; a stream it reads k times gets k channels. */
    method AddOperatorTo(id: OperatorId, node: NodeId, ids: seq<StreamId>)
      modifies this
      ensures Value() == AddOperator(old(Value()), id, node, ids)
    {
      var rs := ResolveAll(aliases, ids);
      ghost var before := streams;
      for i := 0 to |rs|
        invariant operators == old(operators) && drivers == old(drivers) && aliases == old(aliases)
        invariant streams.Keys == before.Keys
        invariant forall s <- before :: streams[s] == Extended(before[s], s, Operator(id), CountIn(map[], rs[..i], s))
      {
        assert rs[..i + 1][..i] == rs[..i];
        var s := rs[i];
        if s in streams {
          OneMore(before[s], s, Operator(id), CountIn(map[], rs[..i], s));
          streams := streams[s := streams[s].(channels := streams[s].channels + [Channel(Unscheduled, s, streams[s].source, Operator(id))])];
        }
      }
      assert rs[..|rs|] == rs;
      operators := operators[id := OperatorInfo(node, rs)];
    }

    static lemma OneMore(info: StreamInfo, s: StreamId, sink: Vertex, n: nat)
      ensures Extended(info, s, sink, n).channels + [Channel(Unscheduled, s, info.source, sink)] == Extended(info, s, sink, n + 1).channels
    {
    }

    /** Channels for the slots of one vertex that name the new stream. */
    static method ChannelsFor(s: StreamId, source: Vertex, ids: seq<StreamId>, sink: Vertex) returns (cs: seq<Channel>)
      ensures cs == Copies(CountIn(map[], ids, s), Channel(Unscheduled, s, source, sink))
    {
      cs := [];
      for i := 0 to |ids|
        invariant cs == Copies(CountIn(map[], ids[..i], s), Channel(Unscheduled, s, source, sink))
      {
        assert ids[..i + 1][..i] == ids[..i];
        if ids[i] == s { cs := cs + [Channel(Unscheduled, s, source, sink)]; }
      }
      assert ids[..|ids|] == ids;
    }

    method OperatorChannels(s: StreamId, source: Vertex) returns (cs: seq<Channel>)
      ensures forall v :: SinkCount(cs, v) == if v.Operator? then Named(Value(), s, v) else 0
      ensures forall c <- cs :: Belongs(s, source, c)
    {
      cs := [];
      var g := Value();
      var todo := operators.Keys;
      while exists o :: o in todo
        invariant todo <= operators.Keys
        invariant forall c <- cs :: Belongs(s, source, c)
        invariant forall v :: SinkCount(cs, v) == if v.Operator? && v.id !in todo then Named(g, s, v) else 0
        decreases todo
      {
        var o :| o in todo;
        var more := ChannelsFor(s, source, operators[o].readIds, Operator(o));
        VertexDone(g, cs, more, s, source, Operator(o));
        cs := cs + more;
        todo := todo - {o};
      }
    }

    method DriverChannels(s: StreamId, source: Vertex) returns (cs: seq<Channel>)
      ensures forall v :: SinkCount(cs, v) == if v.Driver? then Named(Value(), s, v) else 0
      ensures forall c <- cs :: Belongs(s, source, c)
    {
      cs := [];
      var g := Value();
      var todo := drivers.Keys;
      while exists n :: n in todo
        invariant todo <= drivers.Keys
        invariant forall c <- cs :: Belongs(s, source, c)
        invariant forall v :: SinkCount(cs, v) == if v.Driver? && v.node !in todo then Named(g, s, v) else 0
        decreases todo
      {
        var n :| n in todo;
        var more := ChannelsFor(s, source, drivers[n], Driver(n));
        VertexDone(g, cs, more, s, source, Driver(n));
        cs := cs + more;
        todo := todo - {n};
      }
    }

    /** `add_channels`: operators and drivers are visited in any order. */
    method AddChannels(s: StreamId, source: Vertex) returns (cs: seq<Channel>)
      ensures forall v :: SinkCount(cs, v) == Named(Value(), s, v)
      ensures forall c <- cs :: Belongs(s, source, c)
    {
      hide SinkCount, Named;
      var a := OperatorChannels(s, source);
      var b := DriverChannels(s, source);
      forall v ensures SinkCount(a + b, v) == Named(Value(), s, v) { SinkCountAppend(a, b, v); }
      cs := a + b;
    }

    static lemma VertexDone(g: Dataflow, cs: seq<Channel>, more: seq<Channel>, s: StreamId, source: Vertex, v: Vertex)
      requires more == Copies(Named(g, s, v), Channel(Unscheduled, s, source, v))
      ensures forall w :: SinkCount(cs + more, w) == SinkCount(cs, w) + if w == v then Named(g, s, v) else 0
    {
      forall w ensures SinkCount(cs + more, w) == SinkCount(cs, w) + if w == v then Named(g, s, v) else 0 {
        SinkCountAppend(cs, more, w);
        SinkCountCopies(Named(g, s, v), Channel(Unscheduled, s, source, v), w);
      }
    }

    method AddOperatorStream(s: StreamId, operator: OperatorId)
      modifies this`streams
      ensures AddedStream(old(Value()), s, Operator(operator), Value())
    {
      var cs := AddChannels(s, Operator(operator));
      streams := streams[s := StreamInfo(Operator(operator), cs)];
    }

    method AddIngestStream(s: StreamId, n: NodeId)
      modifies this`streams, this`drivers
      ensures AddedStream(AddDriver(old(Value()), n), s, Driver(n), Value())
    {
      if n !in drivers { drivers := drivers[n := []]; }
      var cs := AddChannels(s, Driver(n));
      streams := streams[s := StreamInfo(Driver(n), cs)];
    }

    method AddExtractStream(s: StreamId, n: NodeId)
      modifies this`streams, this`drivers
      ensures Value() == AddExtract(old(Value()), n, s)
    {
      if n !in drivers { drivers := drivers[n := []]; }
      drivers := drivers[n := drivers[n] + [s]];
      if s in streams {
        var c := Channel(Unscheduled, s, streams[s].source, Driver(n));
        assert Copies(1, c) == [c];
        streams := streams[s := streams[s].(channels := streams[s].channels + [c])];
      }
    }

    method AddStreamAlias(from: StreamId, to: StreamId) returns (r: AliasResult)
      modifies this`streams, this`aliases
      ensures (Value(), r) == AddAlias(old(Value()), from, to)
    {
      if to !in streams { return NoSuchStream; }
      aliases := aliases[from := to];
      if from !in streams { return Aliased; }
      var gone := streams[from].channels;
      streams := streams - {from};
      if to !in streams { return Panicked; }
      var info := streams[to];
      var cs := info.channels;
      for i := 0 to |gone|
        invariant cs == info.channels + Moved(gone[..i], to, info.source)
      {
        assert gone[..i + 1][..i] == gone[..i];
        cs := cs + [Channel(Unscheduled, to, info.source, gone[i].sink)];
        assert Moved(gone[..i + 1], to, info.source) == Moved(gone[..i], to, info.source) + [Channel(Unscheduled, to, info.source, gone[i].sink)];
      }
      assert gone[..|gone|] == gone;
      streams := streams[to := info.(channels := cs)];
      return Aliased;
    }
  }
}
