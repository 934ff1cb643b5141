/** Scheduling a dataflow graph and setting up the endpoints of each node. */
module Scheduling {
  import opened Basics
  import opened ControlMessages
  import opened Dataflows

  // ---------------------------------------------------------------------------------------------
  // Any order of registration.

  datatype Registration =
    | NewOperator(id: OperatorId, node: NodeId, ids: seq<StreamId>)
    | NewStream(stream: StreamId, operator: OperatorId)
    | NewIngest(stream: StreamId, node: NodeId)
    | NewExtract(node: NodeId, stream: StreamId)
    | SetLoop(from: StreamId, to: StreamId)

  /** Operators and streams get ids that are not in use. */
  predicate Unused(g: Dataflow, s: StreamId) { s !in g.streams && s !in g.aliases }

  ghost predicate Registers(g: Dataflow, r: Registration, g': Dataflow) {
    match r
    case NewOperator(id, node, ids) => id !in g.operators && g' == AddOperator(g, id, node, ids)
    case NewStream(s, o) => Unused(g, s) && AddedStream(g, s, Operator(o), g')
    case NewIngest(s, n) => Unused(g, s) && AddedStream(AddDriver(g, n), s, Driver(n), g')
    case NewExtract(n, s) => g' == AddExtract(g, n, s)
    case SetLoop(from, to) => g' == AddAlias(g, from, to).0
  }

  /** What a caller must look at before an extract stream or a loop. */
  ghost predicate SafeRegistration(g: Dataflow, r: Registration) {
    match r
    case NewExtract(_, s) => s !in g.aliases
    case SetLoop(from, to) => SafeAlias(g, from, to)
    case _ => true
  }

  /** Drivers that write streams are known. */
  ghost predicate SourcesKnown(g: Dataflow) {
    forall s <- g.streams :: g.streams[s].source.Driver? ==> g.streams[s].source.node in g.drivers
  }

  /** A registration keeps one channel per slot exactly if it is safe. */
  lemma RegistersExactly(g: Dataflow, r: Registration, g': Dataflow)
    requires Conserved(g) && Registers(g, r, g')
    ensures Conserved(g') <==> SafeRegistration(g, r)
  {
    hide Conserved, AddOperator, AddExtract, AddAlias, AddedStream, SafeAlias;
    match r
    case NewOperator(id, node, ids) => AddOperatorConserves(g, id, node, ids);
    case NewStream(s, o) => AddStreamConserves(g, s, Operator(o), g');
    case NewIngest(s, n) =>
      AddDriverConserves(g, n);
      SameStreams(g, n);
      AddStreamConserves(AddDriver(g, n), s, Driver(n), g');
    case NewExtract(n, s) => AddExtractExactly(g, n, s);
    case SetLoop(from, to) => AddAliasExactly(g, from, to);
  }

  lemma SameStreams(g: Dataflow, n: NodeId)
    ensures AddDriver(g, n).streams == g.streams && AddDriver(g, n).aliases == g.aliases
  {
  }

  lemma RegistersSources(g: Dataflow, r: Registration, g': Dataflow)
    requires SourcesKnown(g) && Registers(g, r, g')
    ensures SourcesKnown(g')
  {
    hide CountIn, ResolveAll, SinkCount, Moved, Copies, Named, Targeted;
  }

  /** A graph under construction, and the registrations that led from one state to the next. */
  ghost predicate IsConstruction(gs: seq<Dataflow>, rs: seq<Registration>) {
    && |gs| == |rs| + 1 && gs[0] == EMPTY_DATAFLOW
    && forall k :: 0 <= k < |rs| ==> Registers(gs[k], rs[k], gs[k + 1])
  }

  /** However a graph is put together: up to any point every stream has always had exactly one channel for each reader slot
      that resolves to it, exactly if every registration up to there was safe. */
  lemma {:induction false} OneChannelPerSlot(gs: seq<Dataflow>, rs: seq<Registration>, k: nat)
    requires IsConstruction(gs, rs) && k <= |rs|
    ensures (forall j :: 0 <= j <= k ==> Conserved(gs[j])) <==> (forall j :: 0 <= j < k ==> SafeRegistration(gs[j], rs[j]))
    ensures SourcesKnown(gs[k])
  {
    hide Conserved, SourcesKnown, SafeRegistration, Registers;
    if k == 0 {
      NothingRegistered();
    } else {
      OneChannelPerSlot(gs, rs, k - 1);
      assert Registers(gs[k - 1], rs[k - 1], gs[k - 1 + 1]);
      RegistersSources(gs[k - 1], rs[k - 1], gs[k]);
      if forall j :: 0 <= j <= k - 1 ==> Conserved(gs[j]) {
        RegistersExactly(gs[k - 1], rs[k - 1], gs[k]);
        assert Conserved(gs[k]) <==> SafeRegistration(gs[k - 1], rs[k - 1]);
      }
    }
  }

  lemma NothingRegistered()
    ensures Conserved(EMPTY_DATAFLOW) && SourcesKnown(EMPTY_DATAFLOW)
  {
  }

  // ---------------------------------------------------------------------------------------------
  // What is recorded, from the registrations alone.

  /** The streams that drivers of node n extract, in order. */
  function ExtractsOf(rs: seq<Registration>, n: NodeId): seq<StreamId> {
    if rs == [] then []
    else
      var last := rs[|rs| - 1];
      ExtractsOf(rs[..|rs| - 1], n) + if last.NewExtract? && last.node == n then [last.stream] else []
  }

  predicate Writes(r: Registration, s: StreamId, v: Vertex) {
    match r
    case NewStream(t, o) => t == s && v == Operator(o)
    case NewIngest(t, n) => t == s && v == Driver(n)
    case _ => false
  }

  /** Operators are recorded with their node and their streams as they resolve at that time, and nothing else is. */
  ghost predicate OperatorsRecorded(gs: seq<Dataflow>, rs: seq<Registration>, k: nat)
    requires k <= |rs| && |gs| == |rs| + 1
  {
    && (forall j :: 0 <= j < k && rs[j].NewOperator? ==>
          && rs[j].id in gs[k].operators
          && gs[k].operators[rs[j].id] == OperatorInfo(rs[j].node, ResolveAll(gs[j].aliases, rs[j].ids)))
    && (forall id <- gs[k].operators :: exists j :: 0 <= j < k && rs[j].NewOperator? && rs[j].id == id)
  }

  /** A stream's source is the one it was registered with. */
  ghost predicate SourcesRecorded(g: Dataflow, rs: seq<Registration>, k: nat)
    requires k <= |rs|
  {
    && g.aliases.Keys !! g.streams.Keys
    && forall s <- g.streams :: exists j :: 0 <= j < k && Writes(rs[j], s, g.streams[s].source)
  }

  ghost predicate ExtractsRecorded(g: Dataflow, rs: seq<Registration>) {
    forall n :: ReadIds(g, Driver(n)) == ExtractsOf(rs, n)
  }

  lemma OperatorsKept(g: Dataflow, r: Registration, g': Dataflow)
    requires Registers(g, r, g')
    ensures r.NewOperator? ==>
      r.id !in g.operators && g'.operators == g.operators[r.id := OperatorInfo(r.node, ResolveAll(g.aliases, r.ids))]
    ensures !r.NewOperator? ==> g'.operators == g.operators
  {
    hide CountIn, ResolveAll, SinkCount, Moved, Copies, Targeted;
  }

  lemma OperatorsNext(gs: seq<Dataflow>, rs: seq<Registration>, k: nat)
    requires IsConstruction(gs, rs) && 0 < k <= |rs| && OperatorsRecorded(gs, rs, k - 1)
    ensures OperatorsRecorded(gs, rs, k)
  {
    hide Registers, ResolveAll;
    assert Registers(gs[k - 1], rs[k - 1], gs[k - 1 + 1]);
    OperatorsKept(gs[k - 1], rs[k - 1], gs[k]);
    forall id <- gs[k].operators ensures exists j :: 0 <= j < k && rs[j].NewOperator? && rs[j].id == id {
      if id in gs[k - 1].operators {
        var j :| 0 <= j < k - 1 && rs[j].NewOperator? && rs[j].id == id;
      } else {
        assert rs[k - 1].NewOperator? && rs[k - 1].id == id;
      }
    }
  }

  lemma SourceKept(g: Dataflow, r: Registration, g': Dataflow, s: StreamId)
    requires Registers(g, r, g') && s in g'.streams
    ensures (s in g.streams && g'.streams[s].source == g.streams[s].source) || Writes(r, s, g'.streams[s].source)
  {
    hide CountIn, ResolveAll, SinkCount, Moved, Copies, Named, Targeted;
  }

  lemma AliasesApart(g: Dataflow, r: Registration, g': Dataflow)
    requires Registers(g, r, g') && g.aliases.Keys !! g.streams.Keys
    ensures g'.aliases.Keys !! g'.streams.Keys
  {
    hide CountIn, ResolveAll, SinkCount, Moved, Copies, Named, Targeted;
  }

  lemma SourcesNext(g: Dataflow, rs: seq<Registration>, k: nat, g': Dataflow)
    requires 0 < k <= |rs| && SourcesRecorded(g, rs, k - 1) && Registers(g, rs[k - 1], g')
    ensures SourcesRecorded(g', rs, k)
  {
    hide Registers, Writes;
    AliasesApart(g, rs[k - 1], g');
    forall s <- g'.streams ensures exists j :: 0 <= j < k && Writes(rs[j], s, g'.streams[s].source) {
      SourceKept(g, rs[k - 1], g', s);
      if !Writes(rs[k - 1], s, g'.streams[s].source) {
        var j :| 0 <= j < k - 1 && Writes(rs[j], s, g.streams[s].source);
      }
    }
  }

  lemma ExtractsNext(g: Dataflow, rs: seq<Registration>, r: Registration, g': Dataflow)
    requires ExtractsRecorded(g, rs) && Registers(g, r, g')
    ensures ExtractsRecorded(g', rs + [r])
  {
    hide CountIn, ResolveAll, SinkCount, Moved, Copies, Named, Targeted;
    assert (rs + [r])[..|rs + [r]| - 1] == rs;
    forall n ensures ReadIds(g', Driver(n)) == ExtractsOf(rs + [r], n) {
      assert ReadIds(g, Driver(n)) == ExtractsOf(rs, n);
      assert ExtractsOf(rs, n) + [] == ExtractsOf(rs, n);
    }
  }

  /** In every construction, safe or not, operators, sources and extracted streams are recorded as registered. */
  lemma {:induction false} RegistryExact(gs: seq<Dataflow>, rs: seq<Registration>, k: nat)
    requires IsConstruction(gs, rs) && k <= |rs|
    ensures OperatorsRecorded(gs, rs, k) && SourcesRecorded(gs[k], rs, k) && ExtractsRecorded(gs[k], rs[..k])
  {
    hide OperatorsRecorded, SourcesRecorded, ExtractsRecorded, Registers;
    if k == 0 {
      NothingRecorded(gs, rs);
    } else {
      RegistryExact(gs, rs, k - 1);
      assert Registers(gs[k - 1], rs[k - 1], gs[k - 1 + 1]);
      OperatorsNext(gs, rs, k);
      SourcesNext(gs[k - 1], rs, k, gs[k]);
      ExtractsNext(gs[k - 1], rs[..k - 1], rs[k - 1], gs[k]);
      assert rs[..k - 1] + [rs[k - 1]] == rs[..k];
    }
  }

  lemma NothingRecorded(gs: seq<Dataflow>, rs: seq<Registration>)
    requires |gs| == |rs| + 1 && gs[0] == EMPTY_DATAFLOW
    ensures OperatorsRecorded(gs, rs, 0) && SourcesRecorded(gs[0], rs, 0) && ExtractsRecorded(gs[0], rs[..0])
  {
  }

  // ---------------------------------------------------------------------------------------------
  // Registrations that break the count, on graphs that can be built.

  /** A construction leads to g, and all of its registrations were safe. */
  ghost predicate Reachable(g: Dataflow) {
    exists gs, rs :: IsConstruction(gs, rs) && gs[|rs|] == g && forall k :: 0 <= k < |rs| ==> SafeRegistration(gs[k], rs[k])
  }

  lemma ReachableEmpty()
    ensures Reachable(EMPTY_DATAFLOW)
  {
    assert IsConstruction([EMPTY_DATAFLOW], []);
  }

  lemma ReachOn(g: Dataflow, r: Registration, g': Dataflow)
    requires Reachable(g) && Registers(g, r, g') && SafeRegistration(g, r)
    ensures Reachable(g')
  {
    hide Registers, SafeRegistration;
    var gs, rs :| IsConstruction(gs, rs) && gs[|rs|] == g && forall k :: 0 <= k < |rs| ==> SafeRegistration(gs[k], rs[k]);
    var gs', rs' := gs + [g'], rs + [r];
    forall k | 0 <= k < |rs'| ensures Registers(gs'[k], rs'[k], gs'[k + 1]) && SafeRegistration(gs'[k], rs'[k]) {
      if k < |rs| { assert Registers(gs[k], rs[k], gs[k + 1]); }
    }
    assert IsConstruction(gs', rs') && gs'[|rs'|] == g';
  }

  lemma ReachableConserved(g: Dataflow)
    requires Reachable(g)
    ensures Conserved(g) && SourcesKnown(g)
  {
    hide Conserved, SafeRegistration, Registers;
    var gs, rs :| IsConstruction(gs, rs) && gs[|rs|] == g && forall k :: 0 <= k < |rs| ==> SafeRegistration(gs[k], rs[k]);
    OneChannelPerSlot(gs, rs, |rs|);
  }

  function WithStream(g: Dataflow, s: StreamId, o: OperatorId): Dataflow {
    g.(streams := g.streams[s := StreamInfo(Operator(o), [])])
  }

  /** Streams registered before anything reads. */
  lemma ReachStream(g: Dataflow, s: StreamId, o: OperatorId)
    requires Reachable(g) && Unused(g, s) && g.operators == map[] && g.drivers == map[]
    ensures Reachable(WithStream(g, s, o))
  {
    hide Reachable;
    assert forall v :: Named(g, s, v) == 0;
    assert Registers(g, NewStream(s, o), WithStream(g, s, o));
    ReachOn(g, NewStream(s, o), WithStream(g, s, o));
  }

  ghost function Streams(ids: seq<StreamId>, o: OperatorId): Dataflow {
    if ids == [] then EMPTY_DATAFLOW else WithStream(Streams(ids[..|ids| - 1], o), ids[|ids| - 1], o)
  }

  lemma {:induction false} ReachStreams(ids: seq<StreamId>, o: OperatorId)
    requires Distinct(ids)
    ensures Reachable(Streams(ids, o))
    ensures var g := Streams(ids, o);
      && g.operators == map[] && g.drivers == map[] && g.aliases == map[] && forall s :: s in g.streams <==> s in ids
  {
    hide Reachable;
    if ids == [] {
      ReachableEmpty();
    } else {
      var init, last := ids[..|ids| - 1], ids[|ids| - 1];
      ReachStreams(init, o);
      assert last !in init && ids == init + [last];
      ReachStream(Streams(init, o), last, o);
    }
  }

  lemma ReachLoop(g: Dataflow, from: StreamId, to: StreamId)
    requires Reachable(g) && SafeAlias(g, from, to)
    ensures Reachable(AddAlias(g, from, to).0)
  {
    hide Reachable, SafeAlias, AddAlias;
    ReachOn(g, SetLoop(from, to), AddAlias(g, from, to).0);
  }

  /** A loop that has been set is extracted. */
  lemma ExtractOfLoop(loop: StreamId, out: StreamId, o: OperatorId, n: NodeId) returns (g: Dataflow)
    requires loop != out
    ensures Reachable(g) && loop in g.aliases && g.aliases[loop] == out && !Conserved(AddExtract(g, n, loop))
  {
    hide Reachable, Conserved, Streams;
    ReachStreams([loop, out], o);
    ReachLoop(Streams([loop, out], o), loop, out);
    g := AddAlias(Streams([loop, out], o), loop, out).0;
    ReachableConserved(g);
    AddExtractExactly(g, n, loop);
  }

  /** A loop is set that another loop has been set to. */
  lemma LoopOfLoop(first: StreamId, second: StreamId, out: StreamId, o: OperatorId) returns (g: Dataflow)
    requires first != second && first != out && second != out
    ensures Reachable(g) && first in g.streams && out in g.streams && !Conserved(AddAlias(g, first, out).0)
  {
    hide Reachable, Conserved, Streams;
    var ids := [first, second, out];
    ReachStreams(ids, o);
    ReachLoop(Streams(ids, o), second, first);
    g := AddAlias(Streams(ids, o), second, first).0;
    ReachableConserved(g);
    assert second in g.aliases && g.aliases[second] == first;
    AddAliasExactly(g, first, out);
  }

  /** A loop with a reader is set twice. */
  lemma LoopSetTwice(loop: StreamId, out: StreamId, other: StreamId, o: OperatorId, node: NodeId) returns (g: Dataflow)
    requires loop != out && loop != other && out != other
    ensures Reachable(g) && loop in g.aliases && other in g.streams && !Conserved(AddAlias(g, loop, other).0)
  {
    hide Reachable, Conserved, Streams;
    var ids := [loop, out, other];
    ReachStreams(ids, o);
    var before := AddOperator(Streams(ids, o), o, node, [loop]);
    ReachOn(Streams(ids, o), NewOperator(o, node, [loop]), before);
    ReachLoop(before, loop, out);
    g := AddAlias(before, loop, out).0;
    ReachableConserved(g);
    assert ReadIds(g, Operator(o)) == [loop];
    NamedOnce(loop);
    assert Named(g, loop, Operator(o)) == 1;
    assert g.aliases[loop] == out && loop !in g.streams;
    AddAliasExactly(g, loop, other);
  }

  lemma NamedOnce(s: StreamId)
    ensures CountIn(map[], [s], s) == 1
  {
    assert [s][..|[s]| - 1] == [];
  }

  /** A loop is set to itself. */
  lemma LoopOfItself(loop: StreamId, o: OperatorId) returns (g: Dataflow)
    ensures Reachable(g) && loop in g.streams && AddAlias(g, loop, loop).1 == Panicked && !Conserved(AddAlias(g, loop, loop).0)
  {
    hide Reachable, Conserved, Streams;
    ReachStreams([loop], o);
    g := Streams([loop], o);
    ReachableConserved(g);
    AddAliasExactly(g, loop, loop);
  }

  // ---------------------------------------------------------------------------------------------
  // Scheduling.

  function NodeOf(g: Dataflow, v: Vertex): Option<NodeId> {
    match v
    case Driver(n) => Some(n)
    case Operator(o) => if o in g.operators then Some(g.operators[o].node) else None
  }

  function Place(g: Dataflow, here: NodeId, c: Channel): Channel {
    if c.kind != Unscheduled then c
    else if NodeOf(g, c.sink) == Some(here) then c.(kind := InterThread) else c.(kind := InterNode)
  }

  predicate CanPlace(g: Dataflow, c: Channel) { c.kind == Unscheduled ==> NodeOf(g, c.sink).Some? }

  /** Every vertex `schedule` looks up exists. */
  predicate CanSchedule(g: Dataflow, info: StreamInfo) {
    NodeOf(g, info.source).Some? && forall c <- info.channels :: CanPlace(g, c)
  }

  /** The channels of one stream; `None` is the failed lookup of an operator. */
  method ScheduleChannels(g: Dataflow, info: StreamInfo) returns (r: Option<seq<Channel>>)
    ensures r.Some? <==> CanSchedule(g, info)
    ensures r.Some? ==> ScheduledStream(g, info, info.(channels := r.value))
  {
    var here := NodeOf(g, info.source);
    if here.None? { return None; }
    var channels: seq<Channel> := [];
    for i := 0 to |info.channels|
      invariant |channels| == i
      invariant forall k :: 0 <= k < i ==> CanPlace(g, info.channels[k]) && channels[k] == Place(g, here.value, info.channels[k])
    {
      var c := info.channels[i];
      if c.kind == Unscheduled {
        var there := NodeOf(g, c.sink);
        if there.None? {
          assert c in info.channels && !CanPlace(g, c);
          return None;
        }
        channels := channels + [c.(kind := if there == here then InterThread else InterNode)];
      } else {
        channels := channels + [c];
      }
    }
    return Some(channels);
  }

  /** g' is g with every channel placed. */
  ghost predicate Scheduled(g: Dataflow, g': Dataflow) {
    && g' == g.(streams := g'.streams) && g'.streams.Keys == g.streams.Keys
    && forall s <- g.streams :: ScheduledStream(g, g.streams[s], g'.streams[s])
  }

  ghost predicate ScheduledStream(g: Dataflow, a: StreamInfo, b: StreamInfo) {
    && NodeOf(g, a.source).Some? && b.source == a.source && |b.channels| == |a.channels|
    && forall i :: 0 <= i < |a.channels| ==> CanPlace(g, a.channels[i]) && b.channels[i] == Place(g, NodeOf(g, a.source).value, a.channels[i])
  }

  method Schedule(g: Dataflow) returns (r: Option<Dataflow>)
    ensures r.Some? <==> forall s <- g.streams :: CanSchedule(g, g.streams[s])
    ensures r.Some? ==> Scheduled(g, r.value)
  {
    var todo, streams := g.streams.Keys, g.streams;
    while exists s :: s in todo
      invariant todo <= g.streams.Keys == streams.Keys
      invariant forall s <- g.streams :: s in todo ==> streams[s] == g.streams[s]
      invariant forall s <- g.streams :: s !in todo ==>
        CanSchedule(g, g.streams[s]) && ScheduledStream(g, g.streams[s], streams[s])
      decreases todo
    {
      var s :| s in todo;
      var channels := ScheduleChannels(g, g.streams[s]);
      if channels.None? { return None; }
      streams := streams[s := g.streams[s].(channels := channels.value)];
      todo := todo - {s};
      assert forall i :: 0 <= i < |g.streams[s].channels| ==> g.streams[s].channels[i] in g.streams[s].channels;
    }
    return Some(g.(streams := streams));
  }

  /** Scheduling keeps the sinks and leaves no channel unscheduled. */
  lemma ScheduleKeepsSinks(g: Dataflow, g': Dataflow, s: StreamId, v: Vertex)
    requires Scheduled(g, g') && s in g.streams
    ensures SinkCount(g'.streams[s].channels, v) == SinkCount(g.streams[s].channels, v)
    ensures forall c <- g'.streams[s].channels :: c.kind != Unscheduled
  {
    var a, b := g.streams[s].channels, g'.streams[s].channels;
    assert ScheduledStream(g, g.streams[s], g'.streams[s]);
    SameSinks(a, b, v);
  }

  lemma {:induction false} SameSinks(a: seq<Channel>, b: seq<Channel>, v: Vertex)
    requires |a| == |b| && forall i :: 0 <= i < |a| ==> a[i].sink == b[i].sink
    ensures SinkCount(a, v) == SinkCount(b, v)
  {
    if a != [] {
      SameSinks(a[..|a| - 1], b[..|b| - 1], v);
    }
  }

  // ---------------------------------------------------------------------------------------------
  // Endpoints.

  /** v is one of the vertices on node n. */
  predicate OnNode(g: Dataflow, v: Vertex, n: NodeId) {
    match v
    case Driver(d) => d == n && d in g.drivers
    case Operator(o) => o in g.operators && g.operators[o].node == n
  }

  /** Whether node n makes a receive endpoint for channel c. */
  predicate Receives(g: Dataflow, n: NodeId, source: Vertex, c: Channel) {
    if OnNode(g, source, n) then c.kind == InterThread else c.kind == InterNode && OnNode(g, c.sink, n)
  }

  /** The receive endpoints of a stream on node n, each named by the reader its channel was made for. */
  function RecvSinks(g: Dataflow, n: NodeId, source: Vertex, cs: seq<Channel>): seq<Vertex> {
    if cs == [] then []
    else
      var c := cs[|cs| - 1];
      RecvSinks(g, n, source, cs[..|cs| - 1]) + if Receives(g, n, source, c) then [c.sink] else []
  }

  /** The nodes that the send endpoints of a stream on node n go to. */
  function SendNodes(g: Dataflow, n: NodeId, source: Vertex, cs: seq<Channel>): seq<Option<NodeId>> {
    if cs == [] then []
    else
      var c := cs[|cs| - 1];
      SendNodes(g, n, source, cs[..|cs| - 1]) +
      if !OnNode(g, source, n) || c.kind == Unscheduled then [] else if c.kind == InterThread then [Some(n)] else [NodeOf(g, c.sink)]
  }

  /** `ChannelManager::new` for one stream, on one node. */
  method MakeEndpoints(g: Dataflow, n: NodeId, info: StreamInfo) returns (recv: seq<Vertex>, send: seq<Option<NodeId>>)
    ensures recv == RecvSinks(g, n, info.source, info.channels)
    ensures send == SendNodes(g, n, info.source, info.channels)
  {
    recv, send := [], [];
    for i := 0 to |info.channels|
      invariant recv == RecvSinks(g, n, info.source, info.channels[..i])
      invariant send == SendNodes(g, n, info.source, info.channels[..i])
    {
      var c := info.channels[i];
      assert info.channels[..i + 1][..i] == info.channels[..i];
      if OnNode(g, info.source, n) {
        match c.kind {
          case InterNode => send := send + [NodeOf(g, c.sink)];
          case InterThread =>
            send := send + [Some(n)];
            recv := recv + [c.sink];
          case Unscheduled =>
        }
      } else if c.kind == InterNode && OnNode(g, c.sink, n) {
        recv := recv + [c.sink];
      }
    }
    assert info.channels[..|info.channels|] == info.channels;
  }

  ghost predicate Placed(g: Dataflow, source: Vertex, c: Channel) {
    && NodeOf(g, c.sink).Some?
    && c.kind == if NodeOf(g, c.sink) == NodeOf(g, source) then InterThread else InterNode
  }

  lemma {:induction false} RecvExact(g: Dataflow, n: NodeId, source: Vertex, cs: seq<Channel>, v: Vertex)
    requires (source.Driver? ==> source.node in g.drivers) && NodeOf(g, source).Some?
    requires forall c <- cs :: Placed(g, source, c) && (c.sink.Driver? ==> c.sink.node in g.drivers)
    ensures multiset(RecvSinks(g, n, source, cs))[v] == if OnNode(g, v, n) then SinkCount(cs, v) else 0
  {
    if cs != [] {
      var init, c := cs[..|cs| - 1], cs[|cs| - 1];
      assert c in cs;
      RecvExact(g, n, source, init, v);
      assert Receives(g, n, source, c) <==> OnNode(g, c.sink, n);
      var more := if Receives(g, n, source, c) then [c.sink] else [];
      assert RecvSinks(g, n, source, cs) == RecvSinks(g, n, source, init) + more;
    }
  }

  /** The channels of stream s are its own, and their sinks are registered. */
  ghost predicate SinksKnown(g: Dataflow, s: StreamId)
    requires s in g.streams
  {
    forall c <- g.streams[s].channels :: Belongs(s, g.streams[s].source, c) && (c.sink.Driver? ==> c.sink.node in g.drivers)
  }

  lemma MatchedSinks(g: Dataflow, s: StreamId)
    requires s in g.streams && Matched(g, s)
    ensures SinksKnown(g, s)
  {
    forall c <- g.streams[s].channels ensures c.sink.Driver? ==> c.sink.node in g.drivers {
      var i :| 0 <= i < |g.streams[s].channels| && g.streams[s].channels[i] == c;
      SinkHasSlot(g, s, i);
    }
  }

  lemma AllPlaced(g: Dataflow, g': Dataflow, s: StreamId)
    requires SourcesKnown(g) && Scheduled(g, g') && s in g.streams && SinksKnown(g, s)
    ensures s in g'.streams
    ensures forall c <- g'.streams[s].channels ::
      Placed(g', g'.streams[s].source, c) && (c.sink.Driver? ==> c.sink.node in g'.drivers)
  {
    var a, b := g.streams[s], g'.streams[s];
    assert ScheduledStream(g, a, b);
    forall c <- b.channels ensures Placed(g', a.source, c) && (c.sink.Driver? ==> c.sink.node in g'.drivers) {
      var i :| 0 <= i < |b.channels| && b.channels[i] == c;
      assert a.channels[i] in a.channels && Belongs(s, a.source, a.channels[i]);
      assert CanPlace(g, a.channels[i]);
    }
  }

  /** The receive endpoints of a node are the channels to its vertices. */
  lemma EndpointsMatchChannels(g: Dataflow, g': Dataflow, s: StreamId, n: NodeId, v: Vertex)
    requires SourcesKnown(g) && Scheduled(g, g') && s in g.streams && SinksKnown(g, s)
    ensures multiset(RecvSinks(g', n, g'.streams[s].source, g'.streams[s].channels))[v]
      == if OnNode(g, v, n) then SinkCount(g.streams[s].channels, v) else 0
  {
    var a, b := g.streams[s], g'.streams[s];
    assert ScheduledStream(g, a, b);
    AllPlaced(g, g', s);
    ScheduleKeepsSinks(g, g', s, v);
    RecvExact(g', n, a.source, b.channels, v);
  }

  /** Each node gets, for each stream, exactly as many receive endpoints as its own vertices have reader slots. */
  lemma EndpointsMatchSlots(g: Dataflow, g': Dataflow, s: StreamId, n: NodeId, v: Vertex)
    requires Conserved(g) && SourcesKnown(g) && Scheduled(g, g') && s in g.streams
    ensures multiset(RecvSinks(g', n, g'.streams[s].source, g'.streams[s].channels))[v]
      == if OnNode(g, v, n) then Slots(g, s, v) else 0
  {
    assert Matched(g, s);
    MatchedSinks(g, s);
    EndpointsMatchChannels(g, g', s, n, v);
  }

  lemma SinkHasSlot(g: Dataflow, s: StreamId, i: int)
    requires s in g.streams && Matched(g, s) && 0 <= i < |g.streams[s].channels|
    ensures var v := g.streams[s].channels[i].sink; v.Driver? ==> v.node in g.drivers
  {
    var cs := g.streams[s].channels;
    SinkCountAppend(cs[..i], cs[i..], cs[i].sink);
    SinkCountAppend([cs[i]], cs[i + 1..], cs[i].sink);
    assert cs == cs[..i] + cs[i..] && cs[i..] == [cs[i]] + cs[i + 1..];
    assert [cs[i]][..0] == [];
    assert Slots(g, s, cs[i].sink) >= 1;
  }

  /** The receive endpoints of one stream on one node. */
  class StreamEndpoints {
    var recv: seq<Vertex>

    constructor (endpoints: seq<Vertex>)
      ensures recv == endpoints
    {
      recv := endpoints;
    }

    /** `take_recv_endpoint`: the endpoint made last, if any is left. */
    method TakeRecvEndpoint() returns (r: Option<Vertex>)
      modifies this
      ensures (recv, r) == Taken(old(recv))
    {
      if |recv| == 0 { return None; }
      r := Some(recv[|recv| - 1]);
      recv := recv[..|recv| - 1];
    }
  }

  function Taken(recv: seq<Vertex>): (seq<Vertex>, Option<Vertex>) {
    if recv == [] then (recv, None) else (recv[..|recv| - 1], Some(recv[|recv| - 1]))
  }

  /** What is left after n takes, and what they returned. */
  function TakeAll(recv: seq<Vertex>, n: nat): (seq<Vertex>, seq<Option<Vertex>>) {
    if n == 0 then (recv, [])
    else
      var (rest, got) := TakeAll(recv, n - 1);
      var (rest', r) := Taken(rest);
      (rest', got + [r])
  }

  /** Takes hand out different endpoints until none is left, and fail from then on. */
  lemma {:induction false} TakeAllExact(recv: seq<Vertex>, n: nat)
    ensures TakeAll(recv, n).0 == if n <= |recv| then recv[..|recv| - n] else []
    ensures var got := TakeAll(recv, n).1;
      |got| == n && forall i :: 0 <= i < n ==> got[i] == if i < |recv| then Some(recv[|recv| - 1 - i]) else None
  {
    if n > 0 { TakeAllExact(recv, n - 1); }
  }

  /** The takes are by readers of node n. */
  ghost predicate WithinSlots(g: Dataflow, s: StreamId, n: NodeId, takes: seq<Vertex>) {
    forall v :: multiset(takes)[v] <= if OnNode(g, v, n) then Slots(g, s, v) else 0
  }

  ghost predicate AllSlots(g: Dataflow, s: StreamId, n: NodeId, takes: seq<Vertex>) {
    forall v :: multiset(takes)[v] == if OnNode(g, v, n) then Slots(g, s, v) else 0
  }

  /** In whatever order the readers of a node take their endpoints: as long as none takes more than its slots every take
      succeeds, and once every reader has taken one for each of its slots the next take fails. */
  lemma TakesSucceed(g: Dataflow, g': Dataflow, s: StreamId, n: NodeId, takes: seq<Vertex>)
    requires Conserved(g) && SourcesKnown(g) && Scheduled(g, g') && s in g.streams && WithinSlots(g, s, n, takes)
    ensures var (rest, got) := TakeAll(RecvSinks(g', n, g'.streams[s].source, g'.streams[s].channels), |takes|);
      && |got| == |takes| && (forall i :: 0 <= i < |got| ==> got[i].Some?)
      && (AllSlots(g, s, n, takes) <==> rest == [])
  {
    hide Conserved, SourcesKnown, ScheduledStream, TakeAll, Slots, OnNode, RecvSinks;
    var recv := RecvSinks(g', n, g'.streams[s].source, g'.streams[s].channels);
    forall v ensures multiset(recv)[v] == if OnNode(g, v, n) then Slots(g, s, v) else 0 { EndpointsMatchSlots(g, g', s, n, v); }
    TakeAllExact(recv, |takes|);
    Sized(takes, recv);
    assert AllSlots(g, s, n, takes) <==> multiset(takes) == multiset(recv);
  }

  /** After an extract of a loop that has been set, the readers of the loop's target on that node are one endpoint short:
      in whatever order they take theirs, all takes but the last succeed. */
  lemma ExtractTakesFail(g: Dataflow, n: NodeId, s: StreamId, g': Dataflow, takes: seq<Vertex>)
    requires Conserved(g) && SourcesKnown(g) && s in g.aliases && Scheduled(AddExtract(g, n, s), g')
    requires AllSlots(AddExtract(g, n, s), g.aliases[s], n, takes)
    ensures var t := g.aliases[s];
      && t in g'.streams && |takes| > 0
      && var (rest, got) := TakeAll(RecvSinks(g', n, g'.streams[t].source, g'.streams[t].channels), |takes|);
      && |got| == |takes| && forall i :: 0 <= i < |got| ==> (got[i].None? <==> i == |got| - 1)
  {
    hide TakeAll, Slots, RecvSinks, SinkCount;
    var t, g1 := g.aliases[s], AddExtract(g, n, s);
    assert Matched(g, t) && g1.streams[t] == g.streams[t] && t in g'.streams;
    MatchedSinks(g, t);
    var recv := RecvSinks(g', n, g'.streams[t].source, g'.streams[t].channels);
    forall v ensures multiset(takes)[v] == multiset(recv + [Driver(n)])[v] {
      EndpointsMatchChannels(g1, g', t, n, v);
      ExtractSlots(g, n, s, t, v);
    }
    assert |takes| == |multiset(takes)| && multiset(takes) == multiset(recv + [Driver(n)]);
    assert |multiset(recv + [Driver(n)])| == |recv + [Driver(n)]|;
    TakeAllExact(recv, |takes|);
  }

  lemma Sized<T>(a: seq<T>, b: seq<T>)
    requires forall v :: multiset(a)[v] <= multiset(b)[v]
    ensures |a| <= |b| && (|a| == |b| <==> multiset(a) == multiset(b))
  {
    assert multiset(a) <= multiset(b);
    var rest := multiset(b) - multiset(a);
    assert multiset(b) == multiset(a) + rest;
    if |a| == |b| { assert rest == multiset{}; }
  }

  /** The sending node has one send endpoint for each reader on every node, its own included. */
  lemma {:induction false} OneTransmissionPerReader(g: Dataflow, here: NodeId, n: NodeId, source: Vertex, cs: seq<Channel>)
    requires OnNode(g, source, here)
    requires forall c <- cs :: Placed(g, source, c) && (c.sink.Driver? ==> c.sink.node in g.drivers)
    ensures multiset(SendNodes(g, here, source, cs))[Some(n)] == |RecvSinks(g, n, source, cs)|
  {
    if cs != [] {
      var init, c := cs[..|cs| - 1], cs[|cs| - 1];
      assert c in cs;
      OneTransmissionPerReader(g, here, n, source, init);
      var more := if c.kind == InterThread then [Some(here)] else [NodeOf(g, c.sink)];
      assert SendNodes(g, here, source, cs) == SendNodes(g, here, source, init) + more;
      assert Receives(g, n, source, c) <==> more == [Some(n)];
      var taken := if Receives(g, n, source, c) then [c.sink] else [];
      assert RecvSinks(g, n, source, cs) == RecvSinks(g, n, source, init) + taken;
    }
  }
}
