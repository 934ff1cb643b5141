/** From a write stream's endpoints over the connection between two nodes to the readers on the other node. */
module Remoting {
  import opened Basics
  import opened ControlMessages
  import opened Dataflows
  import opened Scheduling
  import opened StartUp

  /** A message of a stream, as it goes over a connection. */
  datatype Packet<M> = Packet(stream: StreamId, message: M)

  /** What each receive endpoint of each stream has been given. */
  type Channels<M> = map<StreamId, seq<seq<M>>>

  // ---------------------------------------------------------------------------------------------
  // Sending.

  /** One send through a pusher: a frame for every endpoint that goes to node n. */
  function Transmitted<M>(ends: seq<Option<NodeId>>, n: NodeId, f: Packet<M>): seq<Packet<M>> {
    if ends == [] then []
    else Transmitted(ends[..|ends| - 1], n, f) + if ends[|ends| - 1] == Some(n) then [f] else []
  }

  function EndsOf(g: Dataflow, here: NodeId, s: StreamId): seq<Option<NodeId>> {
    if s in g.streams then SendNodes(g, here, g.streams[s].source, g.streams[s].channels) else []
  }

  /** Everything node `here` puts on its connection to node n for a sequence of sends. */
  function Wire<M>(g: Dataflow, here: NodeId, n: NodeId, sends: seq<Packet<M>>): seq<Packet<M>> {
    if sends == [] then []
    else
      var f := sends[|sends| - 1];
      Wire(g, here, n, sends[..|sends| - 1]) + Transmitted(EndsOf(g, here, f.stream), n, f)
  }

  // ---------------------------------------------------------------------------------------------
  // Receiving.

  function Dispatch<M>(p: Channels<M>, f: Packet<M>): Channels<M> {
    if f.stream in p
    then p[f.stream := seq(|p[f.stream]|, k requires 0 <= k < |p[f.stream]| => p[f.stream][k] + [f.message])]
    else p
  }

  /** New pushers on their way to a receiver. */
  type Updates<M> = seq<(StreamId, seq<seq<M>>)>

  /** `update_pushers`: whatever has been queued is installed, the newest for each stream. */
  function Installed<M>(p: Channels<M>, rx: Updates<M>): Channels<M> {
    if rx == [] then p else Installed(p, rx[..|rx| - 1])[rx[|rx| - 1].0 := rx[|rx| - 1].1]
  }

  class DataReceiver<M> {
    /** The pusher of each stream: the channels of the readers it feeds. */
    var pushers: Channels<M>
    var rx: Updates<M>

    constructor ()
      ensures pushers == map[] && rx == []
    {
      pushers, rx := map[], [];
    }

    method UpdatePushers()
      modifies this
      ensures pushers == Installed(old(pushers), old(rx)) && rx == []
    {
      ghost var n := 0;
      while rx != []
        invariant 0 <= n <= |old(rx)| && rx == old(rx)[n..]
        invariant pushers == Installed(old(pushers), old(rx)[..n])
        decreases |rx|
      {
        assert old(rx)[..n + 1][..n] == old(rx)[..n];
        pushers, rx := pushers[rx[0].0 := rx[0].1], rx[1..];
        n := n + 1;
      }
      assert old(rx)[..n] == old(rx);
    }

    /** One round of the receive loop; without a pusher for the stream it panics. */
    method Receive(f: Packet<M>) returns (panicked: bool)
      modifies this
      ensures rx == [] && (panicked <==> f.stream !in Installed(old(pushers), old(rx)))
      ensures pushers == Dispatch(Installed(old(pushers), old(rx)), f)
    {
      UpdatePushers();
      if f.stream !in pushers { return true; }
      var channels := pushers[f.stream];
      for k := 0 to |channels|
        invariant rx == [] && pushers == Installed(old(pushers), old(rx))
        invariant |channels| == |pushers[f.stream]|
        invariant forall j :: 0 <= j < k ==> channels[j] == pushers[f.stream][j] + [f.message]
        invariant forall j :: k <= j < |channels| ==> channels[j] == pushers[f.stream][j]
      {
        channels := channels[k := channels[k] + [f.message]];
      }
      ghost var spec := Dispatch(pushers, f);
      pushers := pushers[f.stream := channels];
      assert spec[f.stream] == channels;
      return false;
    }
  }

  /** `None` if some frame finds no pusher. */
  function DispatchAll<M>(p: Channels<M>, fs: seq<Packet<M>>): Option<Channels<M>> {
    if fs == [] then Some(p)
    else
      var q := DispatchAll(p, fs[..|fs| - 1]);
      var f := fs[|fs| - 1];
      if q.Some? && f.stream in q.value then Some(Dispatch(q.value, f)) else None
  }

  function RecvOn(g: Dataflow, n: NodeId, s: StreamId): seq<Vertex> {
    if s in g.streams then RecvSinks(g, n, g.streams[s].source, g.streams[s].channels) else []
  }

  /** The pushers node n makes for streams that are written elsewhere: `add_inter_node_recv_endpoint` gives the shared
      pusher of a stream one more channel for every receive endpoint. */
  function NewPushers<M>(g: Dataflow, n: NodeId): Channels<M> {
    map s | s in g.streams && !OnNode(g, g.streams[s].source, n) && RecvOn(g, n, s) != [] :: seq(|RecvOn(g, n, s)|, _ => [])
  }

  // ---------------------------------------------------------------------------------------------
  // What arrives.

  function MessagesOf<M>(fs: seq<Packet<M>>, s: StreamId): seq<M> {
    if fs == [] then []
    else MessagesOf(fs[..|fs| - 1], s) + if fs[|fs| - 1].stream == s then [fs[|fs| - 1].message] else []
  }

  /** Every message n times in a row. */
  function Stretch<M>(ms: seq<M>, n: nat): seq<M> {
    if ms == [] then [] else Stretch(ms[..|ms| - 1], n) + Times(n, ms[|ms| - 1])
  }

  lemma {:induction false} MessagesAppend<M>(a: seq<Packet<M>>, b: seq<Packet<M>>, s: StreamId)
    ensures MessagesOf(a + b, s) == MessagesOf(a, s) + MessagesOf(b, s)
  {
    if b == [] {
      assert a + b == a;
    } else {
      MessagesAppend(a, b[..|b| - 1], s);
      assert (a + b)[..|a + b| - 1] == a + b[..|b| - 1];
    }
  }

  function Times<T>(n: nat, x: T): seq<T> { seq(n, _ => x) }

  lemma {:induction false} TransmittedTimes<M>(ends: seq<Option<NodeId>>, n: NodeId, f: Packet<M>)
    ensures Transmitted(ends, n, f) == Times(multiset(ends)[Some(n)], f)
  {
    if ends != [] {
      var init, last := ends[..|ends| - 1], ends[|ends| - 1];
      TransmittedTimes(init, n, f);
      assert ends == init + [last];
      assert multiset(ends)[Some(n)] == multiset(init)[Some(n)] + if last == Some(n) then 1 else 0;
    }
  }

  lemma {:induction false} TimesMessages<M>(n: nat, f: Packet<M>, s: StreamId)
    ensures MessagesOf(Times(n, f), s) == if s == f.stream then Times(n, f.message) else []
  {
    if n > 0 {
      TimesMessages(n - 1, f, s);
      assert Times(n, f)[..n - 1] == Times(n - 1, f);
    }
  }

  /** The streams of the sends are written on node `here`. */
  ghost predicate SentFrom<M>(g: Dataflow, here: NodeId, sends: seq<Packet<M>>) {
    forall f <- sends :: f.stream in g.streams && OnNode(g, g.streams[f.stream].source, here)
  }

  /** The connection carries each message once for every receive endpoint on the other node. */
  lemma {:induction false} WireMessages<M>(g: Dataflow, g': Dataflow, here: NodeId, n: NodeId, sends: seq<Packet<M>>, s: StreamId)
    requires Conserved(g) && SourcesKnown(g) && Scheduled(g, g') && here != n && SentFrom(g', here, sends)
    ensures MessagesOf(Wire(g', here, n, sends), s) == Stretch(MessagesOf(sends, s), |RecvOn(g', n, s)|)
    ensures forall f <- Wire(g', here, n, sends) :: f.stream in NewPushers<M>(g', n)
  {
    hide Conserved, SourcesKnown, Scheduled, EndsOf, RecvOn, NewPushers, OnNode;
    if sends != [] {
      var init, f := sends[..|sends| - 1], sends[|sends| - 1];
      assert f in sends;
      WireMessages(g, g', here, n, init, s);
      var more := Transmitted(EndsOf(g', here, f.stream), n, f);
      TransmittedTimes(EndsOf(g', here, f.stream), n, f);
      Transmissions(g, g', here, n, f.stream);
      TimesMessages(|RecvOn(g', n, f.stream)|, f, s);
      MessagesAppend(Wire(g', here, n, init), more, s);
      StretchOn(MessagesOf(init, s), f.message, |RecvOn(g', n, s)|);
      forall x <- more ensures x.stream in NewPushers<M>(g', n) { HasPusher<M>(g', here, n, f.stream); }
      assert MessagesOf(init, s) + [] == MessagesOf(init, s);
    }
  }

  lemma StretchOn<M>(ms: seq<M>, m: M, n: nat)
    ensures Stretch(ms + [m], n) == Stretch(ms, n) + Times(n, m)
  {
    assert (ms + [m])[..|ms|] == ms;
  }

  lemma HasPusher<M>(g: Dataflow, here: NodeId, n: NodeId, s: StreamId)
    requires s in g.streams && OnNode(g, g.streams[s].source, here) && here != n && RecvOn(g, n, s) != []
    ensures s in NewPushers<M>(g, n)
  {
  }

  lemma Transmissions(g: Dataflow, g': Dataflow, here: NodeId, n: NodeId, s: StreamId)
    requires Conserved(g) && SourcesKnown(g) && Scheduled(g, g') && here != n
    requires s in g'.streams && OnNode(g', g'.streams[s].source, here)
    ensures multiset(EndsOf(g', here, s))[Some(n)] == |RecvOn(g', n, s)|
  {
    assert Matched(g, s);
    MatchedSinks(g, s);
    AllPlaced(g, g', s);
    OneTransmissionPerReader(g', here, n, g'.streams[s].source, g'.streams[s].channels);
  }

  /** Every pusher is for a stream that another node writes, and has a channel for each of that node's transmissions. */
  lemma PushersUsed<M>(g: Dataflow, g': Dataflow, n: NodeId, s: StreamId) returns (here: NodeId)
    requires Conserved(g) && SourcesKnown(g) && Scheduled(g, g') && s in NewPushers<M>(g', n)
    ensures here != n && OnNode(g', g'.streams[s].source, here)
    ensures |NewPushers<M>(g', n)[s]| == multiset(EndsOf(g', here, s))[Some(n)] > 0
  {
    assert ScheduledStream(g, g.streams[s], g'.streams[s]);
    here := NodeOf(g, g.streams[s].source).value;
    Transmissions(g, g', here, n, s);
  }

  /** A receiver gives every frame of a stream to every reader of the stream on its node. */
  lemma {:induction false} DispatchExact<M>(p: Channels<M>, fs: seq<Packet<M>>)
    ensures DispatchAll(p, fs).Some? <==> forall f <- fs :: f.stream in p
    ensures DispatchAll(p, fs).Some? ==>
      var q := DispatchAll(p, fs).value;
      && q.Keys == p.Keys
      && forall s <- p :: |q[s]| == |p[s]| && forall k :: 0 <= k < |p[s]| ==> q[s][k] == p[s][k] + MessagesOf(fs, s)
  {
    if fs != [] {
      var init, f := fs[..|fs| - 1], fs[|fs| - 1];
      DispatchExact(p, init);
      assert fs == init + [f];
    }
  }

  /** Whatever the writers on one node send, nothing panics at the other node, and each of the k readers of a stream there
      gets every message k times in a row; in the meantime it has a prefix of that. */
  lemma RemoteCopies<M>(g: Dataflow, g': Dataflow, here: NodeId, n: NodeId, sends: seq<Packet<M>>, j: int, s: StreamId, k: int)
    requires Conserved(g) && SourcesKnown(g) && Scheduled(g, g') && here != n && SentFrom(g', here, sends)
    requires s in g'.streams && OnNode(g', g'.streams[s].source, here) && 0 <= k < |RecvOn(g', n, s)|
    requires 0 <= j <= |Wire(g', here, n, sends)|
    ensures var wire := Wire(g', here, n, sends);
      var q := DispatchAll(NewPushers<M>(g', n), wire[..j]);
      && q.Some? && s in q.value && k < |q.value[s]|
      && q.value[s][k] <= Stretch(MessagesOf(sends, s), |RecvOn(g', n, s)|)
      && (j == |wire| ==> q.value[s][k] == Stretch(MessagesOf(sends, s), |RecvOn(g', n, s)|))
  {
    hide Conserved, SourcesKnown, Scheduled, OnNode, Wire, Stretch, MessagesOf, SentFrom, RecvOn;
    var wire, p := Wire(g', here, n, sends), NewPushers<M>(g', n);
    WireMessages(g, g', here, n, sends, s);
    HasPusher<M>(g', here, n, s);
    DispatchExact(p, wire[..j]);
    MessagesAppend(wire[..j], wire[j..], s);
    assert wire[..j] + wire[j..] == wire;
    assert j == |wire| ==> wire[..j] == wire;
    assert p[s][k] == [];
  }

  lemma {:induction false} StretchLength<M>(ms: seq<M>, n: nat)
    ensures n == 1 ==> Stretch(ms, n) == ms
    ensures n == 0 ==> Stretch(ms, n) == []
    ensures n >= 2 && ms != [] ==> |Stretch(ms, n)| > |ms|
  {
    if ms != [] { StretchLength(ms[..|ms| - 1], n); }
  }

  /** So a reader on another node gets every message exactly once exactly if it is the only reader of the stream there. */
  lemma ExactlyOnce<M>(g: Dataflow, g': Dataflow, here: NodeId, n: NodeId, sends: seq<Packet<M>>, s: StreamId, k: int)
    requires Conserved(g) && SourcesKnown(g) && Scheduled(g, g') && here != n && SentFrom(g', here, sends)
    requires s in g'.streams && OnNode(g', g'.streams[s].source, here) && 0 <= k < |RecvOn(g', n, s)|
    ensures var q := DispatchAll(NewPushers<M>(g', n), Wire(g', here, n, sends));
      && q.Some? && s in q.value && k < |q.value[s]|
      && (q.value[s][k] == MessagesOf(sends, s) <==> |RecvOn(g', n, s)| == 1 || MessagesOf(sends, s) == [])
  {
    hide Conserved, SourcesKnown, Scheduled, OnNode, Wire, MessagesOf, SentFrom, RecvOn, NewPushers, DispatchAll;
    var wire := Wire(g', here, n, sends);
    RemoteCopies(g, g', here, n, sends, |wire|, s, k);
    assert wire[..|wire|] == wire;
    StretchLength(MessagesOf(sends, s), |RecvOn(g', n, s)|);
  }

  // ---------------------------------------------------------------------------------------------
  // Pushers are queued before frames arrive.

  /** What happens at a receiver: a pusher is queued for it, or a frame arrives. */
  datatype Event<M> = Queued(stream: StreamId, channels: seq<seq<M>>) | Came(packet: Packet<M>)

  /** The pushers and the queue of a receiver after some events; `None` once it has panicked. */
  function Received<M>(es: seq<Event<M>>): Option<(Channels<M>, Updates<M>)> {
    if es == [] then Some((map[], []))
    else
      var before := Received(es[..|es| - 1]);
      if before.None? then None
      else
        var (p, rx) := before.value;
        match es[|es| - 1]
        case Queued(s, cs) => Some((p, rx + [(s, cs)]))
        case Came(f) =>
          var q := Installed(p, rx);
          if f.stream in q then Some((Dispatch(q, f), [])) else None
  }

  /** A pusher for stream s was queued among the first n events. */
  predicate QueuedBefore<M>(es: seq<Event<M>>, n: int, s: StreamId) {
    exists j :: 0 <= j < n <= |es| && es[j].Queued? && es[j].stream == s
  }

  lemma {:induction false} InstalledKeys<M>(p: Channels<M>, rx: Updates<M>)
    ensures forall s :: s in Installed(p, rx) <==> s in p || exists i :: 0 <= i < |rx| && rx[i].0 == s
  {
    if rx != [] {
      InstalledKeys(p, rx[..|rx| - 1]);
      assert rx == rx[..|rx| - 1] + [rx[|rx| - 1]];
    }
  }

  /** The newest pusher queued for a stream is the one that is installed, and the old one only if none is queued. */
  lemma {:induction false} NewestInstalled<M>(p: Channels<M>, rx: Updates<M>, s: StreamId, i: int)
    requires -1 <= i < |rx| && (forall j :: i < j < |rx| ==> rx[j].0 != s) && (if i >= 0 then rx[i].0 == s else s in p)
    ensures s in Installed(p, rx) && Installed(p, rx)[s] == if i >= 0 then rx[i].1 else p[s]
  {
    if rx != [] && i < |rx| - 1 { NewestInstalled(p, rx[..|rx| - 1], s, i); }
  }

  ghost predicate Ready<M>(es: seq<Event<M>>) {
    forall i :: 0 <= i < |es| && es[i].Came? ==> QueuedBefore(es, i, es[i].packet.stream)
  }

  lemma QueuedInit<M>(es: seq<Event<M>>, n: int, s: StreamId)
    requires 0 <= n < |es|
    ensures QueuedBefore(es[..|es| - 1], n, s) <==> QueuedBefore(es, n, s)
  {
    var init := es[..|es| - 1];
    assert forall j :: 0 <= j < n ==> init[j] == es[j];
  }

  lemma ReadyInit<M>(es: seq<Event<M>>)
    requires es != []
    ensures var n := |es| - 1; Ready(es) <==> Ready(es[..n]) && (es[n].Came? ==> QueuedBefore(es, n, es[n].packet.stream))
  {
    hide QueuedBefore;
    var n := |es| - 1;
    var init := es[..n];
    forall i | 0 <= i < n && es[i].Came? ensures QueuedBefore(init, i, es[i].packet.stream) <==> QueuedBefore(es, i, es[i].packet.stream) {
      QueuedInit(es, i, es[i].packet.stream);
    }
    if Ready(es) {
      forall i | 0 <= i < n && init[i].Came? ensures QueuedBefore(init, i, init[i].packet.stream) {
        assert QueuedBefore(es, i, es[i].packet.stream);
      }
    }
  }

  /** A receiver panics exactly if some frame arrives before a pusher for its stream was queued. */
  lemma {:induction false} PanicsExactly<M>(es: seq<Event<M>>)
    ensures Received(es).Some? <==> Ready(es)
    ensures Received(es).Some? ==> var (p, rx) := Received(es).value;
      forall s :: s in Installed(p, rx) <==> QueuedBefore(es, |es|, s)
  {
    if es == [] {
      InstalledKeys<M>(map[], []);
    } else {
      var n := |es| - 1;
      PanicsExactly(es[..n]);
      ReadyInit(es);
      if Received(es[..n]).Some? {
        var (p, rx) := Received(es[..n]).value;
        forall s ensures QueuedBefore(es[..n], n, s) <==> QueuedBefore(es, n, s) { QueuedInit(es, n, s); }
        forall s ensures QueuedBefore(es, n + 1, s) <==> QueuedBefore(es, n, s) || (es[n].Queued? && es[n].stream == s) { OneMoreEvent(es, s); }
        match es[n]
        case Queued(s, cs) =>
          assert (rx + [(s, cs)])[..|rx|] == rx;
        case Came(f) =>
          InstalledKeys(Dispatch(Installed(p, rx), f), []);
      }
    }
  }

  lemma OneMoreEvent<M>(es: seq<Event<M>>, s: StreamId)
    requires es != []
    ensures QueuedBefore(es, |es|, s) <==> QueuedBefore(es, |es| - 1, s) || (es[|es| - 1].Queued? && es[|es| - 1].stream == s)
  {
    var n := |es| - 1;
    if es[n].Queued? && es[n].stream == s { assert 0 <= n < |es|; }
  }

  /** The events at a receiver of node n, each at a state of the cluster: node n has queued its pushers before it announces
      that its operators are set up, and frames are sent by nodes that run, on streams with readers on node n. */
  ghost predicate OnSchedule<M>(g: Dataflow, tr: seq<Cluster>, n: int, es: seq<Event<M>>, at: seq<nat>) {
    && |at| == |es| && (forall i :: 0 <= i < |es| ==> at[i] < |tr| && 0 <= n < |tr[at[i]].nodes|)
    && (forall i, s :: 0 <= i < |es| && Announced(tr[at[i]].nodes[n].phase) && s in NewPushers<M>(g, n) ==> QueuedBefore(es, i, s))
    && (forall i :: 0 <= i < |es| && es[i].Came? ==> es[i].packet.stream in NewPushers<M>(g, n) && SomeRuns(tr[at[i]]))
  }

  ghost predicate SomeRuns(s: Cluster) { exists j :: 0 <= j < |s.nodes| && s.nodes[j].phase.Running? }

  /** The start-up barrier rules the race out: no receiver gets a frame before the pusher for it. */
  lemma NoRace<M>(g: Dataflow, tr: seq<Cluster>, n: int, es: seq<Event<M>>, at: seq<nat>)
    requires IsRun(tr) && OnSchedule(g, tr, n, es, at)
    ensures Received(es).Some?
  {
    hide IsRun, QueuedBefore, Received, NewPushers;
    forall i | 0 <= i < |es| && es[i].Came? ensures QueuedBefore(es, i, es[i].packet.stream) {
      RunInvariant(tr, at[i]);
      AllHaveAnnounced(tr[at[i]], n);
    }
    PanicsExactly(es);
  }

  lemma AllHaveAnnounced(s: Cluster, n: int)
    requires Invariant(s) && SomeRuns(s) && 0 <= n < |s.nodes|
    ensures Announced(s.nodes[n].phase)
  {
    hide Honest, Lossless, OwnOperators, Tidy;
    var j :| 0 <= j < |s.nodes| && s.nodes[j].phase.Running?;
    assert Safe(s);
  }

  /** Pushers first, in any order, and then frames: the receiver does what `DispatchAll` says. */
  lemma {:induction false} QueuedFirst<M>(p: Channels<M>, rx: Updates<M>, fs: seq<Packet<M>>)
    requires Installed(map[], rx) == p
    ensures var es := QueueAll(rx) + ComeAll(fs);
      match Received(es)
      case None => DispatchAll(p, fs).None?
      case Some(r) => DispatchAll(p, fs) == Some(Installed(r.0, r.1))
  {
    if fs == [] {
      QueuedUp(rx);
      assert QueueAll(rx) + ComeAll(fs) == QueueAll(rx);
    } else {
      var init, es := fs[..|fs| - 1], QueueAll(rx) + ComeAll(fs);
      QueuedFirst(p, rx, init);
      assert es[..|es| - 1] == QueueAll(rx) + ComeAll(init) && es[|es| - 1] == Came(fs[|fs| - 1]);
      if Received(es[..|es| - 1]).Some? {
        var (q, more) := Received(es[..|es| - 1]).value;
        assert Installed(Dispatch(Installed(q, more), fs[|fs| - 1]), []) == Dispatch(Installed(q, more), fs[|fs| - 1]);
      }
    }
  }

  function QueueAll<M>(rx: Updates<M>): seq<Event<M>> {
    seq(|rx|, i requires 0 <= i < |rx| => Queued(rx[i].0, rx[i].1))
  }

  function ComeAll<M>(fs: seq<Packet<M>>): seq<Event<M>> { seq(|fs|, i requires 0 <= i < |fs| => Came(fs[i])) }

  lemma {:induction false} QueuedUp<M>(rx: Updates<M>)
    ensures Received(QueueAll(rx)) == Some((map[], rx))
  {
    if rx != [] {
      QueuedUp(rx[..|rx| - 1]);
      assert QueueAll(rx)[..|rx| - 1] == QueueAll(rx[..|rx| - 1]);
      assert rx == rx[..|rx| - 1] + [rx[|rx| - 1]];
    }
  }
}
