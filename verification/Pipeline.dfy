/** From what arrives on an operator's streams to the order its callbacks run in. */
module Pipeline {
  import opened Timestamps
  import opened OperatorEvents
  import opened Basics
  import opened WriteStreams
  import opened Bundles
  import opened BundleTrees
  import opened LowWatermarks
  import opened EventMakers
  import opened OperatorSetup
  import opened LatticeRuns
  import Executor
  import MessageBarrier
  import RunnerCount

  /** The merged input of the operator: what arrives, on which stream. */
  datatype Item<D> = Item(stream: StreamId, message: Message<D>)

  function Deliveries<D>(items: seq<Item<D>>): seq<Delivery> {
    if items == [] then []
    else
      var last := items[|items| - 1];
      var rest := Deliveries(items[..|items| - 1]);
      if last.message.Watermark? then rest + [Delivery(last.stream, last.message.timestamp)] else rest
  }

  /** The operator after the items have been turned into events. */
  function After<D>(op: Operator, items: seq<Item<D>>): (r: Operator)
    requires WellBuilt(op)
    ensures WellBuilt(r) && r.plain == op.plain && r.stateful == op.stateful && SameShape(op.forest, r.forest)
  {
    if items == [] then op
    else
      var before := After(op, items[..|items| - 1]);
      var last := items[|items| - 1];
      var f := MakeEvents(before, last.stream, last.message).0;
      StillBuilt(before, f);
      SameShapeJoins(op.forest, before.forest, f);
      before.(forest := f)
  }

  /** The events made from item c. */
  function Batch<D>(op: Operator, items: seq<Item<D>>, c: int): seq<Made>
    requires WellBuilt(op) && 0 <= c < |items|
  {
    MakeEvents(After(op, items[..c]), items[c].stream, items[c].message).1
  }

  function EventsOf(made: seq<Made>): seq<OperatorEvent> {
    seq(|made|, i requires 0 <= i < |made| => made[i].event)
  }

  /** What the executor's producer is fed. */
  function Input<D>(op: Operator, items: seq<Item<D>>): seq<seq<OperatorEvent>>
    requires WellBuilt(op)
  {
    seq(|items|, c requires 0 <= c < |items| => EventsOf(Batch(op, items, c)))
  }

  // ---------------------------------------------------------------------------------------------
  // Bundles over whole inputs.

  lemma {:induction false} AfterTracks<D>(op: Operator, items: seq<Item<D>>)
    requires WellBuilt(op) && Tracks(op.forest, [])
    ensures Tracks(After(op, items).forest, Deliveries(items))
  {
    if items != [] {
      var init, last := items[..|items| - 1], items[|items| - 1];
      AfterTracks(op, init);
      if last.message.Watermark? {
        WatermarkTracks(After(op, init), Deliveries(init), Delivery(last.stream, last.message.timestamp));
      }
    }
  }

  lemma {:induction false} DeliveredAt<D>(items: seq<Item<D>>, d: Delivery) returns (a: int)
    requires d in Deliveries(items)
    ensures 0 <= a < |items| && items[a] == Item(d.stream, Watermark(d.time))
  {
    var init, last := items[..|items| - 1], items[|items| - 1];
    if last.message.Watermark? && d == Delivery(last.stream, last.message.timestamp) {
      a := |items| - 1;
    } else {
      a := DeliveredAt(init, d);
    }
  }

  /** Item c makes bundle b fire at low watermark v. */
  ghost predicate FiresAt<D>(op: Operator, items: seq<Item<D>>, c: int, b: int, v: Timestamp)
    requires WellBuilt(op)
  {
    && 0 <= c < |items| && items[c].message.Watermark?
    && Firing(b, v) in Firings(Notified(After(op, items[..c]), |op.stateful|, items[c].stream, items[c].message.timestamp).1)
  }

  /** A bundle fires exactly when the low watermark of its streams rises, and at that low watermark. */
  lemma FiresExactly<D>(op: Operator, items: seq<Item<D>>, c: int, b: int, v: Timestamp)
    requires WellBuilt(op) && Tracks(op.forest, []) && 0 <= c < |items|
    ensures FiresAt(op, items, c, b, v) <==>
      && items[c].message.Watermark? && 0 <= b < |op.forest|
      && Rises(Deliveries(items[..c]), Delivery(items[c].stream, items[c].message.timestamp), op.forest[b].ids, v)
  {
    if items[c].message.Watermark? {
      var before := After(op, items[..c]);
      AfterTracks(op, items[..c]);
      WatermarkTracks(before, Deliveries(items[..c]), Delivery(items[c].stream, items[c].message.timestamp));
      if 0 <= b < |op.forest| { assert SameBut(op.forest[b], before.forest[b]); }
    }
  }

  lemma Next<D>(items: seq<Item<D>>, c: int)
    requires 0 <= c < |items|
    ensures Deliveries(items[..c + 1]) == Deliveries(items[..c]) +
      if items[c].message.Watermark? then [Delivery(items[c].stream, items[c].message.timestamp)] else []
  {
    assert items[..c + 1][..c] == items[..c];
  }

  lemma {:induction false} LowGrows<D>(items: seq<Item<D>>, a: int, c: int, ids: seq<StreamId>)
    requires 0 <= a <= c <= |items|
    ensures !Older(LowOf(Deliveries(items[..c]), ids), LowOf(Deliveries(items[..a]), ids))
    decreases c - a
  {
    var h := Deliveries(items[..a]);
    OlderTotal(LowOf(h, ids), LowOf(h, ids));
    if a < c {
      Next(items, a);
      assert h + [] == h;
      LowGrows(items, a + 1, c, ids);
      if items[a].message.Watermark? {
        LowRises(h, Delivery(items[a].stream, items[a].message.timestamp), ids);
        OlderTransitive(LowOf(h, ids), LowOf(Deliveries(items[..a + 1]), ids), LowOf(Deliveries(items[..c]), ids));
      }
    }
  }

  /** A bundle's firing times strictly increase. */
  lemma FiresIncrease<D>(op: Operator, items: seq<Item<D>>, a: int, c: int, b: int, u: Timestamp, v: Timestamp)
    requires WellBuilt(op) && Tracks(op.forest, []) && a < c && FiresAt(op, items, a, b, u) && FiresAt(op, items, c, b, v)
    ensures Lt(u, v)
  {
    FiresExactly(op, items, a, b, u);
    FiresExactly(op, items, c, b, v);
    var ids := op.forest[b].ids;
    Next(items, a);
    Next(items, c);
    LowGrows(items, a + 1, c, ids);
    OlderTotal(LowOf(Deliveries(items[..c]), ids), Some(v));
    OlderTransitive(Some(u), LowOf(Deliveries(items[..c]), ids), Some(v));
  }

  /** In the end a bundle has last fired at the low watermark of its streams, if they have one at all. */
  lemma {:induction false} FinalFiring<D>(op: Operator, items: seq<Item<D>>, n: nat, b: int, v: Timestamp) returns (c: int)
    requires WellBuilt(op) && Tracks(op.forest, []) && n <= |items| && 0 <= b < |op.forest| && op.forest[b].ids != []
    requires LowOf(Deliveries(items[..n]), op.forest[b].ids) == Some(v)
    ensures 0 <= c < n && FiresAt(op, items, c, b, v)
  {
    hide LowOf, FiresAt, WellBuilt, Tracks, Deliveries;
    var ids := op.forest[b].ids;
    if n == 0 {
      NoLowYet(items, ids);
    } else if LowOf(Deliveries(items[..n - 1]), ids) == Some(v) {
      c := FinalFiring(op, items, n - 1, b, v);
    } else {
      c := n - 1;
      RisesHere(items, c, ids, v);
      FiresExactly(op, items, c, b, v);
    }
  }

  lemma NoLowYet<D>(items: seq<Item<D>>, ids: seq<StreamId>)
    requires ids != []
    ensures LowOf(Deliveries(items[..0]), ids) == None
  {
    assert items[..0] == [];
    if LowOf([], ids).Some? { LowMeaning([], ids, LowOf([], ids).value); }
  }

  /** Where the low watermark first takes its final value. */
  lemma RisesHere<D>(items: seq<Item<D>>, c: int, ids: seq<StreamId>, v: Timestamp)
    requires 0 <= c < |items|
    requires LowOf(Deliveries(items[..c + 1]), ids) == Some(v) && LowOf(Deliveries(items[..c]), ids) != Some(v)
    ensures items[c].message.Watermark?
    ensures Rises(Deliveries(items[..c]), Delivery(items[c].stream, items[c].message.timestamp), ids, v)
  {
    var h := Deliveries(items[..c]);
    Next(items, c);
    assert h + [] == h;
    LowRises(h, Delivery(items[c].stream, items[c].message.timestamp), ids);
    OlderTotal(LowOf(h, ids), Some(v));
  }

  /** The source of an event reads stream s. */
  predicate ReadsStream(op: Operator, x: Source, s: StreamId) {
    match x
    case OfStream(r) => r == s
    case OfState(k) => 0 <= k < |op.stateful| && op.stateful[k].id == s
    case OfBundle(b) => 0 <= b < |op.forest| && s in op.forest[b].ids
  }

  /** A bundle fires at v only after each of its streams has had a watermark of v or more. */
  lemma BundleHeard<D>(op: Operator, items: seq<Item<D>>, c: int, b: int, v: Timestamp, s: StreamId) returns (a: int)
    requires WellBuilt(op) && Tracks(op.forest, []) && 0 <= c < |items| && items[c].message.Watermark?
    requires 0 <= b < |op.forest| && s in op.forest[b].ids
    requires FiresAt(op, items, c, b, v)
    ensures 0 <= a <= c && items[a].stream == s && items[a].message.Watermark? && Le(v, items[a].message.timestamp)
  {
    var d, h := Delivery(items[c].stream, items[c].message.timestamp), Deliveries(items[..c]);
    FiresExactly(op, items, c, b, v);
    LowMeaning(h + [d], op.forest[b].ids, v);
    var t := MaxOf(h + [d], s).value;
    if Delivery(s, t) in h {
      a := DeliveredAt(items[..c], Delivery(s, t));
    } else {
      a := c;
    }
  }

  /** Whatever made a watermark event at v, each stream it reads has had a watermark of v or more by then. */
  lemma Heard<D>(op: Operator, items: seq<Item<D>>, c: int, x: Made, s: StreamId) returns (a: int)
    requires WellBuilt(op) && Tracks(op.forest, []) && 0 <= c < |items| && items[c].message.Watermark?
    requires x in Batch(op, items, c) && ReadsStream(op, x.source, s)
    ensures x.event.isWatermark
    ensures 0 <= a <= c && items[a].stream == s && items[a].message.Watermark? && Le(x.event.timestamp, items[a].message.timestamp)
  {
    var before, t := After(op, items[..c]), items[c].message.timestamp;
    WatermarkMade(before, items[c].stream, t, x);
    if x.source.OfBundle? {
      a := BundleHeard(op, items, c, x.source.bundle, x.event.timestamp, s);
    } else {
      TotalOrder(t, t);
      a := c;
    }
  }

  // ---------------------------------------------------------------------------------------------
  // Arrival order.

  /** On every stream, nothing older than a watermark arrives after it. */
  ghost predicate DisciplinedItems<D>(items: seq<Item<D>>) {
    forall a, c :: 0 <= a < c < |items| && items[a].stream == items[c].stream && items[a].message.Watermark? ==>
      Le(items[a].message.timestamp, items[c].message.timestamp)
  }

  /** A message older than the time of a watermark event on its stream has arrived before that event was made. */
  lemma ArrivesBefore<D>(op: Operator, items: seq<Item<D>>, a: int, c: int, x: Made)
    requires WellBuilt(op) && Tracks(op.forest, []) && DisciplinedItems(items)
    requires 0 <= a < |items| && items[a].message.TimestampedData?
    requires 0 <= c < |items| && items[c].message.Watermark? && x in Batch(op, items, c)
    requires ReadsStream(op, x.source, items[a].stream) && Lt(items[a].message.timestamp, x.event.timestamp)
    ensures a < c
  {
    var w := Heard(op, items, c, x, items[a].stream);
    var t, v, u := items[a].message.timestamp, x.event.timestamp, items[w].message.timestamp;
    TotalOrder(t, v);
    TotalOrder(v, u);
    TotalOrder(t, u);
    Transitive(t, v, u);
  }

  function MessagesOn<D>(items: seq<Item<D>>, s: StreamId): seq<Message<D>> {
    if items == [] then []
    else
      var rest := MessagesOn(items[..|items| - 1], s);
      if items[|items| - 1].stream == s then rest + [items[|items| - 1].message] else rest
  }

  lemma {:induction false} MessageAt<D>(items: seq<Item<D>>, a: int, s: StreamId)
    requires 0 <= a < |items| && items[a].stream == s
    ensures |MessagesOn(items[..a], s)| < |MessagesOn(items, s)|
    ensures MessagesOn(items, s)[|MessagesOn(items[..a], s)|] == items[a].message
  {
    if a < |items| - 1 {
      MessageAt(items[..|items| - 1], a, s);
      assert items[..|items| - 1][..a] == items[..a];
    }
  }

  /** A stream that arrives in the order of a disciplined log is disciplined, however the streams are merged. */
  lemma MergeDisciplined<D>(items: seq<Item<D>>)
    requires forall s :: Disciplined(MessagesOn(items, s))
    ensures DisciplinedItems(items)
  {
    forall a, c | 0 <= a < c < |items| && items[a].stream == items[c].stream && items[a].message.Watermark?
      ensures Le(items[a].message.timestamp, items[c].message.timestamp)
    {
      var s := items[a].stream;
      MessageAt(items, a, s);
      MessageAt(items, c, s);
      MessageAt(items[..c], a, s);
      assert items[..c][..a] == items[..a];
    }
  }

  // ---------------------------------------------------------------------------------------------
  // Where events stand in the executor's input.

  function Start(bs: seq<seq<OperatorEvent>>, c: int): nat
    requires 0 <= c <= |bs|
  {
    |Executor.Flatten(bs[..c])|
  }

  lemma {:induction false} FlattenSplit(bs: seq<seq<OperatorEvent>>, c: int)
    requires 0 <= c <= |bs|
    ensures Executor.Flatten(bs) == Executor.Flatten(bs[..c]) + Executor.Flatten(bs[c..])
    decreases |bs|
  {
    if c == 0 {
      assert bs[..0] == [] && bs[0..] == bs;
    } else {
      FlattenSplit(bs[1..], c - 1);
      assert bs[1..][..c - 1] == bs[..c][1..] && bs[1..][c - 1..] == bs[c..];
    }
  }

  lemma EventAt(bs: seq<seq<OperatorEvent>>, c: int, y: int)
    requires 0 <= c < |bs| && 0 <= y < |bs[c]|
    ensures Start(bs, c) + y < |Executor.Flatten(bs)| && Executor.Flatten(bs)[Start(bs, c) + y] == bs[c][y]
  {
    FlattenSplit(bs, c);
    assert bs[c..][0] == bs[c];
  }

  lemma StartsLater(bs: seq<seq<OperatorEvent>>, a: int, c: int)
    requires 0 <= a < c <= |bs|
    ensures Start(bs, a) + |bs[a]| <= Start(bs, c)
  {
    var cut := bs[..c];
    FlattenSplit(cut, a);
    assert cut[..a] == bs[..a] && cut[a..][0] == bs[a];
  }

  lemma {:induction false} Locate(bs: seq<seq<OperatorEvent>>, i: int) returns (c: int, z: int)
    requires 0 <= i < |Executor.Flatten(bs)|
    ensures 0 <= c < |bs| && 0 <= z < |bs[c]| && i == Start(bs, c) + z
    decreases |bs|
  {
    if i < |bs[0]| {
      c, z := 0, i;
      assert bs[..0] == [];
    } else {
      c, z := Locate(bs[1..], i - |bs[0]|);
      assert bs[..c + 1][1..] == bs[1..][..c];
      c := c + 1;
    }
  }

  lemma MadeAt<D>(op: Operator, items: seq<Item<D>>, i: int) returns (c: int, z: int)
    requires WellBuilt(op) && 0 <= i < |Executor.Flatten(Input(op, items))|
    ensures 0 <= c < |items| && 0 <= z < |Batch(op, items, c)| && i == Start(Input(op, items), c) + z
    ensures var e := Executor.Flatten(Input(op, items))[i];
      e == Batch(op, items, c)[z].event && (if items[c].message.Watermark? then e.isWatermark else StreamMade(e))
  {
    var bs := Input(op, items);
    c, z := Locate(bs, i);
    EventAt(bs, c, z);
    var x := Batch(op, items, c)[z];
    assert x.event == bs[c][z];
    if items[c].message.Watermark? {
      WatermarkMade(After(op, items[..c]), items[c].stream, items[c].message.timestamp, x);
    } else {
      DataMadeExact(After(op, items[..c]), |op.stateful|, items[c].stream, items[c].message.timestamp, x);
    }
  }

  /** Whatever arrives, the events are as the streams and bundles make them. */
  lemma InputMade<D>(op: Operator, items: seq<Item<D>>)
    requires WellBuilt(op)
    ensures Executor.MadeInput(Input(op, items))
  {
    hide WellBuilt, Input, StreamMade;
    var all := Executor.Flatten(Input(op, items));
    forall e <- all ensures MessageBarrier.IsMade(e) {
      var i :| 0 <= i < |all| && all[i] == e;
      var _, _ := MadeAt(op, items, i);
    }
  }

  /** With one event runner, a watermark callback at v that reads stream s (alone, or as part of a bundle) starts
      only after the callbacks of every message of s older than v have completed. */
  lemma WatermarkBarrier<D>(op: Operator, items: seq<Item<D>>, tr: seq<Executor.State>, k: nat, a: int, y: int, c: int, z: int)
    requires WellBuilt(op) && Tracks(op.forest, []) && DisciplinedItems(items)
    requires Executor.Execution(tr, Input(op, items), 1) && k < |tr|
    requires 0 <= a < |items| && items[a].message.TimestampedData? && 0 <= y < |Batch(op, items, a)|
    requires 0 <= c < |items| && items[c].message.Watermark? && 0 <= z < |Batch(op, items, c)|
    requires var x := Batch(op, items, c)[z];
      ReadsStream(op, x.source, items[a].stream) && Lt(items[a].message.timestamp, x.event.timestamp)
    requires Start(Input(op, items), c) + z in tr[k].run.handed
    ensures Start(Input(op, items), a) + y in tr[k].run.done
  {
    hide Executor.Execution, WellBuilt, Tracks, DisciplinedItems, Batch, Start, Executor.Flatten, MessageBarrier.MessageFirst, ReadsStream, Lt;
    var input := Input(op, items);
    var x, m := Batch(op, items, c)[z], Batch(op, items, a)[y];
    var i, j := Start(input, a) + y, Start(input, c) + z;
    ArrivesBefore(op, items, a, c, x);
    StartsLater(input, a, c);
    EventAt(input, a, y);
    EventAt(input, c, z);
    MessageGoesFirst(op, items, a, c, m, x);
    InputMade(op, items);
    HandedLater(tr, input, k, i, j);
  }

  lemma MessageGoesFirst<D>(op: Operator, items: seq<Item<D>>, a: int, c: int, m: Made, x: Made)
    requires WellBuilt(op) && 0 <= a < |items| && items[a].message.TimestampedData? && m in Batch(op, items, a)
    requires 0 <= c < |items| && items[c].message.Watermark? && x in Batch(op, items, c)
    requires Lt(items[a].message.timestamp, x.event.timestamp)
    ensures MessageBarrier.MessageFirst(m.event, x.event)
  {
    DataMadeExact(After(op, items[..a]), |op.stateful|, items[a].stream, items[a].message.timestamp, m);
    WatermarkMade(After(op, items[..c]), items[c].stream, items[c].message.timestamp, x);
    TotalOrder(m.event.timestamp, x.event.timestamp);
  }

  lemma HandedLater(tr: seq<Executor.State>, input: seq<seq<OperatorEvent>>, k: nat, i: int, j: int)
    requires Executor.Execution(tr, input, 1) && Executor.MadeInput(input) && k < |tr|
    requires 0 <= i < j < |Executor.Flatten(input)| && j in tr[k].run.handed
    requires MessageBarrier.MessageFirst(Executor.Flatten(input)[i], Executor.Flatten(input)[j])
    ensures i in tr[k].run.done
  {
    hide Executor.Execution, Executor.MadeInput;
    Executor.ExecutionValid(tr, input, 1, k);
    RunnerCount.OneRunnerMessagesFirst(tr, input, k);
    FedPrefix(tr[k], input, i);
    FedPrefix(tr[k], input, j);
  }

  lemma FedPrefix(s: Executor.State, input: seq<seq<OperatorEvent>>, i: int)
    requires Executor.Fed(s, input) && Ledger(s.run) && 0 <= i
    ensures i in s.run.handed ==> i < |s.run.events|
    ensures i < |s.run.events| ==> i < |Executor.Flatten(input)| && s.run.events[i] == Executor.Flatten(input)[i]
  {
  }

  // ---------------------------------------------------------------------------------------------
  // From the writers of the streams.

  /** Who writes a stream, and through which of the writer's endpoints the operator reads it. */
  datatype Writer<D> = Writer(endpoints: nat, calls: seq<Call<D>>, endpoint: nat)

  /** What arrives on each stream is what its writer pushed, in order and possibly not all of it yet. */
  ghost predicate Carried<D>(items: seq<Item<D>>, writers: map<StreamId, Writer<D>>) {
    forall s :: MessagesOn(items, s) == [] || (
      && s in writers && writers[s].endpoint < writers[s].endpoints
      && |SendAll(writers[s].endpoints, writers[s].calls).1| == writers[s].endpoints
      && MessagesOn(items, s) <= SendAll(writers[s].endpoints, writers[s].calls).1[writers[s].endpoint])
  }

  lemma CarriedDisciplined<D>(items: seq<Item<D>>, writers: map<StreamId, Writer<D>>)
    requires Carried(items, writers)
    ensures DisciplinedItems(items)
  {
    forall s ensures Disciplined(MessagesOn(items, s)) {
      if MessagesOn(items, s) != [] {
        EveryEndpointDisciplined(writers[s].endpoints, writers[s].calls);
      }
    }
    MergeDisciplined(items);
  }

  /** The messages a writer's handle accepted and pushed into the channel to this operator. */
  function EndpointLog<D>(w: Writer<D>): seq<Message<D>> {
    var logs := SendAll(w.endpoints, w.calls).1;
    if w.endpoint < |logs| then logs[w.endpoint] else []
  }

  lemma CarriedLog<D>(items: seq<Item<D>>, writers: map<StreamId, Writer<D>>, s: StreamId)
    requires Carried(items, writers) && s in writers
    ensures MessagesOn(items, s) <= EndpointLog(writers[s]) && Disciplined(EndpointLog(writers[s]))
  {
    EveryEndpointDisciplined(writers[s].endpoints, writers[s].calls);
  }

  /** Where the i-th message of a stream arrives. */
  lemma {:induction false} NthOn<D>(items: seq<Item<D>>, s: StreamId, i: int) returns (a: int)
    requires 0 <= i < |MessagesOn(items, s)|
    ensures 0 <= a < |items| && items[a] == Item(s, MessagesOn(items, s)[i]) && |MessagesOn(items[..a], s)| == i
  {
    var init := items[..|items| - 1];
    if i < |MessagesOn(init, s)| {
      a := NthOn(init, s, i);
      assert init[..a] == items[..a];
    } else {
      a := |items| - 1;
    }
  }

  /** Every message ever pushed on stream s that is older than a watermark event on it has arrived by then. */
  lemma LoggedArrived<D>(op: Operator, items: seq<Item<D>>, log: seq<Message<D>>, c: int, x: Made, s: StreamId, i: int) returns (a: int)
    requires WellBuilt(op) && Tracks(op.forest, []) && MessagesOn(items, s) <= log && Disciplined(log)
    requires 0 <= c < |items| && items[c].message.Watermark? && x in Batch(op, items, c) && ReadsStream(op, x.source, s)
    requires 0 <= i < |log| && log[i].TimestampedData? && Lt(log[i].timestamp, x.event.timestamp)
    ensures 0 <= a < c && items[a] == Item(s, log[i]) && |MessagesOn(items[..a], s)| == i
  {
    var w := Heard(op, items, c, x, s);
    MessageAt(items, w, s);
    var p := |MessagesOn(items[..w], s)|;
    assert log[p] == items[w].message;
    NotAfter(log, p, i, x.event.timestamp);
    PrefixOn(items, w, s);
    a := NthOn(items[..w], s, i);
    assert items[..w][..a] == items[..a];
  }

  /** What is older than v comes before a watermark of v or more. */
  lemma NotAfter<D>(log: seq<Message<D>>, p: int, i: int, v: Timestamp)
    requires Disciplined(log) && 0 <= p < |log| && 0 <= i < |log| && log[p].Watermark? && log[i].TimestampedData?
    requires Le(v, log[p].timestamp) && Lt(log[i].timestamp, v)
    ensures i < p
  {
    TotalOrder(log[i].timestamp, v);
    TotalOrder(log[i].timestamp, log[p].timestamp);
    Transitive(log[i].timestamp, v, log[p].timestamp);
  }

  lemma {:induction false} PrefixOn<D>(items: seq<Item<D>>, w: int, s: StreamId)
    requires 0 <= w <= |items|
    ensures MessagesOn(items[..w], s) <= MessagesOn(items, s)
  {
    if w < |items| {
      PrefixOn(items[..|items| - 1], w, s);
      assert items[..|items| - 1][..w] == items[..w];
    } else {
      assert items[..w] == items;
    }
  }

  /** The n events from position `first` on have completed. */
  ghost predicate AllDone(r: Run, first: nat, n: nat) { forall j :: first <= j < first + n ==> j in r.done }

  /** End to end: however the operator is set up, whatever the writers of the streams send, whichever pushes fail,
      however the streams are merged and whatever the executor interleaves, with one event runner no watermark callback
      at v starts before the callbacks of every message older than v ever pushed to it on the streams it reads have
      completed. The message is given by its position i among those pushed on stream s. */
  lemma EndToEnd<D>(setup: seq<Attach>, writers: map<StreamId, Writer<D>>, items: seq<Item<D>>,
                    tr: seq<Executor.State>, k: nat, s: StreamId, i: int, c: int, z: int) returns (a: int)
    requires Buildable(setup) && Carried(items, writers)
    requires Executor.Execution(tr, Input(Built(setup), items), 1) && k < |tr|
    requires 0 <= c < |items| && items[c].message.Watermark? && 0 <= z < |Batch(Built(setup), items, c)|
    requires s in writers && 0 <= i < |EndpointLog(writers[s])| && EndpointLog(writers[s])[i].TimestampedData?
    requires var x := Batch(Built(setup), items, c)[z];
      ReadsStream(Built(setup), x.source, s) && Lt(EndpointLog(writers[s])[i].timestamp, x.event.timestamp)
    requires Start(Input(Built(setup), items), c) + z in tr[k].run.handed
    ensures 0 <= a < c && items[a] == Item(s, EndpointLog(writers[s])[i]) && |MessagesOn(items[..a], s)| == i
    ensures AllDone(tr[k].run, Start(Input(Built(setup), items), a), |Batch(Built(setup), items, a)|)
  {
    hide Executor.Execution, WellBuilt, Tracks, DisciplinedItems, Batch, Start, Carried, ReadsStream, Lt, Built, EndpointLog;
    var op := Built(setup);
    SetUp(setup);
    CarriedDisciplined(items, writers);
    CarriedLog(items, writers, s);
    var x := Batch(op, items, c)[z];
    a := LoggedArrived(op, items, EndpointLog(writers[s]), c, x, s, i);
    var first := Start(Input(op, items), a);
    forall j | first <= j < first + |Batch(op, items, a)| ensures j in tr[k].run.done {
      WatermarkBarrier(op, items, tr, k, a, j - first, c, z);
    }
  }
}
