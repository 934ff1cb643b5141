/** Which operators feed the executor manageable events: those whose callbacks for one timestamp are manageable. */
module ManageableOperators {
  import opened Timestamps
  import opened OperatorEvents
  import opened Basics
  import opened WriteStreams
  import opened Bundles
  import opened BundleTrees
  import opened LowWatermarks
  import opened EventMakers
  import opened OperatorSetup
  import opened Pipeline
  import Executor
  import ExecutorProgress

  /** A watermark callback: the index-th one of a stream, a stateful stream or a bundle. */
  datatype Slot = Slot(source: Source, index: int)

  ghost function Slots(op: Operator): set<Slot> {
    (set s <- op.plain, i | 0 <= i < op.plain[s].watermarkCallbacks :: Slot(OfStream(s), i)) +
    (set k, i | 0 <= k < |op.stateful| && 0 <= i < |op.stateful[k].priorities| :: Slot(OfState(k), i)) +
    (set b, i | 0 <= b < |op.forest| && 0 <= i < |op.forest[b].callbacks| :: Slot(OfBundle(b), i))
  }

  /** The event of a watermark callback at time t. */
  ghost function EventOf(op: Operator, x: Slot, t: Timestamp): OperatorEvent
    requires x in Slots(op)
  {
    match x.source
    case OfStream(_) => OperatorEvent(t, true, 0, {}, {})
    case OfState(k) => OperatorEvent(t, true, op.stateful[k].priorities[x.index], {}, {op.stateful[k].stateId})
    case OfBundle(b) =>
      OperatorEvent(t, true, op.forest[b].callbacks[x.index], op.forest[b].readIds, op.forest[b].writeIds)
  }

  /** The watermark callbacks of priority p. */
  ghost function Sharing(op: Operator, p: Priority): set<Slot> {
    set x <- Slots(op) | EventOf(op, x, Bottom()).priority == p
  }

  /** An invocation of a watermark callback by an item; a bundle's callbacks are invoked at most once for a timestamp, by
      whichever item, so that 0 stands for it. */
  datatype Invocation = Invocation(slot: Slot, item: int)

  ghost predicate Invokes<D>(op: Operator, items: seq<Item<D>>, x: Invocation, t: Timestamp) {
    match x.slot.source
    case OfStream(s) => Marks(items, x.item, s, t)
    case OfState(k) => 0 <= k < |op.stateful| && Marks(items, x.item, op.stateful[k].id, t)
    case OfBundle(_) => x.item == 0
  }

  /** Item c is watermark t on stream s. */
  predicate Marks<D>(items: seq<Item<D>>, c: int, s: StreamId, t: Timestamp) {
    0 <= c < |items| && items[c].stream == s && items[c].message.Watermark? && items[c].message.timestamp == t
  }

  /** The invocations of callbacks of priority p that there can be for timestamp t. */
  ghost function Invocations<D>(op: Operator, items: seq<Item<D>>, t: Timestamp, p: Priority): set<Invocation> {
    set x <- Sharing(op, p), c | 0 <= c <= |items| && Invokes(op, items, Invocation(x, c), t) :: Invocation(x, c)
  }

  /** What the watermark callbacks access does not decide their order. */
  ghost predicate ByPriority(op: Operator) {
    forall x <- Slots(op), y <- Slots(op) | x != y :: Compatible(EventOf(op, x, Bottom()), EventOf(op, y, Bottom()))
  }

  /** At most n watermark callbacks share a priority. */
  ghost predicate SharedAtMost(op: Operator, n: nat) { forall p :: |Sharing(op, p)| <= n }

  /** At most n invocations of watermark callbacks share a timestamp and a priority. */
  ghost predicate InvokedAtMost<D>(op: Operator, items: seq<Item<D>>, n: nat) {
    forall t, p :: |Invocations(op, items, t, p)| <= n
  }

  /** No watermark arrives twice on a stream. */
  predicate Unrepeated<D>(items: seq<Item<D>>) {
    forall c, d :: 0 <= c < d < |items| && items[c].message.Watermark? && items[d].message.Watermark? ==>
      items[c].stream != items[d].stream || items[c].message.timestamp != items[d].message.timestamp
  }

  // ---------------------------------------------------------------------------------------------
  // The callback behind an event.

  lemma {:induction false} FromAt(made: seq<Made>, z: int)
    requires 0 <= z < |made|
    ensures var x := made[z].source;
      |From(made[..z], x)| < |From(made, x)| && From(made, x)[|From(made[..z], x)|] == made[z].event
  {
    var init := made[..|made| - 1];
    if z < |made| - 1 {
      FromAt(init, z);
      assert init[..z] == made[..z];
    }
  }

  ghost function SlotAt(made: seq<Made>, z: int): Slot
    requires 0 <= z < |made|
  {
    Slot(made[z].source, |From(made[..z], made[z].source)|)
  }

  lemma SlotsDiffer(made: seq<Made>, y: int, z: int)
    requires 0 <= y < z < |made|
    ensures SlotAt(made, y) != SlotAt(made, z)
  {
    if made[y].source == made[z].source {
      FromAt(made[..z], y);
      assert made[..z][..y] == made[..y];
    }
  }

  /** What a source contributes is the events of its callbacks. */
  lemma EventsOfSlots(op: Operator, h: seq<Delivery>, d: Delivery, x: Source, i: int)
    requires 0 <= i < |WatermarkEvents(op, h, d, x)|
    ensures Slot(x, i) in Slots(op)
    ensures WatermarkEvents(op, h, d, x)[i] == EventOf(op, Slot(x, i), WatermarkEvents(op, h, d, x)[i].timestamp)
  {
  }

  lemma SameSlots(op: Operator, op': Operator, x: Slot, t: Timestamp)
    requires op'.plain == op.plain && op'.stateful == op.stateful && SameShape(op.forest, op'.forest) && x in Slots(op')
    ensures x in Slots(op) && EventOf(op, x, t) == EventOf(op', x, t)
  {
    match x.source
    case OfBundle(b) => assert SameBut(op.forest[b], op'.forest[b]);
    case _ =>
  }

  /** The event at place z of item c's batch is the one of its callback. */
  lemma BehindEvent<D>(op: Operator, items: seq<Item<D>>, c: int, z: int)
    requires WellBuilt(op) && Tracks(op.forest, []) && 0 <= c < |items| && items[c].message.Watermark?
    requires 0 <= z < |Batch(op, items, c)|
    ensures var x := SlotAt(Batch(op, items, c), z);
      var e := Batch(op, items, c)[z].event;
      x in Slots(op) && e == EventOf(op, x, e.timestamp)
  {
    hide WellBuilt, Tracks, From, WatermarkEvents, Slots, EventOf, MakeEvents, Deliveries;
    var before, d := After(op, items[..c]), Delivery(items[c].stream, items[c].message.timestamp);
    var h, made := Deliveries(items[..c]), Batch(op, items, c);
    var x := SlotAt(made, z);
    AfterTracks(op, items[..c]);
    WatermarkExact<D>(before, h, d, x.source);
    FromAt(made, z);
    EventsOfSlots(before, h, d, x.source, x.index);
    SameSlots(op, before, x, made[z].event.timestamp);
  }

  /** The item that makes an event, and how the event's time depends on it. */
  ghost predicate Caused<D>(op: Operator, items: seq<Item<D>>, c: int, x: Made)
    requires WellBuilt(op) && 0 <= c < |items|
  {
    match x.source
    case OfStream(r) => r == items[c].stream && x.event.timestamp == items[c].message.timestamp
    case OfState(k) =>
      && 0 <= k < |op.stateful| && op.stateful[k].id == items[c].stream && x.event.timestamp == items[c].message.timestamp
    case OfBundle(b) => FiresAt(op, items, c, b, x.event.timestamp)
  }

  lemma Cause<D>(op: Operator, items: seq<Item<D>>, c: int, z: int)
    requires WellBuilt(op) && 0 <= c < |items| && items[c].message.Watermark? && 0 <= z < |Batch(op, items, c)|
    ensures Caused(op, items, c, Batch(op, items, c)[z])
  {
    hide WellBuilt, Notified, EmissionsMade;
    WatermarkMade(After(op, items[..c]), items[c].stream, items[c].message.timestamp, Batch(op, items, c)[z]);
  }

  // ---------------------------------------------------------------------------------------------
  // Positions in the flattened input.

  /** The invocation behind the watermark event at position i of the input. */
  ghost predicate Behind<D>(op: Operator, items: seq<Item<D>>, i: int, x: Invocation)
    requires WellBuilt(op)
  {
    exists c, z :: PlacedAt(op, items, i, c, z) && InvocationAt(op, items, c, z) == x
  }

  ghost function InvocationAt<D>(op: Operator, items: seq<Item<D>>, c: int, z: int): Invocation
    requires WellBuilt(op) && 0 <= c < |items| && 0 <= z < |Batch(op, items, c)|
  {
    Invocation(SlotAt(Batch(op, items, c), z), if Batch(op, items, c)[z].source.OfBundle? then 0 else c)
  }

  ghost predicate PlacedAt<D>(op: Operator, items: seq<Item<D>>, i: int, c: int, z: int)
    requires WellBuilt(op)
  {
    && 0 <= c < |items| && items[c].message.Watermark? && 0 <= z < |Batch(op, items, c)|
    && i == Start(Input(op, items), c) + z
    && 0 <= i < |Executor.Flatten(Input(op, items))|
    && Executor.Flatten(Input(op, items))[i] == Batch(op, items, c)[z].event
  }

  lemma FindInvocation<D>(op: Operator, items: seq<Item<D>>, i: int) returns (x: Invocation)
    requires WellBuilt(op) && Tracks(op.forest, []) && i in ExecutorProgress.Family(Input(op, items))
    requires ExecutorProgress.Family(Input(op, items))[i].isWatermark
    ensures var e := ExecutorProgress.Family(Input(op, items))[i];
      Behind(op, items, i, x) && x.slot in Slots(op) && e == EventOf(op, x.slot, e.timestamp) && Invokes(op, items, x, e.timestamp)
  {
    hide WellBuilt, Tracks, Slots, EventOf, Batch, Input, Start, SlotAt, FiresAt;
    var c, z := MadeAt(op, items, i);
    x := InvocationAt(op, items, c, z);
    BehindEvent(op, items, c, z);
    Cause(op, items, c, z);
    SlotSource(Batch(op, items, c), z);
    assert PlacedAt(op, items, i, c, z);
  }

  /** One invocation makes no two events of one timestamp. */
  lemma InvocationsApart<D>(op: Operator, items: seq<Item<D>>, i: int, j: int, x: Invocation)
    requires WellBuilt(op) && Tracks(op.forest, []) && i < j && Behind(op, items, i, x) && Behind(op, items, j, x)
    ensures var all := Executor.Flatten(Input(op, items)); j < |all| && 0 <= i && all[i].timestamp != all[j].timestamp
  {
    hide WellBuilt, Tracks, Batch, Input, Start, SlotAt, FiresAt;
    var c, y :| PlacedAt(op, items, i, c, y) && InvocationAt(op, items, c, y) == x;
    var d, z :| PlacedAt(op, items, j, d, z) && InvocationAt(op, items, d, z) == x;
    PlacesApart(op, items, i, c, y, j, d, z);
    Cause(op, items, c, y);
    Cause(op, items, d, z);
    SlotSource(Batch(op, items, c), y);
    SlotSource(Batch(op, items, d), z);
    var u, v := Batch(op, items, c)[y], Batch(op, items, d)[z];
    assert u.source == v.source && u.source.OfBundle?;
    FiresIncrease(op, items, c, d, u.source.bundle, u.event.timestamp, v.event.timestamp);
    TotalOrder(u.event.timestamp, v.event.timestamp);
  }

  lemma SlotSource(made: seq<Made>, z: int)
    requires 0 <= z < |made|
    ensures SlotAt(made, z).source == made[z].source
  {
  }

  lemma PlacesApart<D>(op: Operator, items: seq<Item<D>>, i: int, c: int, y: int, j: int, d: int, z: int)
    requires WellBuilt(op) && i < j && PlacedAt(op, items, i, c, y) && PlacedAt(op, items, j, d, z)
    requires SlotAt(Batch(op, items, c), y) == SlotAt(Batch(op, items, d), z)
    ensures c < d
  {
    hide WellBuilt, Batch, Start, SlotAt;
    var bs := Input(op, items);
    if d < c {
      StartsLater(bs, d, c);
    } else if c == d {
      SlotsDiffer(Batch(op, items, c), y, z);
    }
  }

  // ---------------------------------------------------------------------------------------------
  // Counting.

  lemma {:induction false} Injected<A, B>(s: set<A>, t: set<B>, f: map<A, B>)
    requires f.Keys == s && (forall a <- s :: f[a] in t) && forall a <- s, b <- s | a != b :: f[a] != f[b]
    ensures |s| <= |t|
    decreases |s|
  {
    if s != {} {
      var a :| a in s;
      Injected(s - {a}, t - {f[a]}, f - {a});
    }
  }

  /** Every position of a watermark event has its invocation. */
  ghost predicate Assigned<D>(op: Operator, items: seq<Item<D>>, f: map<int, Invocation>)
    requires WellBuilt(op)
  {
    var w := ExecutorProgress.Family(Input(op, items));
    && (forall i <- w | w[i].isWatermark :: i in f)
    && (forall i <- f :: i in w && f[i].slot in Slots(op) && w[i] == EventOf(op, f[i].slot, w[i].timestamp))
    && (forall i <- f :: Invokes(op, items, f[i], w[i].timestamp))
    && (forall i <- f, j <- f | i != j && f[i] == f[j] :: w[i].timestamp != w[j].timestamp)
  }

  lemma Assign<D>(op: Operator, items: seq<Item<D>>) returns (f: map<int, Invocation>)
    requires WellBuilt(op) && Tracks(op.forest, [])
    ensures Assigned(op, items, f)
  {
    hide WellBuilt, Tracks, Slots, EventOf, Input, Behind, Invokes;
    var w := ExecutorProgress.Family(Input(op, items));
    f := map[];
    var n := |Executor.Flatten(Input(op, items))|;
    for k := 0 to n
      invariant forall i :: i in f <==> 0 <= i < k && w[i].isWatermark
      invariant forall i <- f :: f[i].slot in Slots(op) && w[i] == EventOf(op, f[i].slot, w[i].timestamp)
      invariant forall i <- f :: Behind(op, items, i, f[i]) && Invokes(op, items, f[i], w[i].timestamp)
    {
      if w[k].isWatermark {
        var x := FindInvocation(op, items, k);
        f := f[k := x];
      }
    }
    forall i <- f, j <- f | i != j && f[i] == f[j] ensures w[i].timestamp != w[j].timestamp {
      InvocationsApart(op, items, if i < j then i else j, if i < j then j else i, f[i]);
    }
  }

  lemma SamePriority(op: Operator, x: Slot, t: Timestamp)
    requires x in Slots(op)
    ensures EventOf(op, x, t) == EventOf(op, x, Bottom()).(timestamp := t)
  {
  }

  lemma AssignedFree<D>(op: Operator, items: seq<Item<D>>, f: map<int, Invocation>)
    requires WellBuilt(op) && Assigned(op, items, f) && ByPriority(op)
    ensures PriorityOrdered(ExecutorProgress.Family(Input(op, items)))
  {
    hide WellBuilt, Slots, EventOf, Input, StreamMade, Invokes;
    var w := ExecutorProgress.Family(Input(op, items));
    forall i <- w ensures w[i].isWatermark || StreamMade(w[i]) { var _, _ := MadeAt(op, items, i); }
    forall i <- w, j <- w | i != j && w[i].isWatermark && w[j].isWatermark && w[i].timestamp == w[j].timestamp
      ensures Compatible(w[i], w[j])
    {
      SamePriority(op, f[i].slot, w[i].timestamp);
      SamePriority(op, f[j].slot, w[j].timestamp);
      if f[i].slot != f[j].slot {
        assert Compatible(EventOf(op, f[i].slot, Bottom()), EventOf(op, f[j].slot, Bottom()));
      }
    }
  }

  lemma AssignedFew<D>(op: Operator, items: seq<Item<D>>, f: map<int, Invocation>, t: Timestamp, p: Priority)
    requires WellBuilt(op) && Assigned(op, items, f)
    ensures |TieClass(ExecutorProgress.Family(Input(op, items)), t, p)| <= |Invocations(op, items, t, p)|
  {
    hide WellBuilt, Slots, EventOf, Input, Invokes;
    var w := ExecutorProgress.Family(Input(op, items));
    var s := TieClass(w, t, p);
    var g := map i | i in s :: f[i];
    forall i <- s ensures g[i] in Invocations(op, items, t, p) {
      SamePriority(op, f[i].slot, t);
      assert f[i] == Invocation(f[i].slot, f[i].item);
      WithinItems(op, items, f[i], t);
    }
    Injected(s, Invocations(op, items, t, p), g);
  }

  lemma WithinItems<D>(op: Operator, items: seq<Item<D>>, x: Invocation, t: Timestamp)
    requires Invokes(op, items, x, t)
    ensures 0 <= x.item <= |items|
  {
  }

  /** Whatever arrives, at most as many events share a timestamp and a priority as there are invocations for them. */
  lemma TiesAreInvocations<D>(op: Operator, items: seq<Item<D>>, n: nat)
    requires WellBuilt(op) && Tracks(op.forest, []) && ByPriority(op) && InvokedAtMost(op, items, n)
    ensures TiesAtMost(ExecutorProgress.Family(Input(op, items)), n)
  {
    hide WellBuilt, Tracks, ByPriority, Invocations, Input, Assigned, PriorityOrdered, TieClass;
    var f := Assign(op, items);
    AssignedFree(op, items, f);
    forall t, p ensures |TieClass(ExecutorProgress.Family(Input(op, items)), t, p)| <= n {
      AssignedFew(op, items, f, t, p);
      assert |Invocations(op, items, t, p)| <= n;
    }
  }

  /** As long as no watermark is repeated, they are at most as many as the callbacks of that priority. */
  lemma UnrepeatedInvocations<D>(op: Operator, items: seq<Item<D>>, n: nat)
    requires SharedAtMost(op, n) && Unrepeated(items)
    ensures InvokedAtMost(op, items, n)
  {
    forall t, p ensures |Invocations(op, items, t, p)| <= n {
      var s := Invocations(op, items, t, p);
      OncePerCallback(op, items, t, p);
      Injected(s, Sharing(op, p), map x | x in s :: x.slot);
      assert |Sharing(op, p)| <= n;
    }
  }

  lemma OncePerCallback<D>(op: Operator, items: seq<Item<D>>, t: Timestamp, p: Priority)
    requires Unrepeated(items)
    ensures forall x <- Invocations(op, items, t, p) :: x.slot in Sharing(op, p)
    ensures forall x <- Invocations(op, items, t, p), y <- Invocations(op, items, t, p) | x != y :: x.slot != y.slot
  {
    hide Sharing;
    forall x <- Invocations(op, items, t, p), y <- Invocations(op, items, t, p) | x.slot == y.slot ensures x.item == y.item { }
  }

  // ---------------------------------------------------------------------------------------------
  // Without priorities.

  /** The events there can be for timestamp t, by the invocations that make them. */
  ghost function CallsAt<D>(op: Operator, items: seq<Item<D>>, t: Timestamp): map<Invocation, OperatorEvent> {
    var all := set x <- Slots(op), c | 0 <= c <= |items| && Invokes(op, items, Invocation(x, c), t) :: Invocation(x, c);
    map x | x in all :: EventOf(op, x.slot, t)
  }

  /** For every timestamp the watermark callbacks that can be invoked are weakly ordered, and no four of them tie. */
  ghost predicate ManageableCalls<D>(op: Operator, items: seq<Item<D>>) { forall t :: Manageable(CallsAt(op, items, t)) }

  lemma CallsMatch<D>(op: Operator, items: seq<Item<D>>, f: map<int, Invocation>, t: Timestamp)
    requires WellBuilt(op) && Assigned(op, items, f)
    ensures Within(TimeClass(ExecutorProgress.Family(Input(op, items)), t), CallsAt(op, items, t),
                   map i | i in TimeClass(ExecutorProgress.Family(Input(op, items)), t) :: f[i])
  {
    hide WellBuilt, Slots, EventOf, Input, Invokes;
    var w := ExecutorProgress.Family(Input(op, items));
    forall i <- TimeClass(w, t) ensures f[i] in CallsAt(op, items, t) {
      assert f[i] == Invocation(f[i].slot, f[i].item);
      WithinItems(op, items, f[i], t);
    }
  }

  /** Whatever arrives, such callbacks make a manageable input. */
  lemma CallsManageable<D>(op: Operator, items: seq<Item<D>>)
    requires WellBuilt(op) && Tracks(op.forest, []) && ManageableCalls(op, items)
    ensures ExecutorProgress.ManageableInput(Input(op, items))
  {
    hide WellBuilt, Tracks, CallsAt, Input, Assigned, Manageable, TimeClass, StreamMade, Within;
    var f := Assign(op, items);
    var w := ExecutorProgress.Family(Input(op, items));
    forall i <- w ensures w[i].isWatermark || StreamMade(w[i]) { var _, _ := MadeAt(op, items, i); }
    forall t ensures Manageable(TimeClass(w, t)) {
      TimeClassKeys(w, t, f, op, items);
      CallsMatch(op, items, f, t);
      Subfamily(TimeClass(w, t), CallsAt(op, items, t), map i | i in TimeClass(w, t) :: f[i]);
    }
    ManageableByTime(w);
  }

  lemma TimeClassKeys<D>(w: map<int, OperatorEvent>, t: Timestamp, f: map<int, Invocation>, op: Operator, items: seq<Item<D>>)
    requires WellBuilt(op) && w == ExecutorProgress.Family(Input(op, items)) && Assigned(op, items, f)
    ensures forall i <- TimeClass(w, t) :: i in f
  {
    hide WellBuilt, Slots, EventOf, Input, Invokes;
  }

  /** Callbacks that are ordered by their priorities, with at most three invocations to a timestamp and a priority. */
  lemma PriorityCalls<D>(op: Operator, items: seq<Item<D>>)
    requires ByPriority(op) && InvokedAtMost(op, items, 3)
    ensures ManageableCalls(op, items)
  {
    hide Manageable;
    forall t ensures Manageable(CallsAt(op, items, t)) {
      PriorityCallsAt(op, items, t);
      ThreeTiesManageable(CallsAt(op, items, t));
    }
  }

  lemma PriorityCallsAt<D>(op: Operator, items: seq<Item<D>>, t: Timestamp)
    requires ByPriority(op) && InvokedAtMost(op, items, 3)
    ensures TiesAtMost(CallsAt(op, items, t), 3)
  {
    hide Slots, EventOf, Invokes;
    var w := CallsAt(op, items, t);
    forall x <- w ensures w[x].isWatermark && w[x].timestamp == t && w[x] == EventOf(op, x.slot, Bottom()).(timestamp := t) {
      SamePriority(op, x.slot, t);
      AreMarks(op, x.slot, t);
    }
    forall x <- w, y <- w | x != y ensures Compatible(w[x], w[y]) {
      if x.slot != y.slot { assert Compatible(EventOf(op, x.slot, Bottom()), EventOf(op, y.slot, Bottom())); }
    }
    forall u, p ensures |TieClass(w, u, p)| <= 3 {
      Injected(TieClass(w, u, p), Invocations(op, items, t, p), map x | x in TieClass(w, u, p) :: x);
      assert |Invocations(op, items, t, p)| <= 3;
    }
  }

  lemma AreMarks(op: Operator, x: Slot, t: Timestamp)
    requires x in Slots(op)
    ensures EventOf(op, x, t).isWatermark && EventOf(op, x, t).timestamp == t
  {
  }

  /** With such callbacks, any number of event runners and in every behaviour, the operator finishes: the lattice is empty
      and every callback has been invoked exactly once. */
  lemma OperatorFinishes<D>(setup: seq<Attach>, items: seq<Item<D>>, n: nat, tr: nat -> Executor.State) returns (k: nat)
    requires Buildable(setup) && ManageableCalls(Built(setup), items)
    requires n > 0 && Executor.Init(tr(0), Input(Built(setup), items), n) && ExecutorProgress.Behaviour(tr)
    ensures tr(k).producer.Finished? && Executor.Clean(tr(k), Input(Built(setup), items))
  {
    hide Executor.Clean, ExecutorProgress.Behaviour, WellBuilt, ManageableCalls, Tracks, Built, Input, ExecutorProgress.ManageableInput;
    SetUp(setup);
    CallsManageable(Built(setup), items);
    k := ExecutorProgress.AlwaysDrains(tr, Input(Built(setup), items), n);
  }
}
