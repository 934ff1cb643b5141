/** Turning the messages of a stream into operator events. */
module EventMakers {
  import opened Timestamps
  import opened OperatorEvents
  import opened WriteStreams
  import opened Bundles
  import opened BundleTrees
  import opened LowWatermarks

  /** What an event was made by: a stream's stateless callbacks, a stateful stream, or a bundle. */
  datatype Source = OfStream(stream: StreamId) | OfState(stateful: int) | OfBundle(bundle: int)

  datatype Made = Made(event: OperatorEvent, source: Source)

  function PlainOf(op: Operator, s: StreamId): Plain {
    if s in op.plain then op.plain[s] else Plain(0, 0)
  }

  function Repeat<T>(n: nat, x: T): seq<T> { seq(n, _ => x) }

  // ---------------------------------------------------------------------------------------------
  // Data messages.

  function StatefulMade(op: Operator, k: int, t: Timestamp): seq<Made>
    requires 0 <= k < |op.stateful|
  {
    Repeat(op.stateful[k].callbacks, Made(OperatorEvent(t, false, 0, {}, {op.stateful[k].stateId}), OfState(k)))
  }

  /** The events of a data message, up to the stateful streams before position k. */
  function DataMade(op: Operator, k: nat, s: StreamId, t: Timestamp): seq<Made>
    requires k <= |op.stateful|
  {
    if k == 0 then Repeat(PlainOf(op, s).callbacks, Made(OperatorEvent(t, false, 0, {}, {}), OfStream(s)))
    else DataMade(op, k - 1, s, t) + if op.stateful[k - 1].id == s then StatefulMade(op, k - 1, t) else []
  }

  // ---------------------------------------------------------------------------------------------
  // Watermarks.

  function PriorityMade(op: Operator, k: int, t: Timestamp): seq<Made>
    requires 0 <= k < |op.stateful|
  {
    var st := op.stateful[k];
    seq(|st.priorities|, i requires 0 <= i < |st.priorities| =>
      Made(OperatorEvent(t, true, st.priorities[i], {}, {st.stateId}), OfState(k)))
  }

  function FiringMade(f: Forest, x: Firing): seq<Made> {
    if 0 <= x.bundle < |f| then
      var b := f[x.bundle];
      seq(|b.callbacks|, i requires 0 <= i < |b.callbacks| =>
        Made(OperatorEvent(x.low, true, b.callbacks[i], b.readIds, b.writeIds), OfBundle(x.bundle)))
    else []
  }

  function EmissionMade(op: Operator, s: StreamId, t: Timestamp, e: Emission): seq<Made> {
    match e
    case Stateless => Repeat(PlainOf(op, s).watermarkCallbacks, Made(OperatorEvent(t, true, 0, {}, {}), OfStream(s)))
    case Callbacks(k) => if 0 <= k < |op.stateful| then PriorityMade(op, k, t) else []
    case Fire(x) => FiringMade(op.forest, x)
  }

  function EmissionsMade(op: Operator, s: StreamId, t: Timestamp, es: seq<Emission>): seq<Made> {
    if es == [] then []
    else EmissionsMade(op, s, t, es[..|es| - 1]) + EmissionMade(op, s, t, es[|es| - 1])
  }

  /** `make_events` of the stream and everything attached to it. */
  function MakeEvents<D>(op: Operator, s: StreamId, m: Message<D>): (r: (Forest, seq<Made>))
    requires WellBuilt(op)
    ensures SameShape(op.forest, r.0)
  {
    match m
    case TimestampedData(t, _) => (op.forest, DataMade(op, |op.stateful|, s, t))
    case Watermark(t) =>
      var (f, es) := Notified(op, |op.stateful|, s, t);
      (f, EmissionsMade(op, s, t, es))
  }

  // ---------------------------------------------------------------------------------------------
  // What is made.

  lemma {:induction false} DataMadeExact(op: Operator, k: nat, s: StreamId, t: Timestamp, x: Made)
    requires k <= |op.stateful| && x in DataMade(op, k, s, t)
    ensures StreamMade(x.event) && x.event.timestamp == t
  {
    if k > 0 {
      if x in DataMade(op, k - 1, s, t) {
        DataMadeExact(op, k - 1, s, t, x);
      } else {
        assert x in StatefulMade(op, k - 1, t);
      }
    }
  }

  /** The watermark of stream s, its timestamp, and how an event made from it depends on both. */
  ghost predicate FromWatermark(op: Operator, s: StreamId, t: Timestamp, fs: seq<Firing>, x: Made) {
    x.event.isWatermark &&
    match x.source
    case OfStream(r) => r == s && x.event.timestamp == t
    case OfState(k) => 0 <= k < |op.stateful| && op.stateful[k].id == s && x.event.timestamp == t
    case OfBundle(b) => 0 <= b < |op.forest| && Firing(b, x.event.timestamp) in fs
  }

  ghost predicate OwnCallbacks(op: Operator, s: StreamId, es: seq<Emission>) {
    forall k :: Callbacks(k) in es ==> 0 <= k < |op.stateful| && op.stateful[k].id == s
  }

  lemma {:induction false} NotifiedOwn(op: Operator, k: nat, s: StreamId, t: Timestamp)
    requires k <= |op.stateful| && WellBuilt(op)
    ensures OwnCallbacks(op, s, Notified(op, k, s, t).1)
  {
    hide OwnCallbacks, ForwardAll, Registered, Inherited, Shaped, Fired;
    if k == 0 {
      OwnNone(op, s);
    } else {
      NotifiedOwn(op, k - 1, s, t);
      var (f, es) := Notified(op, k - 1, s, t);
      if op.stateful[k - 1].id == s {
        StillBuilt(op, f);
        OwnGrows(op, s, es, k - 1, ForwardAll(f, -1, op.stateful[k - 1].bundles, s, t).1);
      }
    }
  }

  lemma OwnNone(op: Operator, s: StreamId)
    ensures OwnCallbacks(op, s, [Stateless])
  {
  }

  lemma OwnGrows(op: Operator, s: StreamId, es: seq<Emission>, k: int, fs: seq<Firing>)
    requires OwnCallbacks(op, s, es) && 0 <= k < |op.stateful| && op.stateful[k].id == s
    ensures OwnCallbacks(op, s, es + [Callbacks(k)] + Fired(fs))
  {
  }

  lemma {:induction false} EmissionsExact(op: Operator, s: StreamId, t: Timestamp, es: seq<Emission>, fs: seq<Firing>, x: Made)
    requires OwnCallbacks(op, s, es) && (forall y :: Fire(y) in es ==> y in fs) && x in EmissionsMade(op, s, t, es)
    ensures FromWatermark(op, s, t, fs, x)
  {
    if es != [] {
      var init, last := es[..|es| - 1], es[|es| - 1];
      if x in EmissionsMade(op, s, t, init) {
        EmissionsExact(op, s, t, init, fs, x);
      } else {
        assert x in EmissionMade(op, s, t, last) && last in es;
      }
    }
  }

  /** Every event of a watermark is a watermark event of the stream's own callbacks or of a bundle that fired. */
  lemma WatermarkMade(op: Operator, s: StreamId, t: Timestamp, x: Made)
    requires WellBuilt(op)
    requires x in EmissionsMade(op, s, t, Notified(op, |op.stateful|, s, t).1)
    ensures FromWatermark(op, s, t, Firings(Notified(op, |op.stateful|, s, t).1), x)
  {
    var es := Notified(op, |op.stateful|, s, t).1;
    NotifiedOwn(op, |op.stateful|, s, t);
    forall y | Fire(y) in es ensures y in Firings(es) { FiringsExact(es, y); }
    EmissionsExact(op, s, t, es, Firings(es), x);
  }

  // ---------------------------------------------------------------------------------------------
  // Exactly what each source contributes.

  /** The events of one source, in order. */
  function From(made: seq<Made>, x: Source): seq<OperatorEvent> {
    if made == [] then []
    else From(made[..|made| - 1], x) + if made[|made| - 1].source == x then [made[|made| - 1].event] else []
  }

  lemma {:induction false} FromAppend(a: seq<Made>, b: seq<Made>, x: Source)
    ensures From(a + b, x) == From(a, x) + From(b, x)
  {
    if b == [] {
      assert a + b == a;
    } else {
      FromAppend(a, b[..|b| - 1], x);
      assert (a + b)[..|a + b| - 1] == a + b[..|b| - 1];
    }
  }

  /** When all events come from one source. */
  lemma {:induction false} FromOne(made: seq<Made>, y: Source, x: Source)
    requires forall i :: 0 <= i < |made| ==> made[i].source == y
    ensures From(made, x) == if x == y then seq(|made|, i requires 0 <= i < |made| => made[i].event) else []
  {
    if made != [] {
      FromOne(made[..|made| - 1], y, x);
    }
  }

  /** A data message gives one event to each of the stream's callbacks, stateless or stateful, and nothing to others. */
  function DataEvents(op: Operator, s: StreamId, t: Timestamp, x: Source): seq<OperatorEvent> {
    match x
    case OfStream(r) => if r == s then Repeat(PlainOf(op, s).callbacks, OperatorEvent(t, false, 0, {}, {})) else []
    case OfState(k) =>
      if 0 <= k < |op.stateful| && op.stateful[k].id == s
      then Repeat(op.stateful[k].callbacks, OperatorEvent(t, false, 0, {}, {op.stateful[k].stateId})) else []
    case OfBundle(_) => []
  }

  lemma {:induction false} RepeatFrom(n: nat, e: OperatorEvent, y: Source, x: Source)
    ensures From(Repeat(n, Made(e, y)), x) == if x == y then Repeat(n, e) else []
  {
    if n > 0 {
      RepeatFrom(n - 1, e, y, x);
      assert Repeat(n, Made(e, y))[..n - 1] == Repeat(n - 1, Made(e, y));
      assert Repeat(n, e) == Repeat(n - 1, e) + [e];
    }
  }

  lemma {:induction false} DataFrom(op: Operator, k: nat, s: StreamId, t: Timestamp, x: Source)
    requires k <= |op.stateful|
    ensures From(DataMade(op, k, s, t), x) ==
      if x.OfBundle? || (x.OfState? && (x.stateful < 0 || x.stateful >= k)) then [] else DataEvents(op, s, t, x)
  {
    hide Repeat, From, PlainOf;
    if k == 0 {
      RepeatFrom(PlainOf(op, s).callbacks, OperatorEvent(t, false, 0, {}, {}), OfStream(s), x);
    } else {
      DataFrom(op, k - 1, s, t, x);
      var before := DataMade(op, k - 1, s, t);
      assert before + [] == before && From(before, x) + [] == From(before, x);
      if op.stateful[k - 1].id == s {
        FromAppend(DataMade(op, k - 1, s, t), StatefulMade(op, k - 1, t), x);
        RepeatFrom(op.stateful[k - 1].callbacks, OperatorEvent(t, false, 0, {}, {op.stateful[k - 1].stateId}), OfState(k - 1), x);
      }
    }
  }

  /** One event for each callback of a bundle, in the order of the callbacks. */
  function Marks(b: Bundle, v: Timestamp): seq<OperatorEvent> {
    seq(|b.callbacks|, i requires 0 <= i < |b.callbacks| => OperatorEvent(v, true, b.callbacks[i], b.readIds, b.writeIds))
  }

  /** A watermark gives one event to each of the stream's own callbacks at its time, and one to each callback of a bundle
      whose low watermark rises, at that low watermark. */
  function WatermarkEvents(op: Operator, h: seq<Delivery>, d: Delivery, x: Source): seq<OperatorEvent> {
    match x
    case OfStream(r) =>
      if r == d.stream then Repeat(PlainOf(op, r).watermarkCallbacks, OperatorEvent(d.time, true, 0, {}, {})) else []
    case OfState(k) =>
      if 0 <= k < |op.stateful| && op.stateful[k].id == d.stream
      then
        var st := op.stateful[k];
        seq(|st.priorities|, i requires 0 <= i < |st.priorities| =>
          OperatorEvent(d.time, true, st.priorities[i], {}, {st.stateId}))
      else []
    case OfBundle(b) =>
      if 0 <= b < |op.forest| then
        var before, now := LowOf(h, op.forest[b].ids), LowOf(h + [d], op.forest[b].ids);
        if Older(before, now) then Marks(op.forest[b], now.value) else []
      else []
  }

  function EmissionsFrom(op: Operator, s: StreamId, t: Timestamp, es: seq<Emission>, x: Source): seq<OperatorEvent> {
    if es == [] then []
    else EmissionsFrom(op, s, t, es[..|es| - 1], x) + From(EmissionMade(op, s, t, es[|es| - 1]), x)
  }

  lemma {:induction false} FromEmissions(op: Operator, s: StreamId, t: Timestamp, es: seq<Emission>, x: Source)
    ensures From(EmissionsMade(op, s, t, es), x) == EmissionsFrom(op, s, t, es, x)
  {
    if es != [] {
      FromEmissions(op, s, t, es[..|es| - 1], x);
      FromAppend(EmissionsMade(op, s, t, es[..|es| - 1]), EmissionMade(op, s, t, es[|es| - 1]), x);
    }
  }

  /** What an emission gives to a source. */
  lemma EmissionFrom(op: Operator, s: StreamId, t: Timestamp, e: Emission, x: Source)
    ensures var r := From(EmissionMade(op, s, t, e), x);
      match e
      case Stateless => r == if x == OfStream(s) then Repeat(PlainOf(op, s).watermarkCallbacks, OperatorEvent(t, true, 0, {}, {})) else []
      case Callbacks(k) => r == if x == OfState(k) && 0 <= k < |op.stateful| then
        seq(|op.stateful[k].priorities|, i requires 0 <= i < |op.stateful[k].priorities| =>
          OperatorEvent(t, true, op.stateful[k].priorities[i], {}, {op.stateful[k].stateId})) else []
      case Fire(f) => r == if x == OfBundle(f.bundle) && 0 <= f.bundle < |op.forest| then Marks(op.forest[f.bundle], f.low) else []
  {
    var made := EmissionMade(op, s, t, e);
    var y := match e case Stateless => OfStream(s) case Callbacks(k) => OfState(k) case Fire(f) => OfBundle(f.bundle);
    FromOne(made, y, x);
  }

  lemma {:induction false} EmissionsFromAppend(op: Operator, s: StreamId, t: Timestamp, a: seq<Emission>, b: seq<Emission>, x: Source)
    ensures EmissionsFrom(op, s, t, a + b, x) == EmissionsFrom(op, s, t, a, x) + EmissionsFrom(op, s, t, b, x)
  {
    hide From, EmissionMade;
    if b == [] {
      assert a + b == a;
    } else {
      EmissionsFromAppend(op, s, t, a, b[..|b| - 1], x);
      assert (a + b)[..|a + b| - 1] == a + b[..|b| - 1];
    }
  }

  lemma EmissionsFromOne(op: Operator, s: StreamId, t: Timestamp, e: Emission, x: Source)
    ensures EmissionsFrom(op, s, t, [e], x) == From(EmissionMade(op, s, t, e), x)
  {
    hide From, EmissionMade;
    assert [e][..0] == [];
    assert EmissionsFrom(op, s, t, [e], x) == [] + From(EmissionMade(op, s, t, e), x);
  }

  /** Firings give nothing to a stream's own callbacks. */
  lemma {:induction false} FiredFromOwn(op: Operator, s: StreamId, t: Timestamp, fs: seq<Firing>, x: Source)
    requires !x.OfBundle?
    ensures EmissionsFrom(op, s, t, Fired(fs), x) == []
  {
    hide From, EmissionMade;
    if fs != [] {
      FiredFromOwn(op, s, t, fs[..|fs| - 1], x);
      assert Fired(fs)[..|fs| - 1] == Fired(fs[..|fs| - 1]);
      EmissionFrom(op, s, t, Fire(fs[|fs| - 1]), x);
    }
  }

  /** The stream's own callbacks, up to the stateful streams before position k. */
  function OwnEvents(op: Operator, k: int, s: StreamId, t: Timestamp, x: Source): seq<OperatorEvent> {
    if x.OfBundle? || (x.OfState? && x.stateful >= k) then [] else WatermarkEvents(op, [], Delivery(s, t), x)
  }

  lemma {:induction false} NotifiedFromOwn(op: Operator, k: nat, s: StreamId, t: Timestamp, x: Source)
    requires k <= |op.stateful| && WellBuilt(op) && !x.OfBundle?
    ensures EmissionsFrom(op, s, t, Notified(op, k, s, t).1, x) == OwnEvents(op, k, s, t, x)
  {
    hide From, EmissionMade, EmissionsFrom, ForwardAll, Registered, Inherited, Shaped, Fired, Repeat, PlainOf;
    if k == 0 {
      EmissionsFromOne(op, s, t, Stateless, x);
      EmissionFrom(op, s, t, Stateless, x);
    } else {
      NotifiedFromOwn(op, k - 1, s, t, x);
      var (f, es) := Notified(op, k - 1, s, t);
      if op.stateful[k - 1].id == s {
        StillBuilt(op, f);
        NextFromOwn(op, k - 1, s, t, es, ForwardAll(f, -1, op.stateful[k - 1].bundles, s, t).1, x);
      }
    }
  }

  lemma NextFromOwn(op: Operator, k: int, s: StreamId, t: Timestamp, es: seq<Emission>, fs: seq<Firing>, x: Source)
    requires 0 <= k < |op.stateful| && op.stateful[k].id == s && !x.OfBundle?
    requires EmissionsFrom(op, s, t, es, x) == OwnEvents(op, k, s, t, x)
    ensures EmissionsFrom(op, s, t, es + [Callbacks(k)] + Fired(fs), x) == OwnEvents(op, k + 1, s, t, x)
  {
    hide From, EmissionMade, EmissionsFrom, Fired, Repeat, PlainOf;
    EmissionsFromAppend(op, s, t, es + [Callbacks(k)], Fired(fs), x);
    EmissionsFromAppend(op, s, t, es, [Callbacks(k)], x);
    FiredFromOwn(op, s, t, fs, x);
    EmissionsFromOne(op, s, t, Callbacks(k), x);
    EmissionFrom(op, s, t, Callbacks(k), x);
  }

  // Bundles.

  function FiringsFrom(f: Forest, fs: seq<Firing>, b: int): seq<OperatorEvent>
    requires 0 <= b < |f|
  {
    if fs == [] then []
    else FiringsFrom(f, fs[..|fs| - 1], b) + if fs[|fs| - 1].bundle == b then Marks(f[b], fs[|fs| - 1].low) else []
  }

  lemma {:induction false} EmissionsFromBundle(op: Operator, s: StreamId, t: Timestamp, es: seq<Emission>, b: int)
    requires 0 <= b < |op.forest|
    ensures EmissionsFrom(op, s, t, es, OfBundle(b)) == FiringsFrom(op.forest, Firings(es), b)
  {
    hide From, EmissionMade, Marks;
    if es != [] {
      var init, last := es[..|es| - 1], es[|es| - 1];
      EmissionsFromBundle(op, s, t, init, b);
      EmissionFrom(op, s, t, last, OfBundle(b));
      if last.Fire? {
        assert Firings(es)[..|Firings(es)| - 1] == Firings(init);
      } else {
        assert Firings(init) + [] == Firings(init);
      }
    }
  }

  /** A bundle reported at most once gives its events at most once. */
  lemma {:induction false} FiringsFromOnce(f: Forest, fs: seq<Firing>, b: int)
    requires 0 <= b < |f| && forall i, j :: 0 <= i < j < |fs| ==> fs[i].bundle != fs[j].bundle
    ensures (forall v :: Firing(b, v) !in fs) ==> FiringsFrom(f, fs, b) == []
    ensures forall v :: Firing(b, v) in fs ==> FiringsFrom(f, fs, b) == Marks(f[b], v)
  {
    hide Marks;
    if fs != [] {
      var init, last := fs[..|fs| - 1], fs[|fs| - 1];
      FiringsFromOnce(f, init, b);
      assert fs == init + [last];
      if last.bundle == b {
        assert forall v :: Firing(b, v) !in init;
      }
    }
  }

  /** Exactly once for each callback: what a source contributes to the events of a watermark depends on its own callbacks
      and on the history of watermarks only. */
  lemma WatermarkExact<D>(op: Operator, h: seq<Delivery>, d: Delivery, x: Source)
    requires WellBuilt(op) && Tracks(op.forest, h)
    ensures From(MakeEvents(op, d.stream, Message<D>.Watermark(d.time)).1, x) == WatermarkEvents(op, h, d, x)
  {
    hide From, EmissionsFrom, EmissionMade, Repeat, PlainOf, Marks, Tracks, WellBuilt, Firings;
    var s, t, n := d.stream, d.time, |op.stateful|;
    var es := Notified(op, n, s, t).1;
    FromEmissions(op, s, t, es, x);
    if x.OfBundle? {
      BundleExact(op, h, d, es, x.bundle);
    } else {
      NotifiedFromOwn(op, n, s, t, x);
    }
  }

  lemma BundleExact(op: Operator, h: seq<Delivery>, d: Delivery, es: seq<Emission>, b: int)
    requires WellBuilt(op) && Tracks(op.forest, h) && es == Notified(op, |op.stateful|, d.stream, d.time).1
    ensures EmissionsFrom(op, d.stream, d.time, es, OfBundle(b)) == WatermarkEvents(op, h, d, OfBundle(b))
  {
    hide EmissionMade, From, Marks, Notified, WellBuilt, Tracks, Firings;
    if 0 <= b < |op.forest| {
      WatermarkTracks(op, h, d);
      EmissionsFromBundle(op, d.stream, d.time, es, b);
      FiringsFromOnce(op.forest, Firings(es), b);
      var ids := op.forest[b].ids;
      assert forall v :: Firing(b, v) in Firings(es) <==> Rises(h, d, ids, v);
    } else {
      NoSuchBundle(op, d.stream, d.time, es, b);
    }
  }

  lemma {:induction false} NoSuchBundle(op: Operator, s: StreamId, t: Timestamp, es: seq<Emission>, b: int)
    requires !(0 <= b < |op.forest|)
    ensures EmissionsFrom(op, s, t, es, OfBundle(b)) == []
  {
    hide From, EmissionMade;
    if es != [] {
      NoSuchBundle(op, s, t, es[..|es| - 1], b);
      EmissionFrom(op, s, t, es[|es| - 1], OfBundle(b));
    }
  }

  /** The same for a data message. */
  lemma DataExact<D>(op: Operator, s: StreamId, m: Message<D>, x: Source)
    requires WellBuilt(op) && m.TimestampedData?
    ensures MakeEvents(op, s, m).0 == op.forest && From(MakeEvents(op, s, m).1, x) == DataEvents(op, s, m.timestamp, x)
  {
    DataFrom(op, |op.stateful|, s, m.timestamp, x);
  }
}
