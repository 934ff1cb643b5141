/** An operator's streams and bundles over whole histories of watermarks. */
module LowWatermarks {
  import opened Timestamps
  import opened OperatorEvents
  import opened Basics
  import opened Bundles
  import opened BundleTrees

  datatype Delivery = Delivery(stream: StreamId, time: Timestamp)

  /** The newest watermark of stream s. */
  function MaxOf(h: seq<Delivery>, s: StreamId): Option<Timestamp> {
    if h == [] then None
    else
      var last := h[|h| - 1];
      var max := MaxOf(h[..|h| - 1], s);
      if last.stream == s then Newest(max, Some(last.time)) else max
  }

  lemma {:induction false} MaxIsMaximum(h: seq<Delivery>, s: StreamId)
    ensures forall d <- h :: d.stream == s ==> !Older(MaxOf(h, s), Some(d.time))
    ensures MaxOf(h, s).Some? ==> Delivery(s, MaxOf(h, s).value) in h
  {
    if h != [] {
      var init, last := h[..|h| - 1], h[|h| - 1];
      MaxIsMaximum(init, s);
      var max := MaxOf(init, s);
      OlderTotal(max, Some(last.time));
      OlderTotal(Some(last.time), Some(last.time));
      forall d <- h | d.stream == s ensures !Older(MaxOf(h, s), Some(d.time)) {
        if d in init {
          if last.stream == s && Older(max, Some(last.time)) { OlderTransitive(Some(d.time), max, Some(last.time)); }
        }
      }
      assert h == init + [last];
    }
  }

  /** What the slots of a bundle over `ids` hold: a stream listed twice never fills its second slot. */
  function Tracked(h: seq<Delivery>, ids: seq<StreamId>): seq<Option<Timestamp>> {
    seq(|ids|, i requires 0 <= i < |ids| => if Position(ids, ids[i]) == i then MaxOf(h, ids[i]) else None)
  }

  /** The low watermark of the streams `ids`. */
  function LowOf(h: seq<Delivery>, ids: seq<StreamId>): Option<Timestamp> { Low(Tracked(h, ids)) }

  lemma PositionUnique(ids: seq<StreamId>, i: int)
    requires 0 <= i < |ids|
    ensures Position(ids, ids[i]) <= i
    ensures Distinct(ids) ==> Position(ids, ids[i]) == i
  {
  }

  /** A new watermark fills in one slot; a stale one none. */
  lemma TrackedStep(h: seq<Delivery>, s: StreamId, t: Timestamp, ids: seq<StreamId>)
    ensures var g := h + [Delivery(s, t)];
      if s in ids && Older(MaxOf(h, s), Some(t))
      then Position(ids, s) < |ids| && Tracked(h, ids)[Position(ids, s)] == MaxOf(h, s)
        && Tracked(g, ids) == Tracked(h, ids)[Position(ids, s) := Some(t)]
      else Tracked(g, ids) == Tracked(h, ids)
  {
    var g := h + [Delivery(s, t)];
    assert g[..|g| - 1] == h;
    forall r | r != s ensures MaxOf(g, r) == MaxOf(h, r) {}
    if s in ids {
      var p := Position(ids, s);
      forall i | 0 <= i < |ids| && i != p && ids[i] == s ensures Tracked(g, ids)[i] == Tracked(h, ids)[i] {}
    }
  }

  /** Over distinct streams the low watermark is reached by every stream, and is one of their newest watermarks. */
  lemma LowMeaning(h: seq<Delivery>, ids: seq<StreamId>, v: Timestamp)
    requires LowOf(h, ids) == Some(v)
    ensures Distinct(ids)
    ensures forall s <- ids :: MaxOf(h, s).Some? && Delivery(s, MaxOf(h, s).value) in h && Le(v, MaxOf(h, s).value)
    ensures v == Top() || exists s <- ids :: MaxOf(h, s) == Some(v)
  {
    var slots := Tracked(h, ids);
    LowIsMinimum(slots);
    forall i | 0 <= i < |ids| ensures slots[i].Some? && Position(ids, ids[i]) == i && Le(v, slots[i].value) {
      assert slots[i] in slots;
      if slots[i].Some? { TotalOrder(v, slots[i].value); }
    }
    forall s <- ids ensures MaxOf(h, s).Some? && Delivery(s, MaxOf(h, s).value) in h && Le(v, MaxOf(h, s).value) {
      var i :| 0 <= i < |ids| && ids[i] == s;
      assert slots[i] == MaxOf(h, s);
      MaxIsMaximum(h, s);
    }
    if Some(v) in slots {
      var i :| 0 <= i < |ids| && slots[i] == Some(v);
      assert ids[i] in ids;
    }
  }

  /** A bundle over a stream it lists twice never fires, whatever is delivered. */
  lemma RepeatedNeverFires(h: seq<Delivery>, ids: seq<StreamId>)
    requires !Distinct(ids)
    ensures LowOf(h, ids) == None
  {
    if LowOf(h, ids).Some? { LowMeaning(h, ids, LowOf(h, ids).value); }
  }

  /** Distinct streams that have all been heard from do have a low watermark. */
  lemma LowExists(h: seq<Delivery>, ids: seq<StreamId>)
    requires Distinct(ids) && forall s <- ids :: exists t :: Delivery(s, t) in h
    ensures LowOf(h, ids).Some?
  {
    var slots := Tracked(h, ids);
    LowIsMinimum(slots);
    if None in slots {
      var i :| 0 <= i < |ids| && slots[i] == None;
      PositionUnique(ids, i);
      assert ids[i] in ids;
      var t :| Delivery(ids[i], t) in h;
      MaxIsMaximum(h, ids[i]);
    }
  }

  /** The low watermark only rises. */
  lemma LowRises(h: seq<Delivery>, d: Delivery, ids: seq<StreamId>)
    ensures !Older(LowOf(h + [d], ids), LowOf(h, ids))
  {
    var a, b := Tracked(h, ids), Tracked(h + [d], ids);
    TrackedStep(h, d.stream, d.time, ids);
    forall i | 0 <= i < |ids| ensures !Older(b[i], a[i]) {
      OlderTotal(a[i], a[i]);
      OlderTotal(a[i], b[i]);
    }
    LowMonotone(a, b);
  }

  function OnStream(h: seq<Delivery>, s: StreamId): seq<Timestamp> {
    if h == [] then []
    else
      var rest := OnStream(h[..|h| - 1], s);
      if h[|h| - 1].stream == s then rest + [h[|h| - 1].time] else rest
  }

  lemma {:induction false} MaxPerStream(h: seq<Delivery>, s: StreamId)
    ensures MaxOf(h, s).Some? <==> OnStream(h, s) != []
    ensures MaxOf(h, s).Some? ==> MaxOf(h, s).value in OnStream(h, s)
    ensures forall t <- OnStream(h, s) :: !Older(MaxOf(h, s), Some(t))
  {
    if h != [] {
      MaxPerStream(h[..|h| - 1], s);
      var max, last := MaxOf(h[..|h| - 1], s), h[|h| - 1].time;
      OlderTotal(max, Some(last));
      OlderTotal(Some(last), Some(last));
      forall t <- OnStream(h, s) ensures !Older(MaxOf(h, s), Some(t)) {
        if t in OnStream(h[..|h| - 1], s) && Older(max, Some(last)) { OlderTransitive(Some(t), max, Some(last)); }
      }
    }
  }

  /** How the streams were interleaved does not matter. */
  lemma LowIgnoresInterleaving(h: seq<Delivery>, g: seq<Delivery>, ids: seq<StreamId>)
    requires forall s <- ids :: OnStream(h, s) == OnStream(g, s)
    ensures LowOf(h, ids) == LowOf(g, ids)
  {
    forall i | 0 <= i < |ids| ensures Tracked(h, ids)[i] == Tracked(g, ids)[i] {
      var s := ids[i];
      assert s in ids;
      MaxPerStream(h, s);
      MaxPerStream(g, s);
      OlderTotal(MaxOf(h, s), MaxOf(g, s));
    }
    assert Tracked(h, ids) == Tracked(g, ids);
  }

  // ---------------------------------------------------------------------------------------------
  // An operator's read streams, their states and the bundles built on them.

  /** Stateless callbacks of a read stream. */
  datatype Plain = Plain(callbacks: nat, watermarkCallbacks: nat)

  /** A stateful read stream: its callbacks, the priorities of its watermark callbacks, and the bundles it notifies. */
  datatype Stateful = Stateful(id: StreamId, stateId: Uuid, callbacks: nat, priorities: seq<Priority>, bundles: seq<int>)

  datatype Operator = Operator(plain: map<StreamId, Plain>, stateful: seq<Stateful>, forest: Forest)

  predicate Registered(op: Operator, b: int, s: StreamId) {
    exists k, i :: 0 <= k < |op.stateful| && 0 <= i < |op.stateful[k].bundles| &&
      op.stateful[k].id == s && op.stateful[k].bundles[i] == b
  }

  predicate Inherited(f: Forest, b: int, s: StreamId) {
    exists p, i :: 0 <= p < |f| && p < b && 0 <= i < |f[p].children| && f[p].children[i] == b && s in f[p].ids
  }

  predicate RegistersRead(op: Operator) {
    forall k, i :: 0 <= k < |op.stateful| && 0 <= i < |op.stateful[k].bundles| ==>
      0 <= op.stateful[k].bundles[i] < |op.forest| && op.stateful[k].id in op.forest[op.stateful[k].bundles[i]].ids
  }

  predicate AllRooted(op: Operator) {
    forall b, s :: 0 <= b < |op.forest| && s in op.forest[b].ids ==> Registered(op, b, s) || Inherited(op.forest, b, s)
  }

  /** Every stream of a bundle reaches it: from a stateful stream directly, or through a bundle it is built on. */
  predicate WellBuilt(op: Operator) { Shaped(op.forest) && RegistersRead(op) && AllRooted(op) }

  datatype Emission = Stateless | Callbacks(stateful: int) | Fire(firing: Firing)

  function Fired(fs: seq<Firing>): seq<Emission> { seq(|fs|, i requires 0 <= i < |fs| => Fire(fs[i])) }

  /** The stateful streams before position k have seen watermark t of stream s. */
  function Notified(op: Operator, k: nat, s: StreamId, t: Timestamp): (r: (Forest, seq<Emission>))
    requires k <= |op.stateful| && WellBuilt(op)
    ensures SameShape(op.forest, r.0)
  {
    if k == 0 then (op.forest, [Stateless])
    else
      var (f, es) := Notified(op, k - 1, s, t);
      var st := op.stateful[k - 1];
      if st.id != s then (f, es)
      else
        StillBuilt(op, f);
        var (g, fs) := ForwardAll(f, -1, st.bundles, s, t);
        (g, es + [Callbacks(k - 1)] + Fired(fs))
  }

  lemma StillBuilt(op: Operator, f: Forest)
    requires WellBuilt(op) && SameShape(op.forest, f)
    ensures WellBuilt(op.(forest := f))
  {
    forall b, i | 0 <= b < |f| && 0 <= i < |f[b].children|
      ensures b < f[b].children[i] < |f| && Reads(f[f[b].children[i]], f[b])
    {
      var c := op.forest[b].children[i];
      assert SameBut(op.forest[b], f[b]);
      assert SameBut(op.forest[c], f[c]) && Reads(op.forest[c], op.forest[b]);
    }
    forall b, s | 0 <= b < |f| && s in f[b].ids
      ensures Registered(op.(forest := f), b, s) || Inherited(f, b, s)
    {
      assert SameBut(op.forest[b], f[b]);
      if Registered(op, b, s) {
      } else {
        var p, i :| 0 <= p < |f| && p < b && 0 <= i < |op.forest[p].children| && op.forest[p].children[i] == b && s in op.forest[p].ids;
        assert SameBut(op.forest[p], f[p]);
      }
    }
  }

  function Firings(es: seq<Emission>): seq<Firing> {
    if es == [] then []
    else Firings(es[..|es| - 1]) + (if es[|es| - 1].Fire? then [es[|es| - 1].firing] else [])
  }

  lemma {:induction false} FiringsAppend(es: seq<Emission>, fs: seq<Firing>)
    ensures Firings(es + Fired(fs)) == Firings(es) + fs
  {
    if fs == [] {
      assert es + Fired(fs) == es;
    } else {
      var init := fs[..|fs| - 1];
      FiringsAppend(es, init);
      var all := es + Fired(fs);
      assert all[..|all| - 1] == es + Fired(init);
      assert fs == init + [fs[|fs| - 1]];
    }
  }

  lemma {:induction false} FiringsExact(es: seq<Emission>, x: Firing)
    ensures x in Firings(es) <==> Fire(x) in es
  {
    if es != [] {
      FiringsExact(es[..|es| - 1], x);
      assert es == es[..|es| - 1] + [es[|es| - 1]];
    }
  }

  ghost predicate Tracks(f: Forest, h: seq<Delivery>) {
    forall b :: 0 <= b < |f| ==> f[b].slots == Tracked(h, f[b].ids)
  }

  /** The bundles registered with the stateful streams before k have moved. */
  ghost predicate RootsMoved(op: Operator, k: int, f: Forest, s: StreamId, now: AllSlots)
    requires WellBuilt(op) && 0 <= k <= |op.stateful| && |f| == |op.forest| == |now|
  {
    forall j, i :: 0 <= j < k && 0 <= i < |op.stateful[j].bundles| && op.stateful[j].id == s ==>
      f[op.stateful[j].bundles[i]].slots == now[op.stateful[j].bundles[i]]
  }

  lemma {:induction false} NotifiedAdvances(op: Operator, k: nat, s: StreamId, t: Timestamp,
                                            was: AllSlots, now: AllSlots)
    requires k <= |op.stateful| && WellBuilt(op) && Ready(op.forest, 0, s, t, was, now)
    ensures var (g, es) := Notified(op, k, s, t);
      && Advance(op.forest, g, Firings(es), was, now) && Ready(g, 0, s, t, was, now)
      && RootsMoved(op, k, g, s, now)
  {
    if k == 0 {
      Idle(op.forest, 0, was, now);
      assert Firings([Stateless]) == [];
    } else {
      NotifiedAdvances(op, k - 1, s, t, was, now);
      var (f, es) := Notified(op, k - 1, s, t);
      var st := op.stateful[k - 1];
      if st.id == s {
        NotifyNext(op, k, f, es, s, t, was, now);
      }
    }
  }

  lemma NotifyNext(op: Operator, k: nat, f: Forest, es: seq<Emission>, s: StreamId, t: Timestamp,
                   was: AllSlots, now: AllSlots)
    requires 0 < k <= |op.stateful| && WellBuilt(op) && op.stateful[k - 1].id == s
    requires Advance(op.forest, f, Firings(es), was, now) && Ready(f, 0, s, t, was, now) && RootsMoved(op, k - 1, f, s, now)
    ensures WellBuilt(op.(forest := f))
    ensures var (g, fs) := ForwardAll(f, -1, op.stateful[k - 1].bundles, s, t);
      && Advance(op.forest, g, Firings(es + [Callbacks(k - 1)] + Fired(fs)), was, now)
      && Ready(g, 0, s, t, was, now) && RootsMoved(op, k, g, s, now)
  {
    hide WellBuilt, Advance, Settled, Halfway, Moves, Shaped, ForwardAll, Firings, RootsMoved;
    AdvanceShape(op.forest, f, Firings(es), was, now);
    StillBuilt(op, f);
    var cs := op.stateful[k - 1].bundles;
    RegisteredRead(op, f, k - 1);
    ForwardAllAdvances(f, -1, cs, s, t, was, now);
    var (g, fs) := ForwardAll(f, -1, cs, s, t);
    AdvanceJoins(op.forest, f, g, Firings(es), fs, was, now);
    FiringsNext(es, k - 1, fs);
    RootsStay(op, k, cs, f, g, fs, s, t, was, now);
  }

  lemma FiringsNext(es: seq<Emission>, k: int, fs: seq<Firing>)
    ensures Firings(es + [Callbacks(k)] + Fired(fs)) == Firings(es) + fs
  {
    var own := es + [Callbacks(k)];
    assert own[..|own| - 1] == es;
    FiringsAppend(own, fs);
  }

  lemma RootsStay(op: Operator, k: nat, cs: seq<int>, f: Forest, g: Forest, fs: seq<Firing>, s: StreamId, t: Timestamp,
                  was: AllSlots, now: AllSlots)
    requires 0 < k <= |op.stateful| && WellBuilt(op) && SameShape(op.forest, f) && Advance(f, g, fs, was, now)
    requires Moves(f, s, t, was, now) && RootsMoved(op, k - 1, f, s, now)
    requires cs == op.stateful[k - 1].bundles
    requires forall i :: 0 <= i < |cs| ==> 0 <= cs[i] < |g| && g[cs[i]].slots == now[cs[i]]
    ensures RootsMoved(op, k, g, s, now)
  {
    forall j, i | 0 <= j < k - 1 && 0 <= i < |op.stateful[j].bundles| && op.stateful[j].id == s
      ensures g[op.stateful[j].bundles[i]].slots == now[op.stateful[j].bundles[i]]
    {
      RegisteredRead(op, f, j);
      Stays(f, g, fs, s, t, was, now, op.stateful[j].bundles[i]);
    }
  }

  lemma RegisteredRead(op: Operator, f: Forest, k: int)
    requires WellBuilt(op) && SameShape(op.forest, f) && 0 <= k < |op.stateful|
    ensures forall i :: 0 <= i < |op.stateful[k].bundles| ==>
      0 <= op.stateful[k].bundles[i] < |f| && op.stateful[k].id in f[op.stateful[k].bundles[i]].ids
  {
    forall i | 0 <= i < |op.stateful[k].bundles|
      ensures 0 <= op.stateful[k].bundles[i] < |f| && op.stateful[k].id in f[op.stateful[k].bundles[i]].ids
    {
      var b := op.stateful[k].bundles[i];
      assert SameBut(op.forest[b], f[b]);
    }
  }

  /** No bundle over s is missed. */
  lemma {:induction false} AllMoved(op: Operator, f: Forest, b: int, s: StreamId, now: AllSlots)
    requires WellBuilt(op) && Shaped(f) && SameShape(op.forest, f) && |now| == |f|
    requires Settled(f, 0, s, now) && RootsMoved(op, |op.stateful|, f, s, now)
    requires 0 <= b < |f| && s in f[b].ids
    ensures f[b].slots == now[b]
    decreases b
  {
    assert SameBut(op.forest[b], f[b]);
    if !Registered(op, b, s) {
      var p, i :| 0 <= p < |f| && p < b && 0 <= i < |op.forest[p].children| && op.forest[p].children[i] == b && s in op.forest[p].ids;
      assert SameBut(op.forest[p], f[p]);
      AllMoved(op, f, p, s, now);
    }
  }

  // ---------------------------------------------------------------------------------------------
  // One watermark.

  ghost function SlotsOf(f: Forest, h: seq<Delivery>): AllSlots {
    seq(|f|, b requires 0 <= b < |f| => Tracked(h, f[b].ids))
  }

  lemma FreshMoves(f: Forest, h: seq<Delivery>, s: StreamId, t: Timestamp)
    requires Shaped(f) && Tracks(f, h) && Older(MaxOf(h, s), Some(t))
    ensures Ready(f, 0, s, t, SlotsOf(f, h), SlotsOf(f, h + [Delivery(s, t)]))
  {
    var was, now := SlotsOf(f, h), SlotsOf(f, h + [Delivery(s, t)]);
    forall b | 0 <= b < |f| && s in f[b].ids
      ensures var i := Position(f[b].ids, s);
        i < |was[b]| == |f[b].ids| && Older(was[b][i], Some(t)) && now[b] == was[b][i := Some(t)] && now[b] != was[b]
    {
      TrackedStep(h, s, t, f[b].ids);
      OlderTotal(MaxOf(h, s), Some(t));
      assert now[b][Position(f[b].ids, s)] == Some(t);
    }
  }

  lemma {:induction false} StaleForwards(f: Forest, cs: seq<int>, h: seq<Delivery>, s: StreamId, t: Timestamp)
    requires Shaped(f) && Tracks(f, h) && !Older(MaxOf(h, s), Some(t))
    requires forall i :: 0 <= i < |cs| ==> 0 <= cs[i] < |f| && s in f[cs[i]].ids
    ensures ForwardAll(f, -1, cs, s, t) == (f, [])
  {
    if cs != [] {
      var b := cs[0];
      PositionUnique(f[b].ids, Position(f[b].ids, s));
      assert f[b].slots[Position(f[b].ids, s)] == MaxOf(h, s);
      assert Receive(f[b], s, t) == (f[b], Stale);
      assert f[b := f[b]] == f;
      assert Forward(f, b, s, t) == (f, []);
      StaleForwards(f, cs[1..], h, s, t);
      var none: seq<Firing> := [];
      assert none + none == none;
    }
  }

  lemma {:induction false} StaleNotifies(op: Operator, k: nat, h: seq<Delivery>, s: StreamId, t: Timestamp)
    requires k <= |op.stateful| && WellBuilt(op) && Tracks(op.forest, h) && !Older(MaxOf(h, s), Some(t))
    ensures Notified(op, k, s, t).0 == op.forest && Firings(Notified(op, k, s, t).1) == []
  {
    hide Tracks, ForwardAll, Registered, Inherited, MaxOf;
    if k == 0 {
      assert Firings([Stateless]) == [];
    } else {
      StaleNotifies(op, k - 1, h, s, t);
      if op.stateful[k - 1].id == s {
        RegisteredRead(op, op.forest, k - 1);
        StaleForwards(op.forest, op.stateful[k - 1].bundles, h, s, t);
        FiringsNext(Notified(op, k - 1, s, t).1, k - 1, []);
      }
    }
  }

  /** Bundle b fires for this delivery, at low watermark v. */
  ghost predicate Rises(h: seq<Delivery>, d: Delivery, ids: seq<StreamId>, v: Timestamp) {
    Older(LowOf(h, ids), LowOf(h + [d], ids)) && LowOf(h + [d], ids) == Some(v)
  }

  /** fs reports exactly the bundles whose low watermark rises, once each. */
  ghost predicate Reports(f: Forest, fs: seq<Firing>, h: seq<Delivery>, d: Delivery) {
    && (forall b, v :: Firing(b, v) in fs <==> 0 <= b < |f| && Rises(h, d, f[b].ids, v))
    && (forall i, j :: 0 <= i < j < |fs| ==> fs[i].bundle != fs[j].bundle)
  }

  lemma NoRise(h: seq<Delivery>, d: Delivery, ids: seq<StreamId>)
    requires d.stream !in ids || !Older(MaxOf(h, d.stream), Some(d.time))
    ensures LowOf(h + [d], ids) == LowOf(h, ids) && Tracked(h + [d], ids) == Tracked(h, ids)
    ensures forall v :: !Rises(h, d, ids, v)
  {
    TrackedStep(h, d.stream, d.time, ids);
    OlderTotal(LowOf(h, ids), LowOf(h, ids));
  }

  lemma StaleTracks(op: Operator, h: seq<Delivery>, d: Delivery)
    requires WellBuilt(op) && Tracks(op.forest, h) && !Older(MaxOf(h, d.stream), Some(d.time))
    ensures var (g, es) := Notified(op, |op.stateful|, d.stream, d.time);
      Tracks(g, h + [d]) && Reports(op.forest, Firings(es), h, d)
  {
    StaleNotifies(op, |op.stateful|, h, d.stream, d.time);
    forall b | 0 <= b < |op.forest|
      ensures Tracked(h + [d], op.forest[b].ids) == Tracked(h, op.forest[b].ids) && forall v :: !Rises(h, d, op.forest[b].ids, v)
    {
      NoRise(h, d, op.forest[b].ids);
    }
  }

  lemma AdvanceReports(f: Forest, g: Forest, fs: seq<Firing>, h: seq<Delivery>, d: Delivery)
    requires Tracks(f, h) && Tracks(g, h + [d]) && Older(MaxOf(h, d.stream), Some(d.time))
    requires Advance(f, g, fs, SlotsOf(f, h), SlotsOf(f, h + [d]))
    ensures Reports(f, fs, h, d)
  {
    forall b, v ensures Firing(b, v) in fs <==> 0 <= b < |f| && Rises(h, d, f[b].ids, v) {
      if 0 <= b < |f| {
        assert SameBut(f[b], g[b]);
        if !Touched(f, g, b) {
          OlderTotal(LowOf(h, f[b].ids), LowOf(h, f[b].ids));
        }
      }
    }
  }

  lemma FreshTracks(op: Operator, h: seq<Delivery>, d: Delivery)
    requires WellBuilt(op) && Tracks(op.forest, h) && Older(MaxOf(h, d.stream), Some(d.time))
    ensures var (g, es) := Notified(op, |op.stateful|, d.stream, d.time);
      Tracks(g, h + [d]) && Reports(op.forest, Firings(es), h, d)
  {
    var f, s := op.forest, d.stream;
    var was, now := SlotsOf(f, h), SlotsOf(f, h + [d]);
    FreshMoves(f, h, s, d.time);
    NotifiedAdvances(op, |op.stateful|, s, d.time, was, now);
    var (g, es) := Notified(op, |op.stateful|, s, d.time);
    forall b | 0 <= b < |g| ensures g[b].slots == Tracked(h + [d], g[b].ids) {
      assert SameBut(f[b], g[b]);
      if s in g[b].ids {
        AllMoved(op, g, b, s, now);
      } else {
        NoRise(h, d, f[b].ids);
        assert now[b] == was[b];
      }
    }
    AdvanceReports(f, g, Firings(es), h, d);
  }

  /** Every watermark leaves every slot at its stream's newest watermark, and fires exactly the bundles whose low rises. */
  lemma WatermarkTracks(op: Operator, h: seq<Delivery>, d: Delivery)
    requires WellBuilt(op) && Tracks(op.forest, h)
    ensures var (g, es) := Notified(op, |op.stateful|, d.stream, d.time);
      WellBuilt(op.(forest := g)) && Tracks(g, h + [d]) && Reports(op.forest, Firings(es), h, d)
  {
    if Older(MaxOf(h, d.stream), Some(d.time)) {
      FreshTracks(op, h, d);
    } else {
      StaleTracks(op, h, d);
    }
    StillBuilt(op, Notified(op, |op.stateful|, d.stream, d.time).0);
  }
}
