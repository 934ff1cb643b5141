/** In which order the events of one message are made. */
module EventOrder {
  import opened Timestamps
  import opened OperatorEvents
  import opened WriteStreams
  import opened Bundles
  import opened BundleTrees
  import opened LowWatermarks
  import opened EventMakers

  /** A stream's own callbacks: the stateless ones, then the stateful streams' in order of creation. */
  function Place(x: Source): int {
    match x
    case OfStream(_) => -1
    case OfState(k) => k
    case OfBundle(_) => -2
  }

  predicate Own(x: Made) { !x.source.OfBundle? }

  /** The own callbacks' events come in the order of their places, all before place `end`. */
  ghost predicate InPlaces(made: seq<Made>, end: int) {
    && (forall i, j :: 0 <= i < j < |made| && Own(made[i]) && Own(made[j]) ==> Place(made[i].source) <= Place(made[j].source))
    && (forall i :: 0 <= i < |made| && Own(made[i]) ==> -1 <= Place(made[i].source) < end)
  }

  lemma InPlacesAppend(a: seq<Made>, b: seq<Made>, k: int)
    requires InPlaces(a, k) && k >= 0 && forall i :: 0 <= i < |b| && Own(b[i]) ==> Place(b[i].source) == k
    ensures InPlaces(a + b, k + 1)
  {
  }

  /** Data messages: stateless callbacks first, then stateful ones in the order their streams were made. */
  lemma {:induction false} DataOrdered(op: Operator, k: nat, s: StreamId, t: Timestamp)
    requires k <= |op.stateful|
    ensures InPlaces(DataMade(op, k, s, t), k) && forall x <- DataMade(op, k, s, t) :: Own(x)
  {
    if k > 0 {
      DataOrdered(op, k - 1, s, t);
      var more := if op.stateful[k - 1].id == s then StatefulMade(op, k - 1, t) else [];
      InPlacesAppend(DataMade(op, k - 1, s, t), more, k - 1);
    }
  }

  // ---------------------------------------------------------------------------------------------
  // Bundles.

  /** Bundle b is bundle p or is built on top of it. */
  ghost predicate Beneath(f: Forest, p: int, b: int)
    requires Shaped(f) && 0 <= p < |f|
    decreases |f| - p
  {
    b == p || exists i :: 0 <= i < |f[p].children| && Beneath(f, f[p].children[i], b)
  }

  ghost predicate BeneathAny(f: Forest, cs: seq<int>, b: int)
    requires Shaped(f) && forall i :: 0 <= i < |cs| ==> 0 <= cs[i] < |f|
  {
    exists i :: 0 <= i < |cs| && Beneath(f, cs[i], b)
  }

  lemma StillShaped(f: Forest, g: Forest)
    requires Shaped(f) && SameShape(f, g)
    ensures Shaped(g)
  {
    forall b, i | 0 <= b < |g| && 0 <= i < |g[b].children|
      ensures b < g[b].children[i] < |g| && Reads(g[g[b].children[i]], g[b])
    {
      assert SameBut(f[b], g[b]);
      assert SameBut(f[f[b].children[i]], g[f[b].children[i]]) && Reads(f[f[b].children[i]], f[b]);
    }
    forall b | 0 <= b < |g| ensures |g[b].slots| == |g[b].ids| { assert SameBut(f[b], g[b]); }
  }

  lemma {:induction false} SameBeneath(f: Forest, g: Forest, p: int, b: int)
    requires Shaped(f) && Shaped(g) && SameShape(f, g) && 0 <= p < |f|
    ensures Beneath(f, p, b) <==> Beneath(g, p, b)
    decreases |f| - p
  {
    assert SameBut(f[p], g[p]);
    forall i | 0 <= i < |f[p].children| ensures Beneath(f, f[p].children[i], b) <==> Beneath(g, g[p].children[i], b) {
      SameBeneath(f, g, f[p].children[i], b);
    }
  }

  /** What fires when a bundle is notified was built on it. */
  lemma {:induction false} ForwardBeneath(f: Forest, p: int, s: StreamId, t: Timestamp, x: Firing)
    requires Shaped(f) && 0 <= p < |f| && x in Forward(f, p, s, t).1
    ensures Beneath(f, p, x.bundle)
    decreases |f| - p, |f[p].children| + 1
  {
    var (b', outcome) := Receive(f[p], s, t);
    var g := f[p := b'];
    assert SameShape(f, g);
    StillShaped(f, g);
    if x.bundle != p {
      assert x in ForwardAll(g, p, f[p].children, s, t).1;
      ForwardAllBeneath(g, p, f[p].children, s, t, x);
      var i :| 0 <= i < |f[p].children| && Beneath(g, f[p].children[i], x.bundle);
      SameBeneath(f, g, f[p].children[i], x.bundle);
    }
  }

  lemma {:induction false} ForwardAllBeneath(f: Forest, parent: int, cs: seq<int>, s: StreamId, t: Timestamp, x: Firing)
    requires Shaped(f) && -1 <= parent < |f| && (forall i :: 0 <= i < |cs| ==> parent < cs[i] < |f|)
    requires x in ForwardAll(f, parent, cs, s, t).1
    ensures BeneathAny(f, cs, x.bundle)
    decreases |f| - parent, |cs|
  {
    var (g, fs) := Forward(f, cs[0], s, t);
    StillShaped(f, g);
    if x in fs {
      ForwardBeneath(f, cs[0], s, t, x);
    } else {
      ForwardAllBeneath(g, parent, cs[1..], s, t, x);
      var i :| 0 <= i < |cs[1..]| && Beneath(g, cs[1..][i], x.bundle);
      SameBeneath(f, g, cs[1..][i], x.bundle);
      assert Beneath(f, cs[i + 1], x.bundle);
    }
  }

  // ---------------------------------------------------------------------------------------------
  // Watermarks.

  /** The event at position i is a bundle's: it comes between the callbacks of some stateful stream on s that the bundle, or
      one it is built on, is registered with, and those of the next one. */
  ghost predicate Slotted(op: Operator, s: StreamId, made: seq<Made>, i: int, k: int)
    requires WellBuilt(op) && 0 <= i < |made|
  {
    && made[i].source.OfBundle?
    && 0 <= k < |op.stateful| && op.stateful[k].id == s
    && Shaped(op.forest) && (forall j :: 0 <= j < |op.stateful[k].bundles| ==> 0 <= op.stateful[k].bundles[j] < |op.forest|)
    && BeneathAny(op.forest, op.stateful[k].bundles, made[i].source.bundle)
    && forall j :: 0 <= j < |made| && Own(made[j]) ==> (j < i <==> Place(made[j].source) <= k)
  }

  ghost predicate AllSlotted(op: Operator, s: StreamId, made: seq<Made>, end: nat)
    requires WellBuilt(op)
  {
    forall i :: 0 <= i < |made| && made[i].source.OfBundle? ==> exists k :: k < end && Slotted(op, s, made, i, k)
  }

  lemma {:induction false} EmissionsMadeAppend(op: Operator, s: StreamId, t: Timestamp, a: seq<Emission>, b: seq<Emission>)
    ensures EmissionsMade(op, s, t, a + b) == EmissionsMade(op, s, t, a) + EmissionsMade(op, s, t, b)
  {
    hide EmissionMade;
    if b == [] {
      assert a + b == a;
    } else {
      EmissionsMadeAppend(op, s, t, a, b[..|b| - 1]);
      assert (a + b)[..|a + b| - 1] == a + b[..|b| - 1];
    }
  }

  lemma {:induction false} FiredMade(op: Operator, s: StreamId, t: Timestamp, fs: seq<Firing>)
    ensures forall x <- EmissionsMade(op, s, t, Fired(fs)) :: x.source.OfBundle? && exists f :: f in fs && f.bundle == x.source.bundle
  {
    if fs != [] {
      var init, last := fs[..|fs| - 1], fs[|fs| - 1];
      FiredMade(op, s, t, init);
      assert Fired(fs)[..|fs| - 1] == Fired(init) && Fired(fs)[|fs| - 1] == Fire(last);
      forall x <- EmissionsMade(op, s, t, Fired(fs)) ensures x.source.OfBundle? && exists f :: f in fs && f.bundle == x.source.bundle {
        if x in EmissionsMade(op, s, t, Fired(init)) {
          var f :| f in init && f.bundle == x.source.bundle;
          assert f in fs;
        } else {
          assert x in FiringMade(op.forest, last) && last in fs;
        }
      }
    }
  }

  /** What one stateful stream adds: its own callbacks' events, then those of the bundles it notifies. */
  lemma OneStream(op: Operator, k: nat, s: StreamId, t: Timestamp, own: seq<Made>, fired: seq<Made>, before: seq<Made>)
    requires WellBuilt(op) && k < |op.stateful| && op.stateful[k].id == s
    requires InPlaces(before, k) && AllSlotted(op, s, before, k)
    requires forall x <- own :: x.source == OfState(k)
    requires Shaped(op.forest) && forall j :: 0 <= j < |op.stateful[k].bundles| ==> 0 <= op.stateful[k].bundles[j] < |op.forest|
    requires forall x <- fired :: x.source.OfBundle? && BeneathAny(op.forest, op.stateful[k].bundles, x.source.bundle)
    ensures InPlaces(before + own + fired, k + 1) && AllSlotted(op, s, before + own + fired, k + 1)
  {
    hide BeneathAny, WellBuilt, Shaped;
    var made := before + own + fired;
    InPlacesAppend(before, own + fired, k);
    assert before + (own + fired) == made;
    forall i | 0 <= i < |made| && made[i].source.OfBundle?
      ensures exists j :: j < k + 1 && Slotted(op, s, made, i, j)
    {
      if i < |before| {
        var j :| j < k && Slotted(op, s, before, i, j);
        assert Slotted(op, s, made, i, j);
      } else {
        assert made[i] in fired;
        assert Slotted(op, s, made, i, k);
      }
    }
  }

  lemma {:induction false} NotifiedOrdered(op: Operator, k: nat, s: StreamId, t: Timestamp)
    requires WellBuilt(op) && k <= |op.stateful|
    ensures var made := EmissionsMade(op, s, t, Notified(op, k, s, t).1); InPlaces(made, k) && AllSlotted(op, s, made, k)
  {
    hide EmissionsMade, InPlaces, AllSlotted, ForwardAll, Fired, WellBuilt;
    if k == 0 {
      OnlyStateless(op, s, t);
    } else {
      NotifiedOrdered(op, k - 1, s, t);
      var (f, es) := Notified(op, k - 1, s, t);
      var before := EmissionsMade(op, s, t, es);
      if op.stateful[k - 1].id != s {
        NextPlace(op, s, before, k - 1);
      } else {
        StillBuilt(op, f);
        Notifies(op, f, k - 1, s, t, es);
      }
    }
  }

  lemma OnlyStateless(op: Operator, s: StreamId, t: Timestamp)
    requires WellBuilt(op)
    ensures var made := EmissionsMade(op, s, t, [Stateless]); InPlaces(made, 0) && AllSlotted(op, s, made, 0)
  {
    assert [Stateless][..0] == [];
    assert EmissionsMade(op, s, t, [Stateless]) == [] + EmissionMade(op, s, t, Stateless);
  }

  lemma NextPlace(op: Operator, s: StreamId, made: seq<Made>, k: nat)
    requires WellBuilt(op) && InPlaces(made, k) && AllSlotted(op, s, made, k)
    ensures InPlaces(made, k + 1) && AllSlotted(op, s, made, k + 1)
  {
    hide Slotted, WellBuilt;
    forall i | 0 <= i < |made| && made[i].source.OfBundle?
      ensures exists j :: j < k + 1 && Slotted(op, s, made, i, j)
    {
      var j :| j < k && Slotted(op, s, made, i, j);
    }
  }

  lemma Notifies(op: Operator, f: Forest, k: nat, s: StreamId, t: Timestamp, es: seq<Emission>)
    requires WellBuilt(op) && k < |op.stateful| && op.stateful[k].id == s && SameShape(op.forest, f) && WellBuilt(op.(forest := f))
    requires var before := EmissionsMade(op, s, t, es); InPlaces(before, k) && AllSlotted(op, s, before, k)
    ensures var made := EmissionsMade(op, s, t, es + [Callbacks(k)] + Fired(ForwardAll(f, -1, op.stateful[k].bundles, s, t).1));
      InPlaces(made, k + 1) && AllSlotted(op, s, made, k + 1)
  {
    hide InPlaces, AllSlotted, ForwardAll, Fired, Registered, Inherited, AllRooted;
    var bs := op.stateful[k].bundles;
    var fs := ForwardAll(f, -1, bs, s, t).1;
    var before, own, fired := EmissionsMade(op, s, t, es), PriorityMade(op, k, t), EmissionsMade(op, s, t, Fired(fs));
    EmissionsMadeAppend(op, s, t, es + [Callbacks(k)], Fired(fs));
    EmissionsMadeAppend(op, s, t, es, [Callbacks(k)]);
    JustCallbacks(op, s, t, k);
    FiredMade(op, s, t, fs);
    forall x <- fired ensures BeneathAny(op.forest, bs, x.source.bundle) {
      var y :| y in fs && y.bundle == x.source.bundle;
      ForwardAllBeneath(f, -1, bs, s, t, y);
      var i :| 0 <= i < |bs| && Beneath(f, bs[i], y.bundle);
      SameBeneath(op.forest, f, bs[i], y.bundle);
    }
    OneStream(op, k, s, t, own, fired, before);
  }

  lemma JustCallbacks(op: Operator, s: StreamId, t: Timestamp, k: nat)
    requires k < |op.stateful|
    ensures EmissionsMade(op, s, t, [Callbacks(k)]) == PriorityMade(op, k, t)
  {
    assert [Callbacks(k)][..0] == [];
    assert EmissionsMade(op, s, t, [Callbacks(k)]) == [] + EmissionMade(op, s, t, Callbacks(k));
  }

  /** Watermarks: stateless callbacks first, then for each stateful stream on s, in the order they were made, its callbacks
      and after them the bundles it notifies and those built on them. */
  lemma WatermarkOrdered<D>(op: Operator, s: StreamId, t: Timestamp)
    requires WellBuilt(op)
    ensures var made := MakeEvents(op, s, Message<D>.Watermark(t)).1;
      InPlaces(made, |op.stateful|) && AllSlotted(op, s, made, |op.stateful|)
  {
    hide InPlaces, AllSlotted;
    NotifiedOrdered(op, |op.stateful|, s, t);
  }
}
