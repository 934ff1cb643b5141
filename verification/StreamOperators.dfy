/** The read streams, stateful streams and bundles of one operator, as objects that change in place. */
module StreamOperators {
  import opened Timestamps
  import opened OperatorEvents
  import opened Basics
  import opened WriteStreams
  import opened Bundles
  import opened BundleTrees
  import opened LowWatermarks
  import opened EventMakers

  function FiringsMade(f: Forest, fs: seq<Firing>): seq<Made> {
    if fs == [] then [] else FiringsMade(f, fs[..|fs| - 1]) + FiringMade(f, fs[|fs| - 1])
  }

  lemma {:induction false} FiringsMadeAppend(f: Forest, fs: seq<Firing>, gs: seq<Firing>)
    ensures FiringsMade(f, fs + gs) == FiringsMade(f, fs) + FiringsMade(f, gs)
  {
    hide FiringMade;
    if gs == [] {
      assert fs + gs == fs;
    } else {
      FiringsMadeAppend(f, fs, gs[..|gs| - 1]);
      assert (fs + gs)[..|fs + gs| - 1] == fs + gs[..|gs| - 1];
    }
  }

  lemma {:induction false} FiringsMadeSameShape(f: Forest, g: Forest, fs: seq<Firing>)
    requires SameShape(f, g)
    ensures FiringsMade(f, fs) == FiringsMade(g, fs)
  {
    if fs != [] {
      FiringsMadeSameShape(f, g, fs[..|fs| - 1]);
      var x := fs[|fs| - 1];
      if 0 <= x.bundle < |f| { assert SameBut(f[x.bundle], g[x.bundle]); }
    }
  }

  lemma EmissionOfFire(op: Operator, s: StreamId, t: Timestamp, x: Firing)
    ensures EmissionMade(op, s, t, Fire(x)) == FiringMade(op.forest, x)
  {
  }

  lemma {:induction false} EmissionsMadeFired(op: Operator, s: StreamId, t: Timestamp, es: seq<Emission>, fs: seq<Firing>)
    ensures EmissionsMade(op, s, t, es + Fired(fs)) == EmissionsMade(op, s, t, es) + FiringsMade(op.forest, fs)
  {
    hide FiringMade, EmissionMade;
    if fs == [] {
      assert es + Fired(fs) == es;
    } else {
      var init := fs[..|fs| - 1];
      EmissionsMadeFired(op, s, t, es, init);
      var all := es + Fired(fs);
      assert all[..|all| - 1] == es + Fired(init) && all[|all| - 1] == Fire(fs[|fs| - 1]);
      EmissionOfFire(op, s, t, fs[|fs| - 1]);
    }
  }

  lemma ShapeKept(f: Forest, g: Forest)
    requires Shaped(f) && SameShape(f, g)
    ensures Shaped(g)
  {
    forall b, i | 0 <= b < |g| && 0 <= i < |g[b].children|
      ensures b < g[b].children[i] < |g| && Reads(g[g[b].children[i]], g[b])
    {
      assert SameBut(f[b], g[b]) && SameBut(f[f[b].children[i]], g[f[b].children[i]]);
      assert Reads(f[f[b].children[i]], f[b]);
    }
    forall b | 0 <= b < |g| ensures |g[b].slots| == |g[b].ids| { assert SameBut(f[b], g[b]); }
  }

  /** One more child notified. */
  lemma ChildNotified(f: Forest, g: Forest, parent: int, cs: seq<int>, c: int, s: StreamId, t: Timestamp)
    requires Shaped(f) && -1 <= parent < c < |f| && forall i :: 0 <= i < |cs| ==> parent < cs[i] < |f|
    requires g == ForwardAll(f, parent, cs, s, t).0
    ensures Shaped(g) && SameShape(f, g)
    ensures Forward(g, c, s, t).0 == ForwardAll(f, parent, cs + [c], s, t).0
    ensures SameShape(f, Forward(g, c, s, t).0)
    ensures FiringsMade(f, ForwardAll(f, parent, cs, s, t).1) + FiringsMade(g, Forward(g, c, s, t).1)
      == FiringsMade(f, ForwardAll(f, parent, cs + [c], s, t).1)
  {
    hide Forward, ForwardAll, Shaped, FiringsMade;
    ForwardAllSnoc(f, parent, cs, c, s, t);
    FiringsMadeSameShape(f, g, Forward(g, c, s, t).1);
    FiringsMadeAppend(f, ForwardAll(f, parent, cs, s, t).1, Forward(g, c, s, t).1);
    SameShapeJoins(f, g, Forward(g, c, s, t).0);
  }

  lemma {:induction false} ForwardAllSnoc(f: Forest, parent: int, cs: seq<int>, c: int, s: StreamId, t: Timestamp)
    requires Shaped(f) && -1 <= parent < c < |f| && forall i :: 0 <= i < |cs| ==> parent < cs[i] < |f|
    ensures var (g, fs) := ForwardAll(f, parent, cs, s, t);
      && Shaped(g)
      && var (h, gs) := Forward(g, c, s, t);
      && ForwardAll(f, parent, cs + [c], s, t) == (h, fs + gs)
    decreases |cs|
  {
    hide Forward, Shaped;
    var all := cs + [c];
    ShapeKept(f, ForwardAll(f, parent, cs, s, t).0);
    if cs == [] {
      assert all == [c] && all[1..] == [];
      var (h, gs) := Forward(f, c, s, t);
      ShapeKept(f, h);
      assert ForwardAll(h, parent, [], s, t) == (h, []);
      assert gs + [] == [] + gs;
    } else {
      var (g, fs) := Forward(f, cs[0], s, t);
      ShapeKept(f, g);
      assert all[0] == cs[0] && all[1..] == cs[1..] + [c];
      ForwardAllSnoc(g, parent, cs[1..], c, s, t);
      var (h, gs) := ForwardAll(g, parent, cs[1..], s, t);
      var (i, hs) := Forward(h, c, s, t);
      assert fs + (gs + hs) == fs + gs + hs;
    }
  }

  class StreamOperator {
    const plain: map<StreamId, Plain>
    const stateful: seq<Stateful>
    var forest: Forest

    function Op(): Operator reads this { Operator(plain, stateful, forest) }

    constructor (op: Operator)
      ensures Op() == op
    {
      plain := op.plain;
      stateful := op.stateful;
      forest := op.forest;
    }

    static method LowWatermark(slots: seq<Option<Timestamp>>) returns (low: Option<Timestamp>)
      ensures low == Low(slots)
    {
      low := Some(Top());
      for i := 0 to |slots|
        invariant low == Low(slots[..i])
      {
        assert slots[..i + 1][..i] == slots[..i];
        if Older(slots[i], low) { low := slots[i]; }
      }
      assert slots[..|slots|] == slots;
    }

    /** The bundle's own slot and the change of its low watermark. */
    method SetWatermark(b: int, s: StreamId, t: Timestamp) returns (outcome: Outcome)
      requires Shaped(forest) && 0 <= b < |forest|
      modifies this`forest
      ensures (forest, outcome) == (old(forest)[b := Receive(old(forest)[b], s, t).0], Receive(old(forest)[b], s, t).1)
    {
      var previous := LowWatermark(forest[b].slots);
      var i := 0;
      while i < |forest[b].ids| && forest[b].ids[i] != s
        invariant 0 <= i <= |forest[b].ids|
        invariant s !in forest[b].ids[..i]
      {
        i := i + 1;
      }
      FirstPosition(forest[b].ids, s, i);
      if i < |forest[b].ids| {
        if !Older(forest[b].slots[i], Some(t)) {
          assert forest == forest[b := forest[b]];
          return Stale;
        }
        forest := forest[b := forest[b].(slots := forest[b].slots[i := Some(t)])];
      } else {
        assert forest == forest[b := forest[b]];
      }
      var current := LowWatermark(forest[b].slots);
      match (previous, current) {
        case (Some(p), Some(c)) => outcome := if Lt(p, c) then Fires(c) else Quiet;
        case (None, Some(c)) => outcome := Fires(c);
        case _ => outcome := Quiet;
      }
    }

    static lemma FirstPosition(ids: seq<StreamId>, s: StreamId, i: nat)
      requires i <= |ids| && s !in ids[..i] && (i < |ids| ==> ids[i] == s)
      ensures Position(ids, s) == i
    {
    }

    /** One event for each callback of a bundle that fires. */
    method FireEvents(b: int, low: Timestamp) returns (made: seq<Made>)
      requires 0 <= b < |forest|
      ensures made == FiringMade(forest, Firing(b, low))
    {
      made := [];
      var bundle := forest[b];
      for i := 0 to |bundle.callbacks|
        invariant |made| == i
        invariant forall j :: 0 <= j < i ==> made[j] == FiringMade(forest, Firing(b, low))[j]
      {
        made := made + [Made(OperatorEvent(low, true, bundle.callbacks[i], bundle.readIds, bundle.writeIds), OfBundle(b))];
      }
    }

    method ReceiveWatermark(b: int, s: StreamId, t: Timestamp) returns (made: seq<Made>)
      requires Shaped(forest) && 0 <= b < |forest|
      modifies this`forest
      ensures SameShape(old(forest), forest)
      ensures forest == Forward(old(forest), b, s, t).0
      ensures made == FiringsMade(old(forest), Forward(old(forest), b, s, t).1)
      decreases |forest| - b, |forest[b].children| + 1
    {
      hide Forward, Shaped, FiringMade, FiringsMade, Receive;
      ghost var f := forest;
      ForwardUnfolds(f, b, s, t);
      OwnThenChildren(f, b, s, t);
      var outcome := SetWatermark(b, s, t);
      if outcome.Stale? { return []; }
      made := [];
      if outcome.Fires? { made := FireEvents(b, outcome.low); }
      var rest := NotifyChildren(b, forest[b].children, s, t);
      SameShapeJoins(f, f[b := Receive(f[b], s, t).0], forest);
      made := made + rest;
    }

    static lemma ForwardUnfolds(f: Forest, b: int, s: StreamId, t: Timestamp)
      requires Shaped(f) && 0 <= b < |f|
      ensures var (b', outcome) := Receive(f[b], s, t);
        var g := f[b := b'];
        && SameShape(f, g) && Shaped(g) && b'.children == f[b].children
        && (forall i :: 0 <= i < |b'.children| ==> b < b'.children[i] < |f|)
        && (outcome.Stale? ==> Forward(f, b, s, t) == (g, []))
        && (!outcome.Stale? ==>
          && Forward(f, b, s, t).0 == ForwardAll(g, b, b'.children, s, t).0
          && Forward(f, b, s, t).1 == Own(b, outcome) + ForwardAll(g, b, b'.children, s, t).1)
    {
      var (b', outcome) := Receive(f[b], s, t);
      var g := f[b := b'];
      assert SameShape(f, g);
      ShapeKept(f, g);
      var fs := ForwardAll(g, b, f[b].children, s, t).1;
      assert [] + fs == fs;
    }

    static lemma OwnThenChildren(f: Forest, b: int, s: StreamId, t: Timestamp)
      requires Shaped(f) && 0 <= b < |f|
      ensures var (b', outcome) := Receive(f[b], s, t);
        var g := f[b := b'];
        && SameShape(f, g) && Shaped(g) && b'.children == f[b].children
        && (forall i :: 0 <= i < |b'.children| ==> b < b'.children[i] < |f|)
        && FiringsMade(f, []) == []
        && (!outcome.Stale? ==>
          FiringsMade(f, Forward(f, b, s, t).1)
            == (if outcome.Fires? then FiringMade(g, Firing(b, outcome.low)) else [])
            + FiringsMade(g, ForwardAll(g, b, b'.children, s, t).1))
    {
      hide Forward, ForwardAll, Receive, FiringMade, Shaped;
      ForwardUnfolds(f, b, s, t);
      var (b', outcome) := Receive(f[b], s, t);
      var g := f[b := b'];
      if !outcome.Stale? {
        var fs := ForwardAll(g, b, b'.children, s, t).1;
        OwnMade(f, g, b, outcome);
        FiringsMadeSameShape(f, g, fs);
        FiringsMadeAppend(f, Own(b, outcome), fs);
      }
    }

    static lemma OwnMade(f: Forest, g: Forest, b: int, outcome: Outcome)
      requires SameShape(f, g) && 0 <= b < |f|
      ensures FiringsMade(f, Own(b, outcome)) == if outcome.Fires? then FiringMade(g, Firing(b, outcome.low)) else []
    {
      assert SameBut(f[b], g[b]);
      if outcome.Fires? {
        var x := Firing(b, outcome.low);
        assert [x][..0] == [];
        assert FiringsMade(f, [x]) == [] + FiringMade(f, x);
      }
    }

    method NotifyChildren(parent: int, cs: seq<int>, s: StreamId, t: Timestamp) returns (made: seq<Made>)
      requires Shaped(forest) && -1 <= parent < |forest| && forall i :: 0 <= i < |cs| ==> parent < cs[i] < |forest|
      modifies this`forest
      ensures SameShape(old(forest), forest)
      ensures forest == ForwardAll(old(forest), parent, cs, s, t).0
      ensures made == FiringsMade(old(forest), ForwardAll(old(forest), parent, cs, s, t).1)
      decreases |forest| - parent, |cs|
    {
      hide Forward, Shaped, FiringMade;
      made := [];
      ghost var f := forest;
      for k := 0 to |cs|
        invariant SameShape(f, forest) && Shaped(forest)
        invariant forest == ForwardAll(f, parent, cs[..k], s, t).0
        invariant made == FiringsMade(f, ForwardAll(f, parent, cs[..k], s, t).1)
      {
        ChildNotified(f, forest, parent, cs[..k], cs[k], s, t);
        assert cs[..k + 1] == cs[..k] + [cs[k]];
        var more := ReceiveWatermark(cs[k], s, t);
        ShapeKept(f, forest);
        made := made + more;
      }
      assert cs[..|cs|] == cs;
    }

    static method Copies(n: nat, x: Made) returns (made: seq<Made>)
      ensures made == Repeat(n, x)
    {
      made := [];
      for i := 0 to n
        invariant |made| == i && forall j :: 0 <= j < i ==> made[j] == x
      {
        made := made + [x];
      }
    }

    /** Stateful callbacks: one event each, because they share the stream's state. */
    method PriorityEvents(k: int, t: Timestamp) returns (made: seq<Made>)
      requires 0 <= k < |stateful|
      ensures made == PriorityMade(Op(), k, t)
    {
      made := [];
      var st := stateful[k];
      for i := 0 to |st.priorities|
        invariant |made| == i
        invariant forall j :: 0 <= j < i ==> made[j] == PriorityMade(Op(), k, t)[j]
      {
        made := made + [Made(OperatorEvent(t, true, st.priorities[i], {}, {st.stateId}), OfState(k))];
      }
    }

    method MakeDataEvents(s: StreamId, t: Timestamp) returns (made: seq<Made>)
      ensures made == DataMade(Op(), |stateful|, s, t)
    {
      var callbacks := if s in plain then plain[s].callbacks else 0;
      made := Copies(callbacks, Made(OperatorEvent(t, false, 0, {}, {}), OfStream(s)));
      for k := 0 to |stateful|
        invariant made == DataMade(Op(), k, s, t)
      {
        if stateful[k].id == s {
          var more := Copies(stateful[k].callbacks, Made(OperatorEvent(t, false, 0, {}, {stateful[k].stateId}), OfState(k)));
          made := made + more;
        } else {
          made := made + [];
        }
      }
    }

    static lemma NotifiedUnfolds(op: Operator, f: Forest, k: nat, s: StreamId, t: Timestamp)
      requires k < |op.stateful| && WellBuilt(op) && f == Notified(op, k, s, t).0
      ensures WellBuilt(op.(forest := f)) && SameShape(op.forest, f)
      ensures var (g, es) := Notified(op, k, s, t);
        var cs := op.stateful[k].bundles;
        && Shaped(f) && (forall i :: 0 <= i < |cs| ==> -1 < cs[i] < |f|)
        && (op.stateful[k].id != s ==> Notified(op, k + 1, s, t) == (g, es))
        && (op.stateful[k].id == s ==>
          && Notified(op, k + 1, s, t).0 == ForwardAll(f, -1, cs, s, t).0
          && EmissionsMade(op, s, t, Notified(op, k + 1, s, t).1)
            == EmissionsMade(op, s, t, es) + PriorityMade(op, k, t) + FiringsMade(f, ForwardAll(f, -1, cs, s, t).1))
    {
      hide ForwardAll, FiringMade, PriorityMade, Registered, Inherited;
      StillBuilt(op, f);
      var es := Notified(op, k, s, t).1;
      if op.stateful[k].id == s {
        var fs := ForwardAll(f, -1, op.stateful[k].bundles, s, t).1;
        var own := es + [Callbacks(k)];
        assert own[..|own| - 1] == es;
        EmissionsMadeFired(op, s, t, own, fs);
        FiringsMadeSameShape(op.forest, f, fs);
      }
    }

    method MakeWatermarkEvents(s: StreamId, t: Timestamp) returns (made: seq<Made>)
      requires WellBuilt(Op())
      modifies this`forest
      ensures SameShape(old(forest), forest) && WellBuilt(Op())
      ensures forest == Notified(old(Op()), |stateful|, s, t).0
      ensures made == EmissionsMade(old(Op()), s, t, Notified(old(Op()), |stateful|, s, t).1)
    {
      hide ForwardAll, FiringMade, FiringsMade, PriorityMade, WellBuilt, Shaped;
      ghost var op := Op();
      var callbacks := if s in plain then plain[s].watermarkCallbacks else 0;
      made := Copies(callbacks, Made(OperatorEvent(t, true, 0, {}, {}), OfStream(s)));
      assert [Stateless][..0] == [];
      for k := 0 to |stateful|
        invariant SameShape(op.forest, forest) && forest == Notified(op, k, s, t).0
        invariant made == EmissionsMade(op, s, t, Notified(op, k, s, t).1)
      {
        NotifiedUnfolds(op, forest, k, s, t);
        if stateful[k].id == s {
          var own := PriorityEvents(k, t);
          assert own == PriorityMade(op, k, t) by { SamePriorityMade(op, Op(), k, t); }
          var rest := NotifyChildren(-1, stateful[k].bundles, s, t);
          made := made + own + rest;
        }
      }
      StillBuilt(op, forest);
    }

    static lemma SamePriorityMade(op: Operator, op': Operator, k: int, t: Timestamp)
      requires op.stateful == op'.stateful && 0 <= k < |op.stateful|
      ensures PriorityMade(op, k, t) == PriorityMade(op', k, t)
    {
    }

    method MakeEvents<D>(s: StreamId, m: Message<D>) returns (made: seq<Made>)
      requires WellBuilt(Op())
      modifies this`forest
      ensures SameShape(old(forest), forest) && WellBuilt(Op())
      ensures (forest, made) == EventMakers.MakeEvents(old(Op()), s, m)
    {
      match m {
        case TimestampedData(t, _) => made := MakeDataEvents(s, t);
        case Watermark(t) => made := MakeWatermarkEvents(s, t);
      }
    }
  }
}
