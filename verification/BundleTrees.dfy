/** Bundles that forward watermarks to the bundles built on top of them. */
module BundleTrees {
  import opened Timestamps
  import opened Basics
  import opened Bundles

  /** Bundles by creation order; `children` are positions in this sequence. */
  type Forest = seq<Bundle>

  /** The slots of every bundle. */
  type AllSlots = seq<seq<Option<Timestamp>>>

  predicate Reads(b: Bundle, parent: Bundle) { forall s <- parent.ids :: s in b.ids }

  /** A child is younger than its parent and reads every stream its parent reads. */
  predicate Shaped(f: Forest) {
    && (forall b :: 0 <= b < |f| ==> |f[b].slots| == |f[b].ids|)
    && (forall b, i :: 0 <= b < |f| && 0 <= i < |f[b].children| ==>
      b < f[b].children[i] < |f| && Reads(f[f[b].children[i]], f[b]))
  }

  predicate SameBut(a: Bundle, b: Bundle) {
    && a.ids == b.ids && |a.slots| == |b.slots| && a.callbacks == b.callbacks
    && a.readIds == b.readIds && a.writeIds == b.writeIds && a.children == b.children
  }

  /** Only slots differ. */
  predicate SameShape(f: Forest, g: Forest) {
    && |f| == |g|
    && (forall b :: 0 <= b < |f| ==> SameBut(f[b], g[b]))
  }

  lemma SameShapeJoins(f: Forest, g: Forest, h: Forest)
    requires SameShape(f, g) && SameShape(g, h)
    ensures SameShape(f, h)
  {
    forall b | 0 <= b < |f| ensures SameBut(f[b], h[b]) { assert SameBut(f[b], g[b]) && SameBut(g[b], h[b]); }
  }

  datatype Firing = Firing(bundle: int, low: Timestamp)

  /** `receive_watermark` of bundle b: its own reaction, then its children's, unless the watermark is stale. */
  function Forward(f: Forest, b: int, s: StreamId, t: Timestamp): (r: (Forest, seq<Firing>))
    requires Shaped(f) && 0 <= b < |f|
    ensures SameShape(f, r.0)
    decreases |f| - b, |f[b].children| + 1
  {
    var (b', outcome) := Receive(f[b], s, t);
    var g := f[b := b'];
    match outcome
    case Stale => (g, [])
    case Quiet => ForwardAll(g, b, f[b].children, s, t)
    case Fires(low) =>
      var (h, fs) := ForwardAll(g, b, f[b].children, s, t);
      (h, [Firing(b, low)] + fs)
  }

  function ForwardAll(f: Forest, parent: int, cs: seq<int>, s: StreamId, t: Timestamp): (r: (Forest, seq<Firing>))
    requires Shaped(f) && -1 <= parent < |f| && forall i :: 0 <= i < |cs| ==> parent < cs[i] < |f|
    ensures SameShape(f, r.0)
    decreases |f| - parent, |cs|
  {
    if cs == [] then (f, [])
    else
      var (g, fs) := Forward(f, cs[0], s, t);
      var (h, gs) := ForwardAll(g, parent, cs[1..], s, t);
      (h, fs + gs)
  }

  // ---------------------------------------------------------------------------------------------
  // What one watermark does to a forest, from the slots it had to the slots it will have.

  /** t moves every bundle over s from its old slots to its new ones, and leaves the other bundles alone. */
  ghost predicate Moves(f: Forest, s: StreamId, t: Timestamp, was: AllSlots, now: AllSlots) {
    && |was| == |f| && |now| == |f|
    && forall b :: 0 <= b < |f| && s in f[b].ids ==> (
      var i := Position(f[b].ids, s);
      i < |was[b]| == |f[b].ids| && Older(was[b][i], Some(t)) && now[b] == was[b][i := Some(t)])
  }

  predicate Touched(f: Forest, g: Forest, b: int) requires |f| == |g| {
    0 <= b < |f| && f[b].slots != g[b].slots
  }

  ghost predicate Moved(f: Forest, g: Forest, was: AllSlots, now: AllSlots) {
    && SameShape(f, g)
    && |was| == |f| && |now| == |f|
    && forall b :: Touched(f, g, b) ==> f[b].slots == was[b] && g[b].slots == now[b]
  }

  /** From f to g some bundles moved, and exactly those whose low watermark rose are reported, once each. */
  ghost predicate Advance(f: Forest, g: Forest, fs: seq<Firing>, was: AllSlots, now: AllSlots) {
    && Moved(f, g, was, now)
    && (forall x <- fs :: Touched(f, g, x.bundle) && Verdict(Low(was[x.bundle]), Low(now[x.bundle])) == Fires(x.low))
    && (forall b :: Touched(f, g, b) && Verdict(Low(was[b]), Low(now[b])).Fires? ==>
      Firing(b, Verdict(Low(was[b]), Low(now[b])).low) in fs)
    && (forall i, j :: 0 <= i < j < |fs| ==> fs[i].bundle != fs[j].bundle)
  }

  lemma AdvanceShape(f: Forest, g: Forest, fs: seq<Firing>, was: AllSlots, now: AllSlots)
    requires Advance(f, g, fs, was, now)
    ensures SameShape(f, g) && |was| == |now| == |f| == |g|
  {
  }

  lemma MovedJoins(f: Forest, g: Forest, h: Forest, was: AllSlots, now: AllSlots)
    requires Moved(f, g, was, now) && Moved(g, h, was, now)
    ensures Moved(f, h, was, now)
    ensures forall b :: Touched(f, h, b) <==> Touched(f, g, b) || Touched(g, h, b)
    ensures forall b :: Touched(f, g, b) ==> !Touched(g, h, b)
  {
    SameShapeJoins(f, g, h);
  }

  lemma AdvanceJoins(f: Forest, g: Forest, h: Forest, fs: seq<Firing>, gs: seq<Firing>,
                     was: AllSlots, now: AllSlots)
    requires Advance(f, g, fs, was, now) && Advance(g, h, gs, was, now)
    ensures Advance(f, h, fs + gs, was, now)
  {
    MovedJoins(f, g, h, was, now);
    hide Moved, Touched, Low, Verdict;
    forall i, j | 0 <= i < j < |fs + gs| ensures (fs + gs)[i].bundle != (fs + gs)[j].bundle {
      if i < |fs| <= j {
        assert fs[i] in fs && gs[j - |fs|] in gs;
      }
    }
  }

  /** Below a bundle that has moved everything has moved. */
  ghost predicate Settled(f: Forest, lo: int, s: StreamId, now: AllSlots)
    requires Shaped(f) && |now| == |f|
  {
    forall b, i :: 0 <= b < |f| && lo <= b && 0 <= i < |f[b].children| && s in f[b].ids && f[b].slots == now[b] ==>
      f[f[b].children[i]].slots == now[f[b].children[i]]
  }

  /** Each bundle over s still has its old slots or already its new ones. */
  ghost predicate Halfway(f: Forest, s: StreamId, was: AllSlots, now: AllSlots)
    requires |was| == |now| == |f|
  {
    forall b :: 0 <= b < |f| && s in f[b].ids ==> f[b].slots == was[b] || f[b].slots == now[b]
  }

  ghost predicate TouchedFrom(f: Forest, g: Forest, lo: int) requires |f| == |g| {
    forall b :: Touched(f, g, b) ==> lo <= b
  }

  /** A bundle that has moved stays put. */
  lemma Stays(f: Forest, g: Forest, fs: seq<Firing>, s: StreamId, t: Timestamp,
              was: AllSlots, now: AllSlots, b: int)
    requires Moves(f, s, t, was, now) && Advance(f, g, fs, was, now)
    requires 0 <= b < |f| && s in f[b].ids && f[b].slots == now[b]
    ensures g[b].slots == now[b]
  {
    var i := Position(f[b].ids, s);
    OlderTotal(was[b][i], Some(t));
    assert now[b][i] == Some(t);
    assert was[b] != now[b];
    assert !Touched(f, g, b);
  }

  lemma SettledExtends(f: Forest, g: Forest, fs: seq<Firing>, s: StreamId, t: Timestamp,
                       was: AllSlots, now: AllSlots, lo: int, mid: int)
    requires Shaped(f) && Shaped(g) && Moves(f, s, t, was, now) && Advance(f, g, fs, was, now)
    requires Settled(f, lo, s, now) && Settled(g, mid, s, now) && TouchedFrom(f, g, mid)
    ensures Settled(g, lo, s, now)
  {
    forall b, i | 0 <= b < |g| && lo <= b < mid && 0 <= i < |g[b].children| && s in g[b].ids && g[b].slots == now[b]
      ensures g[g[b].children[i]].slots == now[g[b].children[i]]
    {
      assert !Touched(f, g, b);
      assert SameBut(f[b], g[b]);
      assert Reads(f[f[b].children[i]], f[b]);
      Stays(f, g, fs, s, t, was, now, f[b].children[i]);
    }
  }

  /** One bundle's own move. */
  lemma ReceiveMoves(f: Forest, b: int, s: StreamId, t: Timestamp,
                     was: AllSlots, now: AllSlots)
    requires Shaped(f) && 0 <= b < |f| && s in f[b].ids && Moves(f, s, t, was, now)
    ensures f[b].slots == now[b] ==> Receive(f[b], s, t) == (f[b], Stale)
    ensures f[b].slots == was[b] ==>
      Receive(f[b], s, t) == (f[b].(slots := now[b]), Verdict(Low(was[b]), Low(now[b]))) && was[b] != now[b]
  {
    var i := Position(f[b].ids, s);
    OlderTotal(Some(t), Some(t));
    OlderTotal(was[b][i], Some(t));
    assert now[b][i] == Some(t);
  }

  ghost predicate Ready(f: Forest, lo: int, s: StreamId, t: Timestamp,
                        was: AllSlots, now: AllSlots) {
    Shaped(f) && Moves(f, s, t, was, now) && Halfway(f, s, was, now) && Settled(f, lo, s, now)
  }

  lemma StaysReady(f: Forest, g: Forest, fs: seq<Firing>, s: StreamId, t: Timestamp,
                   was: AllSlots, now: AllSlots)
    requires Shaped(f) && Moves(f, s, t, was, now) && Halfway(f, s, was, now) && Advance(f, g, fs, was, now)
    ensures Shaped(g) && Moves(g, s, t, was, now) && Halfway(g, s, was, now)
  {
    forall b, i | 0 <= b < |g| && 0 <= i < |g[b].children|
      ensures b < g[b].children[i] < |g| && Reads(g[g[b].children[i]], g[b])
    {
      assert SameBut(f[b], g[b]);
      assert SameBut(f[f[b].children[i]], g[f[b].children[i]]);
      assert Reads(f[f[b].children[i]], f[b]);
    }
    forall b | 0 <= b < |g| ensures SameBut(f[b], g[b]) && (Touched(f, g, b) || f[b].slots == g[b].slots) {}
  }

  function Own(b: int, outcome: Outcome): seq<Firing> {
    if outcome.Fires? then [Firing(b, outcome.low)] else []
  }

  lemma OwnMove(f: Forest, b: int, s: StreamId, t: Timestamp,
                was: AllSlots, now: AllSlots, lo: int)
    requires 0 <= b < |f| && lo <= b && Ready(f, lo, s, t, was, now) && s in f[b].ids && f[b].slots == was[b]
    ensures var (b', outcome) := Receive(f[b], s, t);
      var g := f[b := b'];
      && !outcome.Stale? && b'.slots == now[b] && SameBut(f[b], b')
      && Advance(f, g, Own(b, outcome), was, now) && TouchedFrom(f, g, b) && Ready(g, b + 1, s, t, was, now)
  {
    ReceiveMoves(f, b, s, t, was, now);
    var (b', outcome) := Receive(f[b], s, t);
    var g := f[b := b'];
    assert forall c :: Touched(f, g, c) <==> c == b;
    StaysReady(f, g, Own(b, outcome), s, t, was, now);
    forall c, i | 0 <= c < |g| && b + 1 <= c && 0 <= i < |g[c].children| && s in g[c].ids && g[c].slots == now[c]
      ensures g[g[c].children[i]].slots == now[g[c].children[i]]
    {
      assert f[c] == g[c];
    }
  }

  /** The move of b and the moves of its children together. */
  lemma BothMoves(f: Forest, g: Forest, h: Forest, b: int, own: seq<Firing>, fs: seq<Firing>, s: StreamId, t: Timestamp,
                  was: AllSlots, now: AllSlots, lo: int)
    requires 0 <= b < |f| && lo <= b && Ready(f, lo, s, t, was, now) && s in f[b].ids
    requires Advance(f, g, own, was, now) && TouchedFrom(f, g, b) && Ready(g, b + 1, s, t, was, now)
    requires Advance(g, h, fs, was, now) && TouchedFrom(g, h, b + 1) && Ready(h, b + 1, s, t, was, now)
    requires g[b].slots == now[b]
    requires forall i :: 0 <= i < |f[b].children| ==> h[f[b].children[i]].slots == now[f[b].children[i]]
    ensures Advance(f, h, own + fs, was, now) && TouchedFrom(f, h, b) && Ready(h, lo, s, t, was, now) && h[b].slots == now[b]
  {
    AdvanceJoins(f, g, h, own, fs, was, now);
    assert TouchedFrom(f, h, b) by {
      forall c | Touched(f, h, c) ensures b <= c { assert Touched(f, g, c) || Touched(g, h, c); }
    }
    assert h[b].slots == now[b] by { assert !Touched(g, h, b); }
    assert Settled(h, b, s, now) by { assert SameBut(f[b], h[b]); }
    SettledExtends(f, h, own + fs, s, t, was, now, lo, b);
  }

  /** Forwarding from b moves b and everything built on it, wherever it had not moved yet. */
  lemma {:induction false} ForwardAdvances(f: Forest, b: int, s: StreamId, t: Timestamp,
                                           was: AllSlots, now: AllSlots, lo: int)
    requires 0 <= b < |f| && lo <= b && Ready(f, lo, s, t, was, now) && s in f[b].ids
    ensures var (g, fs) := Forward(f, b, s, t);
      Advance(f, g, fs, was, now) && TouchedFrom(f, g, b) && Ready(g, lo, s, t, was, now) && g[b].slots == now[b]
    decreases |f| - b, |f[b].children| + 1
  {
    ReceiveMoves(f, b, s, t, was, now);
    if f[b].slots == now[b] {
      assert f[b := f[b]] == f;
      Idle(f, b, was, now);
    } else {
      OwnMove(f, b, s, t, was, now, lo);
      var (b', outcome) := Receive(f[b], s, t);
      var g := f[b := b'];
      ChildrenRead(f, g, b, s);
      ForwardAllAdvances(g, b, f[b].children, s, t, was, now);
      var (h, fs) := ForwardAll(g, b, f[b].children, s, t);
      BothMoves(f, g, h, b, Own(b, outcome), fs, s, t, was, now, lo);
      assert [] + fs == fs;
      assert Forward(f, b, s, t) == (h, Own(b, outcome) + fs);
    }
  }

  lemma Idle(f: Forest, lo: int, was: AllSlots, now: AllSlots)
    requires |was| == |now| == |f|
    ensures Advance(f, f, [], was, now) && TouchedFrom(f, f, lo)
  {
  }

  lemma ChildrenRead(f: Forest, g: Forest, b: int, s: StreamId)
    requires Shaped(f) && SameShape(f, g) && 0 <= b < |f| && s in f[b].ids
    ensures forall i :: 0 <= i < |f[b].children| ==> b < f[b].children[i] < |f| && s in g[f[b].children[i]].ids
  {
    forall i | 0 <= i < |f[b].children| ensures b < f[b].children[i] < |f| && s in g[f[b].children[i]].ids {
      var c := f[b].children[i];
      assert Reads(f[c], f[b]) && SameBut(f[c], g[c]);
    }
  }

  lemma TailReads(f: Forest, g: Forest, parent: int, cs: seq<int>, s: StreamId)
    requires SameShape(f, g) && cs != [] && -1 <= parent
    requires forall i :: 0 <= i < |cs| ==> parent < cs[i] < |f| && s in f[cs[i]].ids
    ensures s in g[cs[0]].ids
    ensures forall i :: 0 <= i < |cs[1..]| ==> parent < cs[1..][i] < |g| && s in g[cs[1..][i]].ids
  {
    forall i | 0 <= i < |cs| ensures s in g[cs[i]].ids { assert SameBut(f[cs[i]], g[cs[i]]); }
  }

  lemma {:induction false} ForwardAllAdvances(f: Forest, parent: int, cs: seq<int>, s: StreamId, t: Timestamp,
                                              was: AllSlots, now: AllSlots)
    requires -1 <= parent < |f| && Ready(f, parent + 1, s, t, was, now)
    requires forall i :: 0 <= i < |cs| ==> parent < cs[i] < |f| && s in f[cs[i]].ids
    ensures var (g, fs) := ForwardAll(f, parent, cs, s, t);
      && Advance(f, g, fs, was, now) && TouchedFrom(f, g, parent + 1) && Ready(g, parent + 1, s, t, was, now)
      && forall i :: 0 <= i < |cs| ==> g[cs[i]].slots == now[cs[i]]
    decreases |f| - parent, |cs|
  {
    assert |was| == |now| == |f|;
    if cs == [] {
      Idle(f, parent + 1, was, now);
    } else {
      ForwardAdvances(f, cs[0], s, t, was, now, parent + 1);
      var (g, fs) := Forward(f, cs[0], s, t);
      TailReads(f, g, parent, cs, s);
      ForwardAllAdvances(g, parent, cs[1..], s, t, was, now);
      var (h, gs) := ForwardAll(g, parent, cs[1..], s, t);
      NextMoves(f, g, h, fs, gs, parent, cs, s, t, was, now);
    }
  }

  lemma NextMoves(f: Forest, g: Forest, h: Forest, fs: seq<Firing>, gs: seq<Firing>, parent: int, cs: seq<int>,
                  s: StreamId, t: Timestamp, was: AllSlots, now: AllSlots)
    requires cs != [] && |f| == |g| == |h| == |now| && forall i :: 0 <= i < |cs| ==> parent < cs[i] < |f|
    requires -1 <= parent && s in g[cs[0]].ids && g[cs[0]].slots == now[cs[0]] && Moves(g, s, t, was, now)
    requires Advance(f, g, fs, was, now) && TouchedFrom(f, g, cs[0])
    requires Advance(g, h, gs, was, now) && TouchedFrom(g, h, parent + 1)
    requires forall i :: 0 <= i < |cs[1..]| ==> h[cs[1..][i]].slots == now[cs[1..][i]]
    ensures Advance(f, h, fs + gs, was, now) && TouchedFrom(f, h, parent + 1)
    ensures forall i :: 0 <= i < |cs| ==> h[cs[i]].slots == now[cs[i]]
  {
    AdvanceJoins(f, g, h, fs, gs, was, now);
    Stays(g, h, gs, s, t, was, now, cs[0]);
    forall c | Touched(f, h, c) ensures parent + 1 <= c { assert Touched(f, g, c) || Touched(g, h, c); }
    forall i | 0 <= i < |cs| ensures h[cs[i]].slots == now[cs[i]] {
      if i > 0 { assert cs[i] == cs[1..][i - 1]; }
    }
  }
}
