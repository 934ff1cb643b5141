/** How an operator attaches states, bundles and callbacks to its streams before it runs. */
module OperatorSetup {
  import opened Timestamps
  import opened OperatorEvents
  import opened Basics
  import opened Bundles
  import opened BundleTrees
  import opened LowWatermarks

  /** One call while the operator is set up; bundles and stateful streams are named by creation order. */
  datatype Attach =
    | AddState(stream: StreamId, stateId: Uuid)
    | NewBundle(stateful: seq<int>)
    | AddReadStream(bundle: int, k: int)
    | AddWriteStream(bundle: int)
    | AddBundleState(bundle: int, stateId: Uuid)
    | AddCallback(k: int)
    | AddWatermarkCallback(k: int, priority: Priority)
    | AddBundleCallback(bundle: int, priority: Priority)
    | AddStatelessCallback(stream: StreamId)
    | AddStatelessWatermarkCallback(stream: StreamId)

  const EMPTY_OPERATOR := Operator(map[], [], [])

  /** Callers hold references, so whatever they name exists. */
  predicate Exists(op: Operator, x: Attach) {
    match x
    case NewBundle(ks) => forall i :: 0 <= i < |ks| ==> 0 <= ks[i] < |op.stateful|
    case AddReadStream(b, k) => 0 <= b < |op.forest| && 0 <= k < |op.stateful|
    case AddWriteStream(b) => 0 <= b < |op.forest|
    case AddBundleState(b, _) => 0 <= b < |op.forest|
    case AddCallback(k) => 0 <= k < |op.stateful|
    case AddWatermarkCallback(k, _) => 0 <= k < |op.stateful|
    case AddBundleCallback(b, _) => 0 <= b < |op.forest|
    case _ => true
  }

  function Blank(ids: seq<StreamId>, readIds: set<Uuid>, writeIds: set<Uuid>): Bundle {
    Bundle(ids, seq(|ids|, _ => None), [], readIds, writeIds, [])
  }

  /** Stateful streams `ks`, in order, list bundle b among the ones they notify. */
  function Register(sts: seq<Stateful>, ks: seq<int>, b: int): (r: seq<Stateful>)
    requires forall i :: 0 <= i < |ks| ==> 0 <= ks[i] < |sts|
    ensures |r| == |sts|
    decreases |ks|
  {
    if ks == [] then sts
    else
      var k := ks[0];
      Register(sts[k := sts[k].(bundles := sts[k].bundles + [b])], ks[1..], b)
  }

  /** A new bundle on top of bundle b. */
  function Derive(f: Forest, b: int, child: Bundle): Forest
    requires 0 <= b < |f|
  {
    f[b := f[b].(children := f[b].children + [|f|])] + [child]
  }

  function IdsOf(sts: seq<Stateful>, ks: seq<int>): seq<StreamId>
    requires forall i :: 0 <= i < |ks| ==> 0 <= ks[i] < |sts|
  {
    seq(|ks|, i requires 0 <= i < |ks| => sts[ks[i]].id)
  }

  function Apply(op: Operator, x: Attach): Operator
    requires Exists(op, x)
  {
    var f := op.forest;
    match x
    case AddState(s, id) => op.(stateful := op.stateful + [Stateful(s, id, 0, [], [])])
    case NewBundle(ks) =>
      var readIds := set i | 0 <= i < |ks| :: op.stateful[ks[i]].stateId;
      op.(stateful := Register(op.stateful, ks, |f|), forest := f + [Blank(IdsOf(op.stateful, ks), readIds, {})])
    case AddReadStream(b, k) =>
      var st := op.stateful[k];
      op.(stateful := Register(op.stateful, [k], |f|),
          forest := Derive(f, b, Blank(f[b].ids + [st.id], f[b].readIds + {st.stateId}, f[b].writeIds)))
    case AddWriteStream(b) => op.(forest := Derive(f, b, Blank(f[b].ids, f[b].readIds, f[b].writeIds)))
    case AddBundleState(b, id) => op.(forest := Derive(f, b, Blank(f[b].ids, f[b].readIds, {id})))
    case AddCallback(k) =>
      op.(stateful := op.stateful[k := op.stateful[k].(callbacks := op.stateful[k].callbacks + 1)])
    case AddWatermarkCallback(k, p) =>
      op.(stateful := op.stateful[k := op.stateful[k].(priorities := op.stateful[k].priorities + [p])])
    case AddBundleCallback(b, p) => op.(forest := f[b := f[b].(callbacks := AddPriority(f[b].callbacks, p))])
    case AddStatelessCallback(s) =>
      var q := if s in op.plain then op.plain[s] else Plain(0, 0);
      op.(plain := op.plain[s := q.(callbacks := q.callbacks + 1)])
    case AddStatelessWatermarkCallback(s) =>
      var q := if s in op.plain then op.plain[s] else Plain(0, 0);
      op.(plain := op.plain[s := q.(watermarkCallbacks := q.watermarkCallbacks + 1)])
  }

  // ---------------------------------------------------------------------------------------------
  // What setting up keeps.

  ghost predicate Untouched(f: Forest) {
    forall b :: 0 <= b < |f| ==> f[b].slots == seq(|f[b].ids|, _ => None) && Sorted(f[b].callbacks)
  }

  lemma UntouchedTracks(f: Forest)
    requires Untouched(f)
    ensures Tracks(f, [])
  {
    forall b | 0 <= b < |f| ensures f[b].slots == Tracked([], f[b].ids) {}
  }

  /** Registering changes nothing but the lists of bundles, which gain b for the streams named. */
  lemma {:induction false} RegisterExact(sts: seq<Stateful>, ks: seq<int>, b: int)
    requires forall i :: 0 <= i < |ks| ==> 0 <= ks[i] < |sts|
    ensures var r := Register(sts, ks, b);
      && |r| == |sts|
      && (forall k :: 0 <= k < |sts| ==> r[k] == sts[k].(bundles := r[k].bundles) && sts[k].bundles <= r[k].bundles)
      && (forall k, i :: 0 <= k < |sts| && |sts[k].bundles| <= i < |r[k].bundles| ==> r[k].bundles[i] == b && k in ks)
      && (forall i :: 0 <= i < |ks| ==> |sts[ks[i]].bundles| < |r[ks[i]].bundles|)
    decreases |ks|
  {
    if ks != [] {
      var k := ks[0];
      var mid := sts[k := sts[k].(bundles := sts[k].bundles + [b])];
      RegisterExact(mid, ks[1..], b);
      var r := Register(mid, ks[1..], b);
      assert r == Register(sts, ks, b);
      assert forall j :: 0 <= j < |sts| ==> sts[j].bundles <= mid[j].bundles;
      forall j, i | 0 <= j < |sts| && |sts[j].bundles| <= i < |r[j].bundles| ensures r[j].bundles[i] == b && j in ks {
        if i < |mid[j].bundles| { assert j == k && mid[j].bundles[i] == b; } else { assert r[j].bundles[i] == b && j in ks[1..]; }
      }
      forall i | 0 <= i < |ks| ensures |sts[ks[i]].bundles| < |r[ks[i]].bundles| {
        if i > 0 { assert ks[i] == ks[1..][i - 1]; }
      }
    }
  }

  /** g is f with one more bundle, which the bundle at `parent` (if any) has as a child. */
  ghost predicate Grown(f: Forest, g: Forest, parent: int) {
    && |g| == |f| + 1 && parent < |f|
    && (forall b :: 0 <= b < |f| ==> g[b] == f[b].(children := g[b].children))
    && (forall b :: 0 <= b < |f| && b != parent ==> g[b].children == f[b].children)
    && (0 <= parent ==> g[parent].children == f[parent].children + [|f|] && Reads(g[|f|], f[parent]))
    && g[|f|].children == [] && |g[|f|].slots| == |g[|f|].ids|
  }

  lemma GrownShaped(f: Forest, g: Forest, parent: int)
    requires Shaped(f) && Grown(f, g, parent)
    ensures Shaped(g)
  {
    forall b, i | 0 <= b < |g| && 0 <= i < |g[b].children|
      ensures b < g[b].children[i] < |g| && Reads(g[g[b].children[i]], g[b])
    {
      assert g[b] == f[b].(children := g[b].children);
      if i < |f[b].children| {
        var c := f[b].children[i];
        assert g[b].children[i] == c && Reads(f[c], f[b]) && g[c] == f[c].(children := g[c].children);
      }
    }
  }

  lemma RegistersKept(op: Operator, g: Forest, parent: int, ks: seq<int>)
    requires WellBuilt(op) && Grown(op.forest, g, parent)
    requires forall i :: 0 <= i < |ks| ==> 0 <= ks[i] < |op.stateful| && op.stateful[ks[i]].id in g[|op.forest|].ids
    ensures RegistersRead(op.(stateful := Register(op.stateful, ks, |op.forest|), forest := g))
  {
    var f, r := op.forest, Register(op.stateful, ks, |op.forest|);
    RegisterExact(op.stateful, ks, |f|);
    forall k, i | 0 <= k < |r| && 0 <= i < |r[k].bundles|
      ensures 0 <= r[k].bundles[i] < |g| && r[k].id in g[r[k].bundles[i]].ids
    {
      assert r[k] == op.stateful[k].(bundles := r[k].bundles);
      if i < |op.stateful[k].bundles| {
        var b := op.stateful[k].bundles[i];
        assert r[k].bundles[i] == b && g[b] == f[b].(children := g[b].children);
      } else {
        assert r[k].bundles[i] == |f| && k in ks;
        var j :| 0 <= j < |ks| && ks[j] == k;
      }
    }
  }

  lemma RegisteredKept(op: Operator, g: Forest, ks: seq<int>, n: int, b: int, s: StreamId)
    requires forall i :: 0 <= i < |ks| ==> 0 <= ks[i] < |op.stateful|
    requires Registered(op, b, s)
    ensures Registered(op.(stateful := Register(op.stateful, ks, n), forest := g), b, s)
  {
    var r := Register(op.stateful, ks, n);
    RegisterExact(op.stateful, ks, n);
    var k, i :| 0 <= k < |op.stateful| && 0 <= i < |op.stateful[k].bundles| &&
      op.stateful[k].id == s && op.stateful[k].bundles[i] == b;
    assert r[k].id == s && r[k].bundles[i] == b;
  }

  lemma NowRegistered(op: Operator, g: Forest, ks: seq<int>, n: int, i: int)
    requires forall j :: 0 <= j < |ks| ==> 0 <= ks[j] < |op.stateful|
    requires 0 <= i < |ks|
    ensures Registered(op.(stateful := Register(op.stateful, ks, n), forest := g), n, op.stateful[ks[i]].id)
  {
    var r, k := Register(op.stateful, ks, n), ks[i];
    RegisterExact(op.stateful, ks, n);
    assert r[k].id == op.stateful[k].id && r[k].bundles[|op.stateful[k].bundles|] == n;
  }

  lemma InheritedKept(f: Forest, g: Forest, parent: int, b: int, s: StreamId)
    requires Grown(f, g, parent) && Inherited(f, b, s)
    ensures Inherited(g, b, s)
  {
    var p, i :| 0 <= p < |f| && p < b && 0 <= i < |f[p].children| && f[p].children[i] == b && s in f[p].ids;
    assert g[p] == f[p].(children := g[p].children) && g[p].children[i] == b;
  }

  lemma NowInherited(f: Forest, g: Forest, parent: int, s: StreamId)
    requires Grown(f, g, parent) && 0 <= parent && s in f[parent].ids
    ensures Inherited(g, |f|, s)
  {
    assert g[parent] == f[parent].(children := g[parent].children);
    assert g[parent].children[|f[parent].children|] == |f|;
  }

  lemma RootsKept(op: Operator, g: Forest, parent: int, ks: seq<int>, b: int, s: StreamId)
    requires WellBuilt(op) && Grown(op.forest, g, parent)
    requires forall i :: 0 <= i < |ks| ==> 0 <= ks[i] < |op.stateful|
    requires 0 <= b < |op.forest| && s in g[b].ids
    ensures Registered(op.(stateful := Register(op.stateful, ks, |op.forest|), forest := g), b, s) || Inherited(g, b, s)
  {
    hide Registered, Inherited, Register, Shaped;
    assert g[b] == op.forest[b].(children := g[b].children);
    if Registered(op, b, s) {
      RegisteredKept(op, g, ks, |op.forest|, b, s);
    } else {
      InheritedKept(op.forest, g, parent, b, s);
    }
  }

  /** Stream s comes from the parent bundle or from one of the stateful streams `ks`. */
  predicate Supplied(op: Operator, parent: int, ks: seq<int>, s: StreamId) {
    || (0 <= parent < |op.forest| && s in op.forest[parent].ids)
    || exists i :: 0 <= i < |ks| && 0 <= ks[i] < |op.stateful| && op.stateful[ks[i]].id == s
  }

  /** A bundle may be added when its streams are the ones it is registered with and the ones it inherits. */
  lemma GrowBuilt(op: Operator, g: Forest, parent: int, ks: seq<int>)
    requires WellBuilt(op) && Grown(op.forest, g, parent) && |g| == |op.forest| + 1 && parent < |op.forest|
    requires forall i :: 0 <= i < |ks| ==> 0 <= ks[i] < |op.stateful| && op.stateful[ks[i]].id in g[|op.forest|].ids
    requires forall s <- g[|op.forest|].ids :: Supplied(op, parent, ks, s)
    ensures WellBuilt(op.(stateful := Register(op.stateful, ks, |op.forest|), forest := g))
  {
    hide Registered, Inherited, Register, Shaped, Grown, RegistersRead, AllRooted, Supplied;
    var f, r := op.forest, Register(op.stateful, ks, |op.forest|);
    GrownShaped(f, g, parent);
    RegistersKept(op, g, parent, ks);
    GrowRooted(op, g, parent, ks);
  }

  lemma GrowRooted(op: Operator, g: Forest, parent: int, ks: seq<int>)
    requires WellBuilt(op) && Grown(op.forest, g, parent) && |g| == |op.forest| + 1 && parent < |op.forest|
    requires forall i :: 0 <= i < |ks| ==> 0 <= ks[i] < |op.stateful|
    requires forall s <- g[|op.forest|].ids :: Supplied(op, parent, ks, s)
    ensures AllRooted(op.(stateful := Register(op.stateful, ks, |op.forest|), forest := g))
  {
    hide Registered, Inherited, Register, Shaped, Grown, RegistersRead, WellBuilt, Supplied;
    forall b, s | 0 <= b < |g| && s in g[b].ids
      ensures Registered(op.(stateful := Register(op.stateful, ks, |op.forest|), forest := g), b, s) || Inherited(g, b, s)
    {
      RootedAt(op, g, parent, ks, b, s);
    }
  }

  lemma RootedAt(op: Operator, g: Forest, parent: int, ks: seq<int>, b: int, s: StreamId)
    requires WellBuilt(op) && Grown(op.forest, g, parent) && |g| == |op.forest| + 1
    requires forall i :: 0 <= i < |ks| ==> 0 <= ks[i] < |op.stateful|
    requires 0 <= b < |g| && s in g[b].ids && (b == |op.forest| ==> Supplied(op, parent, ks, s))
    ensures Registered(op.(stateful := Register(op.stateful, ks, |op.forest|), forest := g), b, s) || Inherited(g, b, s)
  {
    hide Registered, Inherited, Register, Grown, WellBuilt, Supplied;
    if b < |op.forest| {
      RootsKept(op, g, parent, ks, b, s);
    } else {
      NewRooted(op, g, parent, ks, b, s);
    }
  }

  lemma NewRooted(op: Operator, g: Forest, parent: int, ks: seq<int>, b: int, s: StreamId)
    requires Grown(op.forest, g, parent) && |op.forest| <= b < |g|
    requires forall i :: 0 <= i < |ks| ==> 0 <= ks[i] < |op.stateful|
    requires Supplied(op, parent, ks, s)
    ensures Registered(op.(stateful := Register(op.stateful, ks, |op.forest|), forest := g), b, s) || Inherited(g, b, s)
  {
    hide Registered, Inherited, Register;
    if 0 <= parent && s in op.forest[parent].ids {
      NowInherited(op.forest, g, parent, s);
    } else {
      var i :| 0 <= i < |ks| && op.stateful[ks[i]].id == s;
      NowRegistered(op, g, ks, |op.forest|, i);
    }
  }

  lemma BlankGrown(f: Forest, b: int, child: Bundle)
    requires 0 <= b < |f| && Reads(child, f[b]) && child.children == [] && |child.slots| == |child.ids|
    ensures Grown(f, Derive(f, b, child), b)
  {
  }

  lemma StatefulKept(op: Operator, k: int, st: Stateful)
    requires WellBuilt(op) && 0 <= k < |op.stateful|
    requires st.id == op.stateful[k].id && st.bundles == op.stateful[k].bundles
    ensures WellBuilt(op.(stateful := op.stateful[k := st]))
  {
    var op' := op.(stateful := op.stateful[k := st]);
    forall b, s | Registered(op, b, s) ensures Registered(op', b, s) {
      var j, i :| 0 <= j < |op.stateful| && 0 <= i < |op.stateful[j].bundles| &&
        op.stateful[j].id == s && op.stateful[j].bundles[i] == b;
      assert op'.stateful[j].id == s && op'.stateful[j].bundles[i] == b;
    }
  }

  /** Setting up keeps every stream of every bundle connected, and every slot empty. */
  lemma ApplyKeeps(op: Operator, x: Attach)
    requires WellBuilt(op) && Untouched(op.forest) && Exists(op, x)
    ensures WellBuilt(Apply(op, x)) && Untouched(Apply(op, x).forest)
  {
    hide Registered, Inherited, Register, Shaped, RegistersRead, AllRooted, AddPriority;
    ApplyUntouched(op, x);
    ApplyBuilt(op, x);
  }

  lemma ApplyUntouched(op: Operator, x: Attach)
    requires Untouched(op.forest) && Exists(op, x)
    ensures Untouched(Apply(op, x).forest)
  {
    hide Register, AddPriority;
    if x.AddBundleCallback? { AddPrioritySorts(op.forest[x.bundle].callbacks, x.priority); }
  }

  lemma ApplyBuilt(op: Operator, x: Attach)
    requires WellBuilt(op) && Exists(op, x)
    ensures WellBuilt(Apply(op, x))
  {
    hide Registered, Inherited, Register, Shaped, RegistersRead, AllRooted, AddPriority, Grown;
    var f := op.forest;
    match x
    case AddState(s, id) => StateKept(op, Stateful(s, id, 0, [], []));
    case NewBundle(ks) => BundleKept(op, ks, Apply(op, x).forest);
    case AddReadStream(b, k) =>
      DeriveKept(op, b, [k], Blank(f[b].ids + [op.stateful[k].id], f[b].readIds + {op.stateful[k].stateId}, f[b].writeIds));
    case AddWriteStream(b) =>
      RegisterNone(op.stateful, |f|);
      DeriveKept(op, b, [], Blank(f[b].ids, f[b].readIds, f[b].writeIds));
    case AddBundleState(b, id) =>
      RegisterNone(op.stateful, |f|);
      DeriveKept(op, b, [], Blank(f[b].ids, f[b].readIds, {id}));
    case AddCallback(k) => StatefulKept(op, k, op.stateful[k].(callbacks := op.stateful[k].callbacks + 1));
    case AddWatermarkCallback(k, p) => StatefulKept(op, k, op.stateful[k].(priorities := op.stateful[k].priorities + [p]));
    case AddBundleCallback(b, p) => CallbacksKept(op, b, AddPriority(f[b].callbacks, p));
    case AddStatelessCallback(s) => PlainKept(op, Apply(op, x).plain);
    case AddStatelessWatermarkCallback(s) => PlainKept(op, Apply(op, x).plain);
  }

  lemma RegisterNone(sts: seq<Stateful>, b: int)
    ensures Register(sts, [], b) == sts
  {
  }

  lemma PlainKept(op: Operator, plain: map<StreamId, Plain>)
    requires WellBuilt(op)
    ensures WellBuilt(op.(plain := plain))
  {
    var op' := op.(plain := plain);
    forall b, s | Registered(op, b, s) ensures Registered(op', b, s) {
      var j, i :| 0 <= j < |op.stateful| && 0 <= i < |op.stateful[j].bundles| &&
        op.stateful[j].id == s && op.stateful[j].bundles[i] == b;
      assert op'.stateful[j].bundles[i] == b;
    }
  }

  lemma StateKept(op: Operator, st: Stateful)
    requires WellBuilt(op) && st.bundles == []
    ensures WellBuilt(op.(stateful := op.stateful + [st]))
  {
    var op' := op.(stateful := op.stateful + [st]);
    forall b, s | Registered(op, b, s) ensures Registered(op', b, s) {
      var j, i :| 0 <= j < |op.stateful| && 0 <= i < |op.stateful[j].bundles| &&
        op.stateful[j].id == s && op.stateful[j].bundles[i] == b;
      assert op'.stateful[j].id == s && op'.stateful[j].bundles[i] == b;
    }
  }

  lemma CallbacksKept(op: Operator, b: int, callbacks: seq<Priority>)
    requires WellBuilt(op) && 0 <= b < |op.forest|
    ensures WellBuilt(op.(forest := op.forest[b := op.forest[b].(callbacks := callbacks)]))
  {
    var f := op.forest;
    var g := f[b := f[b].(callbacks := callbacks)];
    var op' := op.(forest := g);
    forall c, s | Registered(op, c, s) ensures Registered(op', c, s) {
      var j, i :| 0 <= j < |op.stateful| && 0 <= i < |op.stateful[j].bundles| &&
        op.stateful[j].id == s && op.stateful[j].bundles[i] == c;
      assert op'.stateful[j].bundles[i] == c;
    }
    forall c, s | Inherited(f, c, s) ensures Inherited(g, c, s) {
      var p, i :| 0 <= p < |f| && p < c && 0 <= i < |f[p].children| && f[p].children[i] == c && s in f[p].ids;
      assert g[p].children[i] == c && s in g[p].ids;
    }
    forall c, i | 0 <= c < |g| && 0 <= i < |g[c].children|
      ensures c < g[c].children[i] < |g| && Reads(g[g[c].children[i]], g[c])
    {
      assert Reads(f[f[c].children[i]], f[c]);
    }
  }

  lemma BundleKept(op: Operator, ks: seq<int>, g: Forest)
    requires WellBuilt(op) && (forall i :: 0 <= i < |ks| ==> 0 <= ks[i] < |op.stateful|)
    requires exists readIds :: g == op.forest + [Blank(IdsOf(op.stateful, ks), readIds, {})]
    ensures WellBuilt(op.(stateful := Register(op.stateful, ks, |op.forest|), forest := g))
  {
    hide WellBuilt, Register;
    var ids := IdsOf(op.stateful, ks);
    forall i | 0 <= i < |ks| ensures op.stateful[ks[i]].id in g[|op.forest|].ids { assert ids[i] in ids; }
    GrowBuilt(op, g, -1, ks);
  }

  lemma DeriveKept(op: Operator, b: int, ks: seq<int>, child: Bundle)
    requires WellBuilt(op) && 0 <= b < |op.forest| && (forall i :: 0 <= i < |ks| ==> 0 <= ks[i] < |op.stateful|)
    requires child.ids == op.forest[b].ids + IdsOf(op.stateful, ks) && child.children == [] && |child.slots| == |child.ids|
    ensures WellBuilt(op.(stateful := Register(op.stateful, ks, |op.forest|), forest := Derive(op.forest, b, child)))
  {
    hide WellBuilt, Register;
    BlankGrown(op.forest, b, child);
    var ids := IdsOf(op.stateful, ks);
    forall i | 0 <= i < |ks| ensures op.stateful[ks[i]].id in child.ids { assert ids[i] in ids; }
    GrowBuilt(op, Derive(op.forest, b, child), b, ks);
  }

  // ---------------------------------------------------------------------------------------------
  // What bundles read.

  /** Some stateful stream on stream s has state r. */
  predicate HasState(sts: seq<Stateful>, s: StreamId, r: Uuid) {
    exists k :: 0 <= k < |sts| && sts[k].id == s && sts[k].stateId == r
  }

  predicate StreamRead(sts: seq<Stateful>, b: Bundle, s: StreamId) { exists r :: r in b.readIds && HasState(sts, s, r) }

  predicate StateRead(sts: seq<Stateful>, b: Bundle, r: Uuid) { exists s :: s in b.ids && HasState(sts, s, r) }

  predicate ReadsOf(sts: seq<Stateful>, b: Bundle) {
    && (forall s <- b.ids :: StreamRead(sts, b, s))
    && (forall r <- b.readIds :: StateRead(sts, b, r))
  }

  /** A bundle reads, for each of its streams, the state of a stateful stream on it, and no other state. */
  predicate Access(op: Operator) { forall b :: 0 <= b < |op.forest| ==> ReadsOf(op.stateful, op.forest[b]) }

  ghost predicate Extends(sts: seq<Stateful>, sts': seq<Stateful>) {
    |sts| <= |sts'| && forall k :: 0 <= k < |sts| ==> sts'[k].id == sts[k].id && sts'[k].stateId == sts[k].stateId
  }

  lemma HasStateKept(sts: seq<Stateful>, sts': seq<Stateful>, s: StreamId, r: Uuid)
    requires HasState(sts, s, r) && Extends(sts, sts')
    ensures HasState(sts', s, r)
  {
    var k :| 0 <= k < |sts| && sts[k].id == s && sts[k].stateId == r;
    assert sts'[k].id == s && sts'[k].stateId == r;
  }

  lemma StreamReadKept(sts: seq<Stateful>, sts': seq<Stateful>, b: Bundle, b': Bundle, s: StreamId)
    requires StreamRead(sts, b, s) && Extends(sts, sts') && b.readIds <= b'.readIds
    ensures StreamRead(sts', b', s)
  {
    var r :| r in b.readIds && HasState(sts, s, r);
    HasStateKept(sts, sts', s, r);
  }

  lemma StateReadKept(sts: seq<Stateful>, sts': seq<Stateful>, b: Bundle, b': Bundle, r: Uuid)
    requires StateRead(sts, b, r) && Extends(sts, sts') && forall s <- b.ids :: s in b'.ids
    ensures StateRead(sts', b', r)
  {
    var s :| s in b.ids && HasState(sts, s, r);
    HasStateKept(sts, sts', s, r);
  }

  lemma ReadsKept(sts: seq<Stateful>, sts': seq<Stateful>, b: Bundle, b': Bundle)
    requires ReadsOf(sts, b) && Extends(sts, sts') && b'.ids == b.ids && b'.readIds == b.readIds
    ensures ReadsOf(sts', b')
  {
    hide StreamRead, StateRead, Extends;
    forall s <- b'.ids ensures StreamRead(sts', b', s) { StreamReadKept(sts, sts', b, b', s); }
    forall r <- b'.readIds ensures StateRead(sts', b', r) { StateReadKept(sts, sts', b, b', r); }
  }

  /** Setting up keeps what bundles read in step with the streams they read. */
  lemma ApplyAccess(op: Operator, x: Attach)
    requires Access(op) && Exists(op, x)
    ensures Access(Apply(op, x))
  {
    hide Apply, ReadsOf, Extends;
    var op' := Apply(op, x);
    var f, g := op.forest, op'.forest;
    ApplyExtends(op, x);
    forall b | 0 <= b < |g| ensures ReadsOf(op'.stateful, g[b]) {
      if b < |f| {
        ReadsKept(op.stateful, op'.stateful, f[b], g[b]);
      } else {
        NewReads(op, x);
      }
    }
  }

  lemma ApplyExtends(op: Operator, x: Attach)
    requires Exists(op, x)
    ensures var op' := Apply(op, x);
      && Extends(op.stateful, op'.stateful) && |op.forest| <= |op'.forest| <= |op.forest| + 1
      && forall b :: 0 <= b < |op.forest| ==> op'.forest[b].ids == op.forest[b].ids && op'.forest[b].readIds == op.forest[b].readIds
  {
    hide AddPriority;
    match x
    case NewBundle(ks) => RegisterExact(op.stateful, ks, |op.forest|);
    case AddReadStream(b, k) => RegisterExact(op.stateful, [k], |op.forest|);
    case _ =>
  }

  lemma NewReads(op: Operator, x: Attach)
    requires Access(op) && Exists(op, x) && Extends(op.stateful, Apply(op, x).stateful) && |Apply(op, x).forest| == |op.forest| + 1
    ensures ReadsOf(Apply(op, x).stateful, Apply(op, x).forest[|op.forest|])
  {
    hide AddPriority, Register, ReadsOf, Extends;
    var sts, sts', f := op.stateful, Apply(op, x).stateful, op.forest;
    var b := Apply(op, x).forest[|f|];
    match x
    case NewBundle(ks) => BundleReads(sts, sts', ks, b);
    case AddReadStream(p, k) => OneMoreRead(sts, sts', f[p], k, b);
    case AddWriteStream(p) => ReadsKept(sts, sts', f[p], b);
    case AddBundleState(p, _) => ReadsKept(sts, sts', f[p], b);
    case _ =>
  }

  lemma StillHas(sts: seq<Stateful>, sts': seq<Stateful>, k: int)
    requires Extends(sts, sts') && 0 <= k < |sts|
    ensures HasState(sts', sts[k].id, sts[k].stateId)
  {
    assert sts'[k].id == sts[k].id && sts'[k].stateId == sts[k].stateId;
  }

  lemma BundleReads(sts: seq<Stateful>, sts': seq<Stateful>, ks: seq<int>, b: Bundle)
    requires Extends(sts, sts') && forall i :: 0 <= i < |ks| ==> 0 <= ks[i] < |sts|
    requires b.ids == IdsOf(sts, ks) && b.readIds == set i | 0 <= i < |ks| :: sts[ks[i]].stateId
    ensures ReadsOf(sts', b)
  {
    hide Extends, HasState;
    forall i | 0 <= i < |ks|
      ensures HasState(sts', b.ids[i], sts[ks[i]].stateId) && b.ids[i] in b.ids && sts[ks[i]].stateId in b.readIds
    {
      StillHas(sts, sts', ks[i]);
    }
    forall s <- b.ids ensures StreamRead(sts', b, s) {
      var i :| 0 <= i < |ks| && b.ids[i] == s;
      assert HasState(sts', s, sts[ks[i]].stateId);
    }
    forall r <- b.readIds ensures StateRead(sts', b, r) {
      var i :| 0 <= i < |ks| && sts[ks[i]].stateId == r;
      assert HasState(sts', b.ids[i], r);
    }
  }

  lemma OneMoreRead(sts: seq<Stateful>, sts': seq<Stateful>, parent: Bundle, k: int, b: Bundle)
    requires ReadsOf(sts, parent) && Extends(sts, sts') && 0 <= k < |sts|
    requires b.ids == parent.ids + [sts[k].id] && b.readIds == parent.readIds + {sts[k].stateId}
    ensures ReadsOf(sts', b)
  {
    hide StreamRead, StateRead, Extends;
    NewRead(sts, sts', k, b);
    forall s <- b.ids ensures StreamRead(sts', b, s) {
      if s in parent.ids { StreamReadKept(sts, sts', parent, b, s); }
    }
    forall r <- b.readIds ensures StateRead(sts', b, r) {
      if r in parent.readIds { StateReadKept(sts, sts', parent, b, r); }
    }
  }

  lemma NewRead(sts: seq<Stateful>, sts': seq<Stateful>, k: int, b: Bundle)
    requires Extends(sts, sts') && 0 <= k < |sts| && sts[k].id in b.ids && sts[k].stateId in b.readIds
    ensures StreamRead(sts', b, sts[k].id) && StateRead(sts', b, sts[k].stateId)
  {
    StillHas(sts, sts', k);
  }

  function Built(xs: seq<Attach>): (op: Operator)
    requires Buildable(xs)
    ensures WellBuilt(op) && Untouched(op.forest)
    decreases |xs|, 1
  {
    if xs == [] then EMPTY_OPERATOR
    else
      var before := Built(xs[..|xs| - 1]);
      ApplyKeeps(before, xs[|xs| - 1]);
      Apply(before, xs[|xs| - 1])
  }

  predicate Buildable(xs: seq<Attach>)
    decreases |xs|, 0
  {
    xs == [] || (Buildable(xs[..|xs| - 1]) && Exists(Built(xs[..|xs| - 1]), xs[|xs| - 1]))
  }

  /** However an operator is set up, its bundles start out tracking the empty history. */
  lemma {:induction false} SetUp(xs: seq<Attach>)
    requires Buildable(xs)
    ensures WellBuilt(Built(xs)) && Untouched(Built(xs).forest) && Access(Built(xs)) && Tracks(Built(xs).forest, [])
  {
    if xs != [] {
      SetUp(xs[..|xs| - 1]);
      ApplyAccess(Built(xs[..|xs| - 1]), xs[|xs| - 1]);
    }
    UntouchedTracks(Built(xs).forest);
  }
}
