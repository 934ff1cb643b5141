/** What an operator is, from the calls that set it up alone. */
module SetUps {
  import opened OperatorEvents
  import opened Basics
  import opened Bundles
  import opened BundleTrees
  import opened LowWatermarks
  import opened OperatorSetup

  // ---------------------------------------------------------------------------------------------
  // The calls, read off the sequence.

  predicate MakesBundle(x: Attach) { x.NewBundle? || x.AddReadStream? || x.AddWriteStream? || x.AddBundleState? }

  /** The calls that made the stateful streams, in order. */
  function States(xs: seq<Attach>): seq<Attach> {
    if xs == [] then [] else States(xs[..|xs| - 1]) + if xs[|xs| - 1].AddState? then [xs[|xs| - 1]] else []
  }

  /** The calls that made the bundles, in order. */
  function Makers(xs: seq<Attach>): seq<Attach> {
    if xs == [] then [] else Makers(xs[..|xs| - 1]) + if MakesBundle(xs[|xs| - 1]) then [xs[|xs| - 1]] else []
  }

  /** The priorities of the watermark callbacks of stateful stream k, in order. */
  function PrioritiesOf(xs: seq<Attach>, k: int): seq<Priority> {
    if xs == [] then []
    else
      var last := xs[|xs| - 1];
      PrioritiesOf(xs[..|xs| - 1], k) + if last.AddWatermarkCallback? && last.k == k then [last.priority] else []
  }

  /** How often a call was made. */
  function Times(xs: seq<Attach>, x: Attach): nat { multiset(xs)[x] }

  // ---------------------------------------------------------------------------------------------
  // What the operator must be.

  ghost predicate PlainAsCalled(op: Operator, xs: seq<Attach>) {
    forall s :: var q := if s in op.plain then op.plain[s] else Plain(0, 0);
      && q.callbacks == Times(xs, AddStatelessCallback(s))
      && q.watermarkCallbacks == Times(xs, AddStatelessWatermarkCallback(s))
  }

  ghost predicate StateAsCalled(st: Stateful, xs: seq<Attach>, k: int, made: Attach) {
    && made == AddState(st.id, st.stateId)
    && st.callbacks == Times(xs, AddCallback(k))
    && st.priorities == PrioritiesOf(xs, k)
  }

  ghost predicate StatesAsCalled(op: Operator, xs: seq<Attach>) {
    |op.stateful| == |States(xs)| && forall k :: 0 <= k < |op.stateful| ==> StateAsCalled(op.stateful[k], xs, k, States(xs)[k])
  }

  /** A bundle's streams and access sets, from the call that made it and the bundle it was made from. */
  ghost predicate MadeBy(sts: seq<Stateful>, f: Forest, b: Bundle, x: Attach) {
    match x
    case NewBundle(ks) =>
      && |b.ids| == |ks| && (forall i :: 0 <= i < |ks| ==> 0 <= ks[i] < |sts| && b.ids[i] == sts[ks[i]].id)
      && (forall r :: r in b.readIds <==> exists i :: 0 <= i < |ks| && sts[ks[i]].stateId == r)
      && b.writeIds == {}
    case AddReadStream(p, k) =>
      && 0 <= p < |f| && 0 <= k < |sts|
      && b.ids == f[p].ids + [sts[k].id] && b.readIds == f[p].readIds + {sts[k].stateId} && b.writeIds == f[p].writeIds
    case AddWriteStream(p) =>
      0 <= p < |f| && b.ids == f[p].ids && b.readIds == f[p].readIds && b.writeIds == f[p].writeIds
    case AddBundleState(p, id) =>
      0 <= p < |f| && b.ids == f[p].ids && b.readIds == f[p].readIds && b.writeIds == {id}
    case _ => false
  }

  ghost predicate CallbacksAsCalled(b: Bundle, xs: seq<Attach>, i: int) {
    Sorted(b.callbacks) && forall p :: multiset(b.callbacks)[p] == Times(xs, AddBundleCallback(i, p))
  }

  ghost predicate BundlesAsCalled(op: Operator, xs: seq<Attach>) {
    && |op.forest| == |Makers(xs)|
    && forall b :: 0 <= b < |op.forest| ==>
      MadeBy(op.stateful, op.forest[..b], op.forest[b], Makers(xs)[b]) && CallbacksAsCalled(op.forest[b], xs, b)
  }

  /** Bundle c was built on top of bundle p. */
  predicate BuiltOn(x: Attach, p: int) { (x.AddReadStream? || x.AddWriteStream? || x.AddBundleState?) && x.bundle == p }

  ghost predicate ChildrenAsCalled(op: Operator, xs: seq<Attach>) {
    forall p :: 0 <= p < |op.forest| ==> op.forest[p].children == ChildrenOf(Makers(xs), p)
  }

  function ChildrenOf(ms: seq<Attach>, p: int): seq<int> {
    if ms == [] then [] else ChildrenOf(ms[..|ms| - 1], p) + if BuiltOn(ms[|ms| - 1], p) then [|ms| - 1] else []
  }

  /** How many times making a bundle registers it with stateful stream k. */
  function Registrations(x: Attach, k: int): nat {
    match x
    case NewBundle(ks) => multiset(ks)[k]
    case AddReadStream(_, j) => if j == k then 1 else 0
    case _ => 0
  }

  function RegisteredWith(ms: seq<Attach>, k: int): seq<int> {
    if ms == [] then []
    else RegisteredWith(ms[..|ms| - 1], k) + seq(Registrations(ms[|ms| - 1], k), _ => |ms| - 1)
  }

  ghost predicate RegistersAsCalled(op: Operator, xs: seq<Attach>) {
    forall k :: 0 <= k < |op.stateful| ==> op.stateful[k].bundles == RegisteredWith(Makers(xs), k)
  }

  ghost predicate AsCalled(op: Operator, xs: seq<Attach>) {
    PlainAsCalled(op, xs) && StatesAsCalled(op, xs) && BundlesAsCalled(op, xs) && ChildrenAsCalled(op, xs) && RegistersAsCalled(op, xs)
  }

  /** Calls name what exists, so nothing that does not exist yet has been called on. */
  ghost predicate NotYet(op: Operator, xs: seq<Attach>) {
    && (forall k :: k >= |op.stateful| ==> Times(xs, AddCallback(k)) == 0 && PrioritiesOf(xs, k) == [] && RegisteredWith(Makers(xs), k) == [])
    && (forall b, p: Priority :: b >= |op.forest| ==> Times(xs, AddBundleCallback(b, p)) == 0)
    && (forall b :: b >= |op.forest| ==> ChildrenOf(Makers(xs), b) == [])
  }

  // ---------------------------------------------------------------------------------------------
  // One more call.

  lemma OneMoreTime(xs: seq<Attach>, x: Attach, y: Attach)
    ensures Times(xs + [x], y) == Times(xs, y) + if x == y then 1 else 0
  {
  }

  lemma Last(xs: seq<Attach>, x: Attach)
    ensures States(xs + [x]) == States(xs) + (if x.AddState? then [x] else [])
    ensures Makers(xs + [x]) == Makers(xs) + (if MakesBundle(x) then [x] else [])
    ensures forall k :: PrioritiesOf(xs + [x], k) == PrioritiesOf(xs, k) + (if x.AddWatermarkCallback? && x.k == k then [x.priority] else [])
  {
    assert (xs + [x])[..|xs + [x]| - 1] == xs;
  }

  lemma LastMaker(ms: seq<Attach>, x: Attach)
    ensures forall p :: ChildrenOf(ms + [x], p) == ChildrenOf(ms, p) + (if BuiltOn(x, p) then [|ms|] else [])
    ensures forall k :: RegisteredWith(ms + [x], k) == RegisteredWith(ms, k) + seq(Registrations(x, k), _ => |ms|)
  {
    assert (ms + [x])[..|ms + [x]| - 1] == ms;
  }

  lemma {:induction false} RegisterTimes(sts: seq<Stateful>, ks: seq<int>, b: int, k: int)
    requires (forall i :: 0 <= i < |ks| ==> 0 <= ks[i] < |sts|) && 0 <= k < |sts|
    ensures Register(sts, ks, b)[k] == sts[k].(bundles := sts[k].bundles + seq(multiset(ks)[k], _ => b))
    decreases |ks|
  {
    if ks == [] {
      assert sts[k].bundles + seq(multiset(ks)[k], _ => b) == sts[k].bundles;
    } else {
      var mid := sts[ks[0] := sts[ks[0]].(bundles := sts[ks[0]].bundles + [b])];
      RegisterTimes(mid, ks[1..], b, k);
      assert ks == [ks[0]] + ks[1..];
      assert multiset(ks)[k] == multiset(ks[1..])[k] + if ks[0] == k then 1 else 0;
      var n := multiset(ks[1..])[k];
      if ks[0] == k { assert [b] + seq(n, _ => b) == seq(n + 1, _ => b); }
    }
  }

  lemma PlainNext(op: Operator, xs: seq<Attach>, x: Attach)
    requires PlainAsCalled(op, xs) && Exists(op, x)
    ensures PlainAsCalled(Apply(op, x), xs + [x])
  {
    hide Times, AddPriority, Register, Derive, IdsOf;
    var op' := Apply(op, x);
    forall s ensures var q := if s in op'.plain then op'.plain[s] else Plain(0, 0);
      && q.callbacks == Times(xs + [x], AddStatelessCallback(s))
      && q.watermarkCallbacks == Times(xs + [x], AddStatelessWatermarkCallback(s))
    {
      OneMoreTime(xs, x, AddStatelessCallback(s));
      OneMoreTime(xs, x, AddStatelessWatermarkCallback(s));
    }
  }

  lemma StatesNext(op: Operator, xs: seq<Attach>, x: Attach)
    requires StatesAsCalled(op, xs) && NotYet(op, xs) && Exists(op, x)
    ensures StatesAsCalled(Apply(op, x), xs + [x])
  {
    hide Times, AddPriority, Register, Derive, IdsOf, States, PrioritiesOf, RegisteredWith, ChildrenOf, Makers;
    var op' := Apply(op, x);
    Last(xs, x);
    SameStates(op, x);
    forall k | 0 <= k < |op'.stateful| ensures StateAsCalled(op'.stateful[k], xs + [x], k, States(xs + [x])[k]) {
      OneMoreTime(xs, x, AddCallback(k));
      if k < |op.stateful| { assert StateAsCalled(op.stateful[k], xs, k, States(xs)[k]); }
    }
  }

  /** Making bundles leaves the streams' callbacks alone. */
  lemma SameStates(op: Operator, x: Attach)
    requires Exists(op, x)
    ensures var sts, sts' := op.stateful, Apply(op, x).stateful;
      && |sts'| == |sts| + (if x.AddState? then 1 else 0)
      && (forall k :: 0 <= k < |sts| ==> sts'[k].id == sts[k].id && sts'[k].stateId == sts[k].stateId)
      && (forall k :: 0 <= k < |sts| ==> sts'[k].callbacks == sts[k].callbacks + if x == AddCallback(k) then 1 else 0)
      && (forall k :: 0 <= k < |sts| ==>
            sts'[k].priorities == sts[k].priorities + if x.AddWatermarkCallback? && x.k == k then [x.priority] else [])
      && (x.AddState? ==> sts'[|sts|] == Stateful(x.stream, x.stateId, 0, [], []))
  {
    hide AddPriority, Derive;
    match x
    case NewBundle(ks) => RegisterExact(op.stateful, ks, |op.forest|);
    case AddReadStream(_, k) => RegisterExact(op.stateful, [k], |op.forest|);
    case _ =>
  }

  // Bundles.

  /** The forest gets one more bundle if the call makes one, and otherwise at most one more callback. */
  lemma ForestNext(op: Operator, x: Attach)
    requires Exists(op, x)
    ensures var f, g := op.forest, Apply(op, x).forest;
      && |g| == |f| + (if MakesBundle(x) then 1 else 0)
      && (forall b :: 0 <= b < |f| ==> g[b].ids == f[b].ids && g[b].readIds == f[b].readIds && g[b].writeIds == f[b].writeIds)
      && (forall b :: 0 <= b < |f| ==> g[b].children == f[b].children + if BuiltOn(x, b) then [|f|] else [])
      && (forall b :: 0 <= b < |f| ==>
            g[b].callbacks == if x.AddBundleCallback? && x.bundle == b then AddPriority(f[b].callbacks, x.priority) else f[b].callbacks)
      && (MakesBundle(x) ==> MadeBy(op.stateful, f, g[|f|], x) && g[|f|].callbacks == [] && g[|f|].children == [])
  {
    hide Register, AddPriority;
  }

  lemma MadeStill(sts: seq<Stateful>, f: Forest, b: Bundle, x: Attach, sts': seq<Stateful>, f': Forest, b': Bundle)
    requires MadeBy(sts, f, b, x) && |f'| == |f|
    requires |sts| <= |sts'| && forall k :: 0 <= k < |sts| ==> sts'[k].id == sts[k].id && sts'[k].stateId == sts[k].stateId
    requires forall c :: 0 <= c < |f| ==> f'[c].ids == f[c].ids && f'[c].readIds == f[c].readIds && f'[c].writeIds == f[c].writeIds
    requires b'.ids == b.ids && b'.readIds == b.readIds && b'.writeIds == b.writeIds
    ensures MadeBy(sts', f', b', x)
  {
    if x.NewBundle? {
      forall r ensures r in b'.readIds <==> exists i :: 0 <= i < |x.stateful| && sts'[x.stateful[i]].stateId == r {
        if i :| 0 <= i < |x.stateful| && sts[x.stateful[i]].stateId == r { assert sts'[x.stateful[i]].stateId == r; }
        if i :| 0 <= i < |x.stateful| && sts'[x.stateful[i]].stateId == r { assert sts[x.stateful[i]].stateId == r; }
      }
    }
  }

  lemma CallbacksNext(b: Bundle, xs: seq<Attach>, i: int, x: Attach, b': Bundle)
    requires CallbacksAsCalled(b, xs, i)
    requires b'.callbacks == if x.AddBundleCallback? && x.bundle == i then AddPriority(b.callbacks, x.priority) else b.callbacks
    ensures CallbacksAsCalled(b', xs + [x], i)
  {
    hide Times, AddPriority;
    forall p ensures multiset(b'.callbacks)[p] == Times(xs + [x], AddBundleCallback(i, p)) {
      OneMoreTime(xs, x, AddBundleCallback(i, p));
      if x.AddBundleCallback? { AddPriorityKeeps(b.callbacks, x.priority); }
    }
    if x.AddBundleCallback? { AddPrioritySorts(b.callbacks, x.priority); }
  }

  lemma BundlesNext(op: Operator, xs: seq<Attach>, x: Attach)
    requires BundlesAsCalled(op, xs) && NotYet(op, xs) && Exists(op, x)
    ensures BundlesAsCalled(Apply(op, x), xs + [x])
  {
    hide Times, Apply, MadeBy, CallbacksAsCalled, Makers, RegisteredWith, ChildrenOf, PrioritiesOf;
    var op' := Apply(op, x);
    Last(xs, x);
    SameStates(op, x);
    ForestNext(op, x);
    forall b | 0 <= b < |op'.forest|
      ensures MadeBy(op'.stateful, op'.forest[..b], op'.forest[b], Makers(xs + [x])[b])
      ensures CallbacksAsCalled(op'.forest[b], xs + [x], b)
    {
      if b < |op.forest| {
        MadeStill(op.stateful, op.forest[..b], op.forest[b], Makers(xs)[b], op'.stateful, op'.forest[..b], op'.forest[b]);
        CallbacksNext(op.forest[b], xs, b, x, op'.forest[b]);
      } else {
        MadeStill(op.stateful, op.forest, op'.forest[b], x, op'.stateful, op'.forest[..b], op'.forest[b]);
        NoCallbacksYet(op, xs, x, op'.forest[b], b);
      }
    }
  }

  lemma NoCallbacksYet(op: Operator, xs: seq<Attach>, x: Attach, b: Bundle, i: int)
    requires NotYet(op, xs) && MakesBundle(x) && i == |op.forest| && b.callbacks == []
    ensures CallbacksAsCalled(b, xs + [x], i)
  {
    hide Times, RegisteredWith, ChildrenOf, PrioritiesOf, Makers;
    forall p: Priority ensures Times(xs + [x], AddBundleCallback(i, p)) == 0 { OneMoreTime(xs, x, AddBundleCallback(i, p)); }
  }

  lemma LinksNext(op: Operator, xs: seq<Attach>, x: Attach)
    requires BundlesAsCalled(op, xs) && ChildrenAsCalled(op, xs) && RegistersAsCalled(op, xs) && NotYet(op, xs) && Exists(op, x)
    ensures ChildrenAsCalled(Apply(op, x), xs + [x]) && RegistersAsCalled(Apply(op, x), xs + [x])
  {
    hide Times, Apply, MadeBy, CallbacksAsCalled, Makers, RegisteredWith, ChildrenOf, PrioritiesOf;
    var op', ms := Apply(op, x), Makers(xs);
    Last(xs, x);
    LastMaker(ms, x);
    ForestNext(op, x);
    SameStates(op, x);
    forall p | 0 <= p < |op'.forest| ensures op'.forest[p].children == ChildrenOf(Makers(xs + [x]), p) {
      assert ms + [] == ms;
      assert op'.forest[p].children + [] == op'.forest[p].children;
    }
    forall k | 0 <= k < |op'.stateful| ensures op'.stateful[k].bundles == RegisteredWith(Makers(xs + [x]), k) {
      assert ms + [] == ms;
      BundlesOf(op, x, k);
    }
  }

  lemma BundlesOf(op: Operator, x: Attach, k: int)
    requires Exists(op, x) && 0 <= k < |Apply(op, x).stateful|
    ensures Apply(op, x).stateful[k].bundles ==
      (if k < |op.stateful| then op.stateful[k].bundles else []) +
      (if MakesBundle(x) then seq(Registrations(x, k), _ => |op.forest|) else [])
  {
    hide AddPriority, Derive, Register;
    match x
    case NewBundle(ks) => RegisterTimes(op.stateful, ks, |op.forest|, k);
    case AddReadStream(_, j) =>
      RegisterTimes(op.stateful, [j], |op.forest|, k);
      assert multiset([j])[k] == if j == k then 1 else 0;
    case _ =>
  }

  lemma NotYetNext(op: Operator, xs: seq<Attach>, x: Attach)
    requires NotYet(op, xs) && BundlesAsCalled(op, xs) && Exists(op, x)
    ensures NotYet(Apply(op, x), xs + [x])
  {
    hide Times, Apply, MadeBy, CallbacksAsCalled, Makers, RegisteredWith, ChildrenOf, PrioritiesOf;
    var op', ms := Apply(op, x), Makers(xs);
    Last(xs, x);
    LastMaker(ms, x);
    ForestNext(op, x);
    SameStates(op, x);
    assert ms + [] == ms;
    forall k | k >= |op'.stateful|
      ensures Times(xs + [x], AddCallback(k)) == 0 && PrioritiesOf(xs + [x], k) == [] && RegisteredWith(Makers(xs + [x]), k) == []
    {
      OneMoreTime(xs, x, AddCallback(k));
      NotNamed(op, x, k);
    }
    forall b, p: Priority | b >= |op'.forest| ensures Times(xs + [x], AddBundleCallback(b, p)) == 0 {
      OneMoreTime(xs, x, AddBundleCallback(b, p));
    }
  }

  lemma NotNamed(op: Operator, x: Attach, k: int)
    requires Exists(op, x) && k >= |op.stateful|
    ensures MakesBundle(x) ==> Registrations(x, k) == 0
  {
    if x.NewBundle? { assert k !in x.stateful; }
  }

  /** Every set-up: streams, callbacks, bundles, what these access, and how they are connected, are exactly what the calls
      say. */
  lemma {:induction false} SetUpExact(xs: seq<Attach>)
    requires Buildable(xs)
    ensures AsCalled(Built(xs), xs) && NotYet(Built(xs), xs)
  {
    hide Apply, PlainAsCalled, StatesAsCalled, BundlesAsCalled, ChildrenAsCalled, RegistersAsCalled, NotYet, WellBuilt, Untouched;
    if xs == [] {
      NothingCalled();
    } else {
      var init, last := xs[..|xs| - 1], xs[|xs| - 1];
      SetUpExact(init);
      assert init + [last] == xs;
      PlainNext(Built(init), init, last);
      StatesNext(Built(init), init, last);
      BundlesNext(Built(init), init, last);
      LinksNext(Built(init), init, last);
      NotYetNext(Built(init), init, last);
    }
  }

  lemma NothingCalled()
    ensures AsCalled(EMPTY_OPERATOR, []) && NotYet(EMPTY_OPERATOR, [])
  {
  }
}
