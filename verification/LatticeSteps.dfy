/** Handing events out and completing them, and what an ordered lattice promises about paths,
    cycles and progress. */
module LatticeSteps {
  import opened Timestamps
  import opened OperatorEvents
  import opened Basics
  import opened LatticeModel
  import opened LatticeOrder

  predicate IsExecuting(l: Lattice, v: Node) { v in l.forest && l.forest[v].None? }

  function RemoveAt<T>(s: seq<T>, i: nat): seq<T>
    requires i < |s|
  {
    s[..i] + s[i + 1..]
  }

  /** `get_event`: the greatest entry of the run queue is handed out and its event taken. */
  ghost predicate Fetched(l: Lattice, n: Node, l': Lattice) {
    exists i ::
      && 0 <= i < |l.runQueue| && l.runQueue[i].node == n
      && (forall r <- l.runQueue :: CmpRunnable(l.runQueue[i], r) != Less)
      && l' == l.(forest := l.forest[n := None], runQueue := RemoveAt(l.runQueue, i))
  }

  /** Among the runnable events one with the earliest timestamp is handed out, and of these the one with the least index. */
  lemma FetchEarliest(l: Lattice, n: Node, l': Lattice)
    requires WellFormed(l) && Fetched(l, n, l')
    ensures IsWaiting(l, n)
    ensures forall v :: IsSink(l, v) && IsWaiting(l, v) ==>
      var t, u := l.forest[n].value.timestamp, l.forest[v].value.timestamp;
      Le(t, u) && (t == u ==> n <= v)
  {
    var i :| 0 <= i < |l.runQueue| && l.runQueue[i].node == n && forall r <- l.runQueue :: CmpRunnable(l.runQueue[i], r) != Less;
    assert l.runQueue[i] in l.runQueue;
    forall v | IsSink(l, v) && IsWaiting(l, v)
      ensures Le(l.forest[n].value.timestamp, l.forest[v].value.timestamp)
      ensures l.forest[n].value.timestamp == l.forest[v].value.timestamp ==> n <= v
    {
      assert v in QueueNodes(l.runQueue);
      var j :| 0 <= j < |l.runQueue| && QueueNodes(l.runQueue)[j] == v;
      assert l.runQueue[j] in l.runQueue;
      TotalOrder(l.forest[n].value.timestamp, l.forest[v].value.timestamp);
    }
  }

  /** The parents of n that depend on nothing else. */
  ghost predicate Promoted(l: Lattice, n: Node, p: Node) {
    (p, n) in l.edges && forall c :: (p, c) in l.edges ==> c == n
  }

  ghost function Runnable(l: Lattice, v: Node): RunnableEvent {
    RunnableEvent(v, if IsWaiting(l, v) then Some(l.forest[v].value.timestamp) else None)
  }

  ghost function RunnableAll(l: Lattice, vs: seq<Node>): seq<RunnableEvent> {
    seq(|vs|, i requires 0 <= i < |vs| => Runnable(l, vs[i]))
  }

  ghost function Unlink(l: Lattice, n: Node, i: nat, up: seq<Node>): Lattice
    requires i < |l.leaves|
  {
    Lattice(
      l.forest - {n},
      (set x <- l.edges | x.0 != n && x.1 != n),
      RemoveAt(l.leaves, i) + up,
      l.runQueue + RunnableAll(l, up))
  }

  /** `mark_as_completed`: the executing leaf n disappears and freed parents become runnable. */
  ghost predicate Completed(l: Lattice, n: Node, l': Lattice) {
    && IsExecuting(l, n)
    && exists i, up ::
      && 0 <= i < |l.leaves| && l.leaves[i] == n
      && Distinct(up) && (forall p :: p in up <==> Promoted(l, n, p))
      && l' == Unlink(l, n, i, up)
  }

  // ---------------------------------------------------------------------------------------------
  // Both operations keep the lattice well formed and ordered.

  lemma RemoveAtFacts<T>(s: seq<T>, i: nat)
    requires i < |s| && Distinct(s)
    ensures Distinct(RemoveAt(s, i))
    ensures forall x :: x in RemoveAt(s, i) <==> x in s && x != s[i]
  {
    var r := RemoveAt(s, i);
    forall x | x in s && x != s[i] ensures x in r {
      var k :| 0 <= k < |s| && s[k] == x;
      assert r[if k < i then k else k - 1] == x;
    }
  }

  lemma DistinctConcat<T>(a: seq<T>, b: seq<T>)
    requires Distinct(a) && Distinct(b) && forall x :: x in a ==> x !in b
    ensures Distinct(a + b)
  {
    forall i, j | 0 <= i < j < |a + b| ensures (a + b)[i] != (a + b)[j] {
      if i < |a| <= j { assert a[i] in a && b[j - |a|] in b; }
    }
  }

  lemma FetchWellFormed(l: Lattice, n: Node, l': Lattice)
    requires WellFormed(l) && Fetched(l, n, l')
    ensures WellFormed(l') && IsSink(l, n) && IsWaiting(l, n) && IsExecuting(l', n)
    ensures Waiting(l') == Waiting(l) - {n}
  {
    hide EdgesLive, LeavesExact, QueueExact, RemoveAt, CmpRunnable;
    var i :| 0 <= i < |l.runQueue| && l.runQueue[i].node == n
      && l' == l.(forest := l.forest[n := None], runQueue := RemoveAt(l.runQueue, i));
    RunnableSink(l, i);
    FetchGraph(l, n, l');
    FetchQueue(l, n, i, l');
  }

  lemma RunnableSink(l: Lattice, i: nat)
    requires QueueExact(l) && i < |l.runQueue|
    ensures IsSink(l, l.runQueue[i].node) && IsWaiting(l, l.runQueue[i].node)
  {
    assert QueueNodes(l.runQueue)[i] == l.runQueue[i].node;
  }

  lemma FetchGraph(l: Lattice, n: Node, l': Lattice)
    requires EdgesLive(l) && LeavesExact(l) && IsSink(l, n) && IsWaiting(l, n)
    requires l'.forest == l.forest[n := None] && l'.edges == l.edges && l'.leaves == l.leaves
    ensures EdgesLive(l') && LeavesExact(l') && Waiting(l') == Waiting(l) - {n}
    ensures forall v :: IsSink(l', v) <==> IsSink(l, v)
    ensures forall v :: IsWaiting(l', v) <==> IsWaiting(l, v) && v != n
  {
  }

  lemma FetchQueue(l: Lattice, n: Node, i: nat, l': Lattice)
    requires QueueExact(l) && i < |l.runQueue| && l.runQueue[i].node == n
    requires l' == l.(forest := l.forest[n := None], runQueue := RemoveAt(l.runQueue, i))
    requires forall v :: IsSink(l', v) <==> IsSink(l, v)
    requires forall v :: IsWaiting(l', v) <==> IsWaiting(l, v) && v != n
    ensures QueueExact(l')
  {
    var q := QueueNodes(l.runQueue);
    RemoveAtFacts(q, i);
    assert QueueNodes(l'.runQueue) == RemoveAt(q, i);
    forall r <- l'.runQueue ensures r in l.runQueue && r.node != n {
      assert r.node in QueueNodes(l'.runQueue) by {
        var k :| 0 <= k < |l'.runQueue| && l'.runQueue[k] == r;
        assert QueueNodes(l'.runQueue)[k] == r.node;
      }
    }
  }

  lemma CompleteWellFormed(l: Lattice, n: Node, l': Lattice)
    requires WellFormed(l) && Completed(l, n, l')
    ensures WellFormed(l') && Waiting(l') == Waiting(l)
    ensures l'.forest == l.forest - {n}
    ensures IsExecuting(l, n)
  {
    var i, up :| 0 <= i < |l.leaves| && l.leaves[i] == n
      && Distinct(up) && (forall p :: p in up <==> Promoted(l, n, p)) && l' == Unlink(l, n, i, up);
    assert l.leaves[i] in l.leaves && IsSink(l, n);
    assert EdgesLive(l');
    forall v ensures IsSink(l', v) <==> v != n && (IsSink(l, v) || Promoted(l, n, v)) {
      if v != n && v in l.forest && !IsSink(l, v) && !Promoted(l, n, v) {
        var c :| (v, c) in l.edges && c != n;
        assert (v, c) in l'.edges;
      }
    }
    RemoveAtFacts(l.leaves, i);
    DistinctConcat(RemoveAt(l.leaves, i), up);
    assert forall v :: IsWaiting(l', v) <==> IsWaiting(l, v);
    CompleteQueue(l, n, i, up);
  }

  lemma CompleteQueue(l: Lattice, n: Node, i: nat, up: seq<Node>)
    requires QueueExact(l) && EdgesLive(l) && i < |l.leaves| && IsExecuting(l, n)
    requires Distinct(up) && forall p :: p in up <==> Promoted(l, n, p)
    requires forall v :: IsSink(Unlink(l, n, i, up), v) <==> v != n && (IsSink(l, v) || Promoted(l, n, v))
    requires forall v :: IsWaiting(Unlink(l, n, i, up), v) <==> IsWaiting(l, v)
    ensures QueueExact(Unlink(l, n, i, up))
  {
    var l' := Unlink(l, n, i, up);
    assert QueueNodes(l'.runQueue) == QueueNodes(l.runQueue) + up;
    forall v | v in up ensures IsWaiting(l, v) && v !in QueueNodes(l.runQueue) { }
    forall v ensures v in QueueNodes(l'.runQueue) <==> IsSink(l', v) && IsWaiting(l', v) { }
    forall r <- l'.runQueue
      ensures r.node in l'.forest && l'.forest[r.node].Some? && r.timestamp == Some(l'.forest[r.node].value.timestamp)
    {
      if r !in l.runQueue {
        assert r in RunnableAll(l, up);
      }
    }
  }

  lemma OrderedIsChain(l: Lattice, age: map<Node, nat>)
    requires Ordered(l, age)
    ensures Chain(Waiting(l).Keys, Watermarks(Waiting(l)), Before(Waiting(l), age))
    ensures OrderedBy(l, Watermarks(Waiting(l)), Before(Waiting(l), age))
  {
    WeakIsChain(Waiting(l), age);
  }

  /** Only the ages of waiting events matter. */
  lemma SameAges(l: Lattice, age: map<Node, nat>, age': map<Node, nat>)
    requires forall v :: IsWaiting(l, v) ==> (v in age <==> v in age') && (v in age ==> age[v] == age'[v])
    ensures Before(Waiting(l), age) == Before(Waiting(l), age')
    ensures Ordered(l, age) <==> Ordered(l, age')
  {
    hide Manageable, OrderedBy, Compare, Tied;
    var w := Waiting(l);
    forall v <- w ensures IsWaiting(l, v) { }
    forall a, b | a in w && b in w ensures Goes(w, age, a, b) <==> Goes(w, age', a, b) { }
    assert Before(w, age) == Before(w, age');
  }

  /** A waiting event with no dependencies has no waiting predecessor. */
  lemma SinkIsFirst(l: Lattice, age: map<Node, nat>, v: Node)
    requires Ordered(l, age) && IsSink(l, v)
    ensures forall a :: (a, v) !in Before(Waiting(l), age)
  {
    hide Ordered, Before;
    var w := Waiting(l);
    OrderedIsChain(l, age);
    forall a ensures (a, v) !in Before(w, age) {
      if (a, v) in Before(w, age) {
        var _ := ImmediatelyBefore(w.Keys, Watermarks(w), Before(w, age), a, v);
      }
    }
  }

  /** Whatever has a predecessor has an immediate one. */
  lemma ImmediatelyBefore(all: set<Node>, ws: set<Node>, lt: set<(Node, Node)>, a: Node, v: Node) returns (c: Node)
    requires Chain(all, ws, lt) && (a, v) in lt
    ensures Covers(lt, c, v)
  {
    if w :| w in ws && (w, v) in lt {
      c := LastBelow(all, ws, lt, v, w);
    } else {
      c := a;
    }
  }

  /** Whatever has a successor v has an immediate one at or below v. */
  lemma ImmediatelyAfter(all: set<Node>, ws: set<Node>, lt: set<(Node, Node)>, a: Node, v: Node) returns (c: Node)
    requires Chain(all, ws, lt) && (a, v) in lt
    ensures Covers(lt, a, c) && (c == v || (c, v) in lt)
  {
    var s := set x <- ws | (a, x) in lt;
    assert v in s;
    c := Minimal(all, ws, lt, s);
    forall x | (a, x) in lt ensures (x, c) !in lt { assert x in s; }
  }

  lemma FetchOrdered(l: Lattice, age: map<Node, nat>, n: Node, l': Lattice)
    requires WellFormed(l) && Ordered(l, age) && Fetched(l, n, l')
    ensures Ordered(l', age)
  {
    hide WellFormed, Manageable, Before;
    FetchWellFormed(l, n, l');
    SinkIsFirst(l, age, n);
    BeforeRestricts(Waiting(l), age, n);
    ManageableRestricts(Waiting(l), n);
    assert l'.edges == l.edges;
    FetchOrderedBy(l, n, Watermarks(Waiting(l)), Before(Waiting(l), age), l', Watermarks(Waiting(l')), Before(Waiting(l'), age));
  }

  lemma BeforeRestricts(w: map<Node, OperatorEvent>, age: map<Node, nat>, n: Node)
    ensures forall a, b :: (a, b) in Before(w - {n}, age) <==> a != n && b != n && (a, b) in Before(w, age)
    ensures Watermarks(w - {n}) == Watermarks(w) - {n}
  {
    forall a, b | a in w - {n} && b in w - {n} ensures Goes(w - {n}, age, a, b) <==> Goes(w, age, a, b) { }
  }

  lemma ManageableRestricts(w: map<Node, OperatorEvent>, n: Node)
    requires Manageable(w)
    ensures Manageable(w - {n})
  {
    hide Manageable;
    Subfamily(w - {n}, w, map v | v in w - {n} :: v);
  }

  lemma FetchOrderedBy(l: Lattice, n: Node, ws: set<Node>, lt: set<(Node, Node)>, l': Lattice, ws': set<Node>, lt': set<(Node, Node)>)
    requires OrderedBy(l, ws, lt) && l'.edges == l.edges && IsSink(l, n)
    requires forall v :: IsWaiting(l', v) ==> IsWaiting(l, v) && v != n
    requires ws' == ws - {n} && forall a :: (a, n) !in lt
    requires forall a, b :: (a, b) in lt' <==> a != n && b != n && (a, b) in lt
    ensures OrderedBy(l', ws', lt')
  {
    forall a, b | Covers(lt', a, b) ensures (b, a) in l.edges {
      assert Covers(lt, a, b);
    }
  }

  lemma CompleteOrdered(l: Lattice, age: map<Node, nat>, n: Node, l': Lattice)
    requires WellFormed(l) && Ordered(l, age) && Completed(l, n, l')
    ensures Ordered(l', age)
  {
    CompleteWellFormed(l, n, l');
    var i, up :| 0 <= i < |l.leaves| && l.leaves[i] == n && l' == Unlink(l, n, i, up);
    hide WellFormed, Manageable, Before, Aged;
    assert forall v :: IsWaiting(l', v) ==> IsWaiting(l, v);
    OrderedIsChain(l, age);
    CompleteOrderedBy(l, n, Watermarks(Waiting(l)), Before(Waiting(l), age), l');
  }

  lemma CompleteOrderedBy(l: Lattice, n: Node, ws: set<Node>, lt: set<(Node, Node)>, l': Lattice)
    requires OrderedBy(l, ws, lt) && IsExecuting(l, n)
    requires forall v :: IsWaiting(l', v) ==> IsWaiting(l, v)
    requires l'.edges == set x <- l.edges | x.0 != n && x.1 != n
    requires Chain(Waiting(l).Keys, ws, lt)
    ensures OrderedBy(l', ws, lt)
  {
    forall a, b | Covers(lt, a, b) ensures (b, a) in l'.edges {
      assert a in Waiting(l) && b in Waiting(l);
    }
  }

  // ---------------------------------------------------------------------------------------------
  // Consequences of being ordered.

  /** A path of dependencies. */
  ghost predicate Path(l: Lattice, p: seq<Node>) {
    |p| > 0 && forall i :: 0 <= i < |p| - 1 ==> (p[i], p[i + 1]) in l.edges
  }

  ghost predicate DependsOn(l: Lattice, b: Node, a: Node) {
    exists p :: Path(l, p) && |p| > 1 && p[0] == b && p[|p| - 1] == a
  }

  /** Following dependencies from a waiting event to another only meets earlier events. */
  lemma {:induction false} PathDescends(l: Lattice, all: set<Node>, ws: set<Node>, lt: set<(Node, Node)>, p: seq<Node>)
    requires Chain(all, ws, lt) && EdgesLive(l) && OrderedBy(l, ws, lt)
    requires Path(l, p) && |p| > 1 && IsWaiting(l, p[|p| - 1])
    ensures (p[|p| - 1], p[0]) in lt
  {
    var x, y := p[0], p[1];
    assert (x, y) in l.edges by { assert (p[0], p[0 + 1]) in l.edges; }
    if |p| > 2 {
      var z := p[2];
      assert (y, z) in l.edges by { assert (p[1], p[1 + 1]) in l.edges; }
      assert IsWaiting(l, y) && (y, x) in lt;
      var q := p[1..];
      forall i | 0 <= i < |q| - 1 ensures (q[i], q[i + 1]) in l.edges {
        assert (p[i + 1], p[i + 2]) in l.edges;
      }
      PathDescends(l, all, ws, lt, q);
    }
  }

  ghost function Between(ws: set<Node>, lt: set<(Node, Node)>, a: Node, b: Node): set<Node> {
    set x <- ws | (a, x) in lt && (x, b) in lt
  }

  lemma {:induction false} PathExists(l: Lattice, all: set<Node>, ws: set<Node>, lt: set<(Node, Node)>, a: Node, b: Node)
    returns (p: seq<Node>)
    requires Chain(all, ws, lt) && OrderedBy(l, ws, lt) && (a, b) in lt
    ensures Path(l, p) && |p| > 1 && p[0] == b && p[|p| - 1] == a
    decreases Between(ws, lt, a, b)
  {
    if Covers(lt, a, b) {
      p := [b, a];
    } else {
      var c :| (a, c) in lt && (c, b) in lt;
      SplitBetween(all, ws, lt, a, c, b);
      var upper := PathExists(l, all, ws, lt, c, b);
      var lower := PathExists(l, all, ws, lt, a, c);
      p := upper + lower[1..];
      forall i | 0 <= i < |p| - 1 ensures (p[i], p[i + 1]) in l.edges {
        if i < |upper| - 1 {
          assert (upper[i], upper[i + 1]) in l.edges;
        } else {
          var k := i - (|upper| - 1);
          assert (lower[k], lower[k + 1]) in l.edges;
        }
      }
    }
  }

  lemma SplitBetween(all: set<Node>, ws: set<Node>, lt: set<(Node, Node)>, a: Node, c: Node, b: Node)
    requires Chain(all, ws, lt) && (a, c) in lt && (c, b) in lt
    ensures Between(ws, lt, a, c) < Between(ws, lt, a, b)
    ensures Between(ws, lt, c, b) < Between(ws, lt, a, b)
  {
    assert c in Between(ws, lt, a, b) && c !in Between(ws, lt, a, c) && c !in Between(ws, lt, c, b);
    forall x <- Between(ws, lt, a, c) ensures x in Between(ws, lt, a, b) { }
    forall x <- Between(ws, lt, c, b) ensures x in Between(ws, lt, a, b) { }
  }

  /** Order completeness: of two waiting events one depends on the other, through a path of dependencies,
      exactly when that other one precedes it, or ties with it and is older. */
  lemma OrderComplete(l: Lattice, age: map<Node, nat>, a: Node, b: Node)
    requires WellFormed(l) && Ordered(l, age) && IsWaiting(l, a) && IsWaiting(l, b)
    ensures DependsOn(l, b, a) <==> Goes(Waiting(l), age, a, b)
  {
    hide Ordered, Goes, LeavesExact, QueueExact;
    var w := Waiting(l);
    OrderedIsChain(l, age);
    assert (a, b) in Before(w, age) <==> Goes(w, age, a, b);
    if (a, b) in Before(w, age) {
      var _ := PathExists(l, w.Keys, Watermarks(w), Before(w, age), a, b);
    }
    if DependsOn(l, b, a) {
      var p :| Path(l, p) && |p| > 1 && p[0] == b && p[|p| - 1] == a;
      PathDescends(l, w.Keys, Watermarks(w), Before(w, age), p);
    }
  }

  /** The dependency graph is acyclic. */
  lemma Acyclic(l: Lattice, age: map<Node, nat>, v: Node)
    requires WellFormed(l) && Ordered(l, age)
    ensures !DependsOn(l, v, v)
  {
    hide Ordered, Before, LeavesExact, QueueExact;
    var w := Waiting(l);
    OrderedIsChain(l, age);
    forall p | Path(l, p) && |p| > 1 && p[0] == v ensures p[|p| - 1] != v {
      var y := p[1];
      assert (v, y) in l.edges by { assert (p[0], p[0 + 1]) in l.edges; }
      if IsWaiting(l, p[|p| - 1]) {
        PathDescends(l, w.Keys, Watermarks(w), Before(w, age), p);
      }
    }
  }

  /** A lattice that still holds events has one to run or one running. */
  lemma Progress(l: Lattice, age: map<Node, nat>)
    requires WellFormed(l) && Ordered(l, age)
    ensures l.forest == map[] || l.runQueue != [] || exists v :: IsExecuting(l, v)
  {
    hide Ordered, Before, Chain, LeavesExact;
    var w := Waiting(l);
    OrderedIsChain(l, age);
    if forall v :: v !in l.forest {
      assert l.forest == map[];
    } else if forall v :: !IsExecuting(l, v) {
      var v :| v in l.forest;
      assert IsWaiting(l, v) || IsExecuting(l, v);
      var m := Minimal(w.Keys, Watermarks(w), Before(w, age), w.Keys);
      forall c ensures (m, c) !in l.edges {
        assert IsWaiting(l, c) ==> c in w.Keys && (c, m) !in Before(w, age);
        assert c in l.forest ==> IsWaiting(l, c) || IsExecuting(l, c);
      }
      assert m in QueueNodes(l.runQueue);
    }
  }

  // ---------------------------------------------------------------------------------------------
  // Standstill.

  /** Where every node has a dependency, dependencies can be followed for as long as one likes. */
  lemma {:induction false} LongPath(l: Lattice, v: Node, k: nat) returns (p: seq<Node>)
    requires EdgesLive(l) && v in l.forest && forall u <- l.forest :: !IsSink(l, u)
    ensures Path(l, p) && |p| == k + 1 && forall i :: 0 <= i < |p| ==> p[i] in l.forest
  {
    p := [v];
    if k > 0 {
      p := LongPath(l, v, k - 1);
      p := LongerPath(l, p, k - 1);
    }
  }

  lemma LongerPath(l: Lattice, q: seq<Node>, k: nat) returns (p: seq<Node>)
    requires EdgesLive(l) && Path(l, q) && |q| == k + 1 && forall i :: 0 <= i < |q| ==> q[i] in l.forest
    requires forall u <- l.forest :: !IsSink(l, u)
    ensures Path(l, p) && |p| == k + 2 && forall i :: 0 <= i < |p| ==> p[i] in l.forest
  {
    var last := q[|q| - 1];
    assert !IsSink(l, last);
    var d :| (last, d) in l.edges;
    p := q + [d];
    forall i | 0 <= i < |p| - 1 ensures (p[i], p[i + 1]) in l.edges {
      if i < |q| - 1 { assert (q[i], q[i + 1]) in l.edges; }
    }
  }

  /** A sequence without repetitions is no longer than the set it is drawn from. */
  lemma {:induction false} DrawnFrom<T>(q: seq<T>, s: set<T>)
    requires Distinct(q) && forall i :: 0 <= i < |q| ==> q[i] in s
    ensures |q| <= |s|
  {
    if q != [] {
      var last := q[|q| - 1];
      var init := q[..|q| - 1];
      forall i | 0 <= i < |init| ensures init[i] in s - {last} { assert q[i] != q[|q| - 1]; }
      DrawnFrom(init, s - {last});
      assert last in s;
    }
  }

  /** A lattice with events and no leaf has a dependency cycle. */
  lemma NoLeafCycle(l: Lattice, v: Node) returns (u: Node)
    requires EdgesLive(l) && v in l.forest && forall x <- l.forest :: !IsSink(l, x)
    ensures DependsOn(l, u, u)
  {
    var p := LongPath(l, v, |l.forest.Keys|);
    hide Path, DependsOn;
    if Distinct(p) { DrawnFrom(p, l.forest.Keys); }
    var i, j :| 0 <= i < j < |p| && p[i] == p[j];
    u := p[i];
    PathSlice(l, p, i, j);
  }

  lemma PathSlice(l: Lattice, p: seq<Node>, i: int, j: int)
    requires Path(l, p) && 0 <= i < j < |p|
    ensures DependsOn(l, p[i], p[j])
  {
    var q := p[i..j + 1];
    forall k | 0 <= k < |q| - 1 ensures (q[k], q[k + 1]) in l.edges { assert (p[i + k], p[i + k + 1]) in l.edges; }
    assert Path(l, q) && q[0] == p[i] && q[|q| - 1] == p[j];
  }
}
