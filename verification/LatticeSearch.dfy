/** The depth-first search that `add_events` runs for one new event, as a step relation. */
module LatticeSearch {
  import opened OperatorEvents
  import opened Basics
  import opened LatticeModel

  /** The local variables of one insertion. `discovered` and `finished` belong to the post-order
      walk over the reversed graph and survive from one leaf to the next. */
  datatype Search = Search(
    next: nat,                      // the next leaf to start from
    stack: seq<Node>,
    discovered: set<Node>,
    finished: set<Node>,
    preceding: set<Node>,
    children: set<Node>,
    parents: set<Node>,
    demoted: set<Node>,
    redundant: set<(Node, Node)>
  )

  const START: Search := Search(0, [], {}, {}, {}, {}, {}, {}, {})

  predicate Final(l: Lattice, st: Search) { st.stack == [] && st.next == |l.leaves| }

  ghost predicate Covered(l: Lattice, st: Search, v: Node) {
    exists u :: u in st.preceding && (u, v) in l.edges
  }

  /** The parents of v that the new event precedes. */
  ghost function Above(l: Lattice, e: OperatorEvent, v: Node): set<Node> {
    set p <- l.forest | (p, v) in l.edges && l.forest[p].Some? && Compare(l.forest[p].value, e) == Follows
  }

  /** How the new event compares with node v; an executing event imposes no order on it. */
  function Verdict(l: Lattice, e: OperatorEvent, v: Node): Comparison {
    if IsWaiting(l, v) then Compare(e, l.forest[v].value) else Unordered
  }

  /** Whether visiting v runs into a circular pair of events. */
  ghost predicate Panics(l: Lattice, e: OperatorEvent, st: Search, v: Node) {
    && !Covered(l, st, v)
    && (|| Verdict(l, e, v) == Circular
        || (Verdict(l, e, v) != Precedes
            && exists p :: (p, v) in l.edges && IsWaiting(l, p) && Compare(l.forest[p].value, e) == Circular))
  }

  /** Finishes the visited node v, given the verdict on it and its parents above the new event. */
  ghost function Visit(l: Lattice, st: Search, verdict: Comparison, above: set<Node>): Search
    requires st.stack != []
  {
    var v := st.stack[|st.stack| - 1];
    var st1 := st.(stack := st.stack[..|st.stack| - 1], finished := st.finished + {v});
    if Covered(l, st, v) then
      // An ancestor of v is a dependency already: abandon this leaf.
      st1.(stack := [], preceding := st.preceding + {v})
    else match verdict
      case Precedes =>
        if !IsSink(l, v) then st1
        else st1.(parents := st.parents + {v},
                  demoted := st.demoted + if v in QueueNodes(l.runQueue) then {v} else {})
      case Unordered =>
        st1.(parents := st.parents + above)
      case Follows =>
        st1.(children := st.children + {v},
             preceding := st.preceding + {v},
             parents := st.parents + above,
             redundant := st.redundant + set p <- above :: (p, v))
      case Circular => st1
  }

  ghost predicate Starts(l: Lattice, st: Search, st': Search) {
    && st.stack == [] && st.next < |l.leaves|
    && st' == st.(stack := [l.leaves[st.next]], next := st.next + 1)
  }

  /** The top of the stack is seen for the first time: push its unseen parents in any order. */
  ghost predicate Discovers(l: Lattice, st: Search, st': Search) {
    && st.stack != []
    && var v := st.stack[|st.stack| - 1];
    && v !in st.discovered
    && st.stack <= st'.stack
    && (forall p :: p in st'.stack[|st.stack|..] <==> (p, v) in l.edges && p !in st.discovered + {v})
    && st' == st.(discovered := st.discovered + {v}, stack := st'.stack)
  }

  ghost predicate Drops(l: Lattice, st: Search, st': Search) {
    && st.stack != []
    && var v := st.stack[|st.stack| - 1];
    && v in st.discovered && v in st.finished
    && st' == st.(stack := st.stack[..|st.stack| - 1])
  }

  ghost predicate Visits(l: Lattice, e: OperatorEvent, st: Search, st': Search) {
    && st.stack != []
    && var v := st.stack[|st.stack| - 1];
    && v in st.discovered && v !in st.finished
    && !Panics(l, e, st, v)
    && st' == Visit(l, st, Verdict(l, e, v), Above(l, e, v))
  }

  ghost predicate Step(l: Lattice, e: OperatorEvent, st: Search, st': Search) {
    Starts(l, st, st') || Discovers(l, st, st') || Drops(l, st, st') || Visits(l, e, st, st')
  }

  /** A run of the search from its start. */
  ghost predicate Trace(l: Lattice, e: OperatorEvent, tr: seq<Search>) {
    && |tr| > 0 && tr[0] == START
    && forall i :: 0 <= i < |tr| - 1 ==> Step(l, e, tr[i], tr[i + 1])
  }

  lemma Extend(l: Lattice, e: OperatorEvent, tr: seq<Search>, st: Search)
    requires Trace(l, e, tr) && Step(l, e, tr[|tr| - 1], st)
    ensures Trace(l, e, tr + [st])
  {
    hide Step;
    var tr' := tr + [st];
    forall i | 0 <= i < |tr'| - 1 ensures Step(l, e, tr'[i], tr'[i + 1]) {
      if i < |tr| - 1 { assert tr'[i] == tr[i] && tr'[i + 1] == tr[i + 1]; }
    }
  }

  // ---------------------------------------------------------------------------------------------
  // Splicing the event in.

  function Without(s: seq<Node>, drop: set<Node>): seq<Node> {
    if s == [] then []
    else (if s[0] in drop then [] else [s[0]]) + Without(s[1..], drop)
  }

  function QueueWithout(q: seq<RunnableEvent>, drop: set<Node>): seq<RunnableEvent> {
    if q == [] then []
    else (if q[0].node in drop then [] else [q[0]]) + QueueWithout(q[1..], drop)
  }

  lemma {:induction false} WithoutFacts(s: seq<Node>, drop: set<Node>)
    ensures forall v :: v in Without(s, drop) <==> v in s && v !in drop
    ensures Distinct(s) ==> Distinct(Without(s, drop))
  {
    if s != [] {
      WithoutFacts(s[1..], drop);
      if Distinct(s) {
        assert s[0] !in s[1..];
        assert Distinct(s[1..]);
      }
    }
  }

  lemma {:induction false} QueueWithoutFacts(q: seq<RunnableEvent>, drop: set<Node>)
    ensures forall x :: x in QueueWithout(q, drop) <==> x in q && x.node !in drop
    ensures QueueNodes(QueueWithout(q, drop)) == Without(QueueNodes(q), drop)
  {
    if q != [] {
      QueueWithoutFacts(q[1..], drop);
      assert QueueNodes(q)[1..] == QueueNodes(q[1..]);
    }
  }

  ghost function Splice(l: Lattice, e: OperatorEvent, n: Node, st: Search): Lattice {
    Lattice(
      l.forest[n := Some(e)],
      l.edges + (set c <- st.children :: (n, c)) + (set p <- st.parents :: (p, n)) - st.redundant,
      Without(l.leaves, st.demoted) + (if st.preceding == {} then [n] else []),
      QueueWithout(l.runQueue, st.demoted)
      + (if st.preceding == {} then [RunnableEvent(n, Some(e.timestamp))] else []))
  }

  /** Inserting event e as node n takes lattice l to l'. */
  ghost predicate Inserted(l: Lattice, e: OperatorEvent, n: Node, l': Lattice) {
    && n !in l.forest
    && exists tr :: Trace(l, e, tr) && Final(l, tr[|tr| - 1]) && l' == Splice(l, e, n, tr[|tr| - 1])
  }

  // ---------------------------------------------------------------------------------------------
  // Facts about the search that need no ordering hypothesis.

  ghost predicate Sane(l: Lattice, st: Search) {
    && st.next <= |l.leaves|
    && st.finished <= st.discovered <= l.forest.Keys
    && (forall v <- st.stack :: v in l.forest)
    && (forall i :: st.next <= i < |l.leaves| ==> l.leaves[i] !in st.discovered && l.leaves[i] !in st.stack)
    && (forall c <- st.children :: IsWaiting(l, c) && c in st.preceding && c in st.finished)
    && (forall p <- st.parents :: IsWaiting(l, p))
    && (st.preceding != {} ==> exists c :: c in st.children)
    && (forall d <- st.demoted :: d in st.parents && IsSink(l, d))
    && (forall p <- st.parents :: IsSink(l, p) ==> p in st.demoted)
    && (forall p, c :: (p, c) in st.redundant ==> (p, c) in l.edges && p in st.parents && c in st.children)
  }

  lemma StepSane(l: Lattice, e: OperatorEvent, st: Search, st': Search)
    requires WellFormed(l) && Sane(l, st) && Step(l, e, st, st')
    ensures Sane(l, st')
  {
    if Starts(l, st, st') {
      assert l.leaves[st.next] in l.leaves;
    } else if Discovers(l, st, st') {
      DiscoverSane(l, st, st');
    } else if Visits(l, e, st, st') {
      var v := st.stack[|st.stack| - 1];
      VisitSane(l, st, Verdict(l, e, v), Above(l, e, v));
    }
  }

  lemma {:induction false} TraceSane(l: Lattice, e: OperatorEvent, tr: seq<Search>)
    requires WellFormed(l) && Trace(l, e, tr)
    ensures Sane(l, tr[|tr| - 1])
  {
    if |tr| > 1 {
      var init := tr[..|tr| - 1];
      assert forall i :: 0 <= i < |init| - 1 ==> Step(l, e, tr[i], tr[i + 1]);
      TraceSane(l, e, init);
      assert Step(l, e, tr[|tr| - 2], tr[|tr| - 1]);
      StepSane(l, e, tr[|tr| - 2], tr[|tr| - 1]);
    }
  }

  lemma DiscoverSane(l: Lattice, st: Search, st': Search)
    requires EdgesLive(l) && LeavesExact(l) && Sane(l, st) && Discovers(l, st, st')
    ensures Sane(l, st')
  {
    var v := st.stack[|st.stack| - 1];
    assert v in st.stack;
    assert st'.stack == st.stack + st'.stack[|st.stack|..];
    forall i | st.next <= i < |l.leaves|
      ensures l.leaves[i] !in st'.discovered && l.leaves[i] !in st'.stack
    {
      assert l.leaves[i] in l.leaves && IsSink(l, l.leaves[i]);
    }
  }

  lemma VisitSane(l: Lattice, st: Search, verdict: Comparison, above: set<Node>)
    requires EdgesLive(l) && QueueExact(l) && Sane(l, st)
    requires st.stack != [] && st.stack[|st.stack| - 1] in st.discovered
    requires verdict != Unordered ==> IsWaiting(l, st.stack[|st.stack| - 1])
    requires forall p <- above :: (p, st.stack[|st.stack| - 1]) in l.edges
    ensures Sane(l, Visit(l, st, verdict, above))
  {
  }

  /** Splicing keeps the lattice well formed, whatever the events are. */
  lemma SpliceWellFormed(l: Lattice, e: OperatorEvent, n: Node, st: Search)
    requires WellFormed(l) && Sane(l, st) && n !in l.forest
    ensures WellFormed(Splice(l, e, n, st))
  {
    var l' := Splice(l, e, n, st);
    forall v ensures IsSink(l', v) <==> SinkAfter(l, n, st, v) {
      SpliceSinks(l, e, n, st, v);
    }
    assert n !in l.leaves && n !in QueueNodes(l.runQueue);
    WithoutFacts(l.leaves, st.demoted);
    SpliceQueue(l, e, n, st);
  }

  ghost predicate SinkAfter(l: Lattice, n: Node, st: Search, v: Node) {
    (v != n && IsSink(l, v) && v !in st.demoted) || (v == n && st.preceding == {})
  }

  lemma SpliceSinks(l: Lattice, e: OperatorEvent, n: Node, st: Search, v: Node)
    requires EdgesLive(l) && Sane(l, st) && n !in l.forest
    ensures IsSink(Splice(l, e, n, st), v) <==> SinkAfter(l, n, st, v)
  {
    var l' := Splice(l, e, n, st);
    if v == n && st.preceding != {} {
      var c :| c in st.children;
      assert (v, c) in l'.edges;
    } else if v != n && v in st.parents {
      assert (v, n) in l'.edges;
    } else if v != n && v in l.forest && !IsSink(l, v) {
      var c :| (v, c) in l.edges;
      assert (v, c) in l'.edges;
    }
  }

  lemma SpliceQueue(l: Lattice, e: OperatorEvent, n: Node, st: Search)
    requires QueueExact(l) && n !in l.forest
    requires forall v :: IsSink(Splice(l, e, n, st), v) <==> SinkAfter(l, n, st, v)
    ensures QueueExact(Splice(l, e, n, st))
  {
    hide IsSink, Without, QueueWithout;
    var l' := Splice(l, e, n, st);
    assert n !in QueueNodes(l.runQueue);
    QueueWithoutFacts(l.runQueue, st.demoted);
    WithoutFacts(QueueNodes(l.runQueue), st.demoted);
    assert QueueNodes(l'.runQueue)
      == Without(QueueNodes(l.runQueue), st.demoted) + if st.preceding == {} then [n] else [];
    forall v ensures v in QueueNodes(l'.runQueue) <==> IsSink(l', v) && IsWaiting(l', v) {
      assert IsWaiting(l', v) <==> v == n || IsWaiting(l, v);
    }
  }

  // ---------------------------------------------------------------------------------------------
  // Edges around the new node.

  /** p depends directly on a node that e does not go before. */
  ghost predicate Adjacent(l: Lattice, e: OperatorEvent, p: Node) { exists v :: (p, v) in l.edges && Verdict(l, e, v) != Precedes }

  /** Every parent found depends on nothing, or goes after e and depends directly on something that does not; and the edges
      from such nodes to the children found are marked as redundant. */
  ghost predicate Pruning(l: Lattice, e: OperatorEvent, st: Search) {
    && (forall p <- st.parents ::
          IsSink(l, p) || (IsWaiting(l, p) && Compare(l.forest[p].value, e) == Follows && Adjacent(l, e, p)))
    && (forall c <- st.children, p | p in Above(l, e, c) :: (p, c) in st.redundant)
  }

  lemma {:induction false} TracePruning(l: Lattice, e: OperatorEvent, tr: seq<Search>, k: nat)
    requires Trace(l, e, tr) && k < |tr|
    ensures Pruning(l, e, tr[k])
  {
    hide Compare, Panics, Verdict;
    if k > 0 {
      TracePruning(l, e, tr, k - 1);
      assert Step(l, e, tr[k - 1], tr[k - 1 + 1]);
    }
  }

  /** An insertion makes only those nodes depend on the new one that depended on nothing, or directly on a node that the new
      event does not go before. */
  lemma OnlyAdjacent(l: Lattice, e: OperatorEvent, n: Node, l': Lattice, p: Node)
    requires WellFormed(l) && Inserted(l, e, n, l') && (p, n) in l'.edges
    ensures IsSink(l, p) || Adjacent(l, e, p)
  {
    hide Compare, Step;
    var tr: seq<Search> :| Trace(l, e, tr) && Final(l, tr[|tr| - 1]) && l' == Splice(l, e, n, tr[|tr| - 1]);
    TraceSane(l, e, tr);
    TracePruning(l, e, tr, |tr| - 1);
    var st := tr[|tr| - 1];
    assert p in st.parents;
  }

  /** An insertion leaves no dependency beside the way through the new node: what depends on the new node does not depend
      directly on what the new node depends on. */
  lemma NoShortcut(l: Lattice, e: OperatorEvent, n: Node, l': Lattice, p: Node, c: Node)
    requires WellFormed(l) && Inserted(l, e, n, l') && (p, n) in l'.edges && (n, c) in l'.edges
    ensures (p, c) !in l'.edges
  {
    hide Compare, Step;
    var tr: seq<Search> :| Trace(l, e, tr) && Final(l, tr[|tr| - 1]) && l' == Splice(l, e, n, tr[|tr| - 1]);
    TraceSane(l, e, tr);
    TracePruning(l, e, tr, |tr| - 1);
    var st := tr[|tr| - 1];
    assert p in st.parents && c in st.children;
    if (p, c) in l.edges { assert p in Above(l, e, c); }
  }
}
