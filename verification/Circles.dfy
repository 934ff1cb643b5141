/** What the lattice does with three watermarks whose precedence goes round in a circle. */
module Circles {
  import opened OperatorEvents
  import opened Basics
  import opened LatticeModel
  import opened LatticeSearch
  import opened LatticeSteps
  import opened Ties

  /** x goes before y, y before z, and z before x. */
  predicate Circle(x: OperatorEvent, y: OperatorEvent, z: OperatorEvent) {
    && Compare(x, y) == Precedes && Compare(y, x) == Follows
    && Compare(y, z) == Precedes && Compare(z, y) == Follows
    && Compare(z, x) == Precedes && Compare(x, z) == Follows
  }

  function Ready(n: Node, e: OperatorEvent): RunnableEvent { RunnableEvent(n, Some(e.timestamp)) }

  function Single(e: OperatorEvent): Lattice { Lattice(map[0 := Some(e)], {}, [0], [Ready(0, e)]) }

  /** s at node b depends on f at node a. */
  function Pair(f: OperatorEvent, a: Node, s: OperatorEvent, b: Node): Lattice {
    Lattice(map[a := Some(f), b := Some(s)], {(b, a)}, [a], [Ready(a, f)])
  }

  /** And e at node 2 depends on s. */
  function Triple(f: OperatorEvent, a: Node, s: OperatorEvent, b: Node, e: OperatorEvent): Lattice {
    Lattice(map[a := Some(f), b := Some(s), 2 := Some(e)], {(b, a), (2, b)}, [a], [Ready(a, f)])
  }

  lemma InsertOnly(e: OperatorEvent)
    ensures Inserted(EMPTY, e, 0, Single(e))
  {
    Begin(EMPTY, e);
    Finish(EMPTY, e, START, 0);
    assert Splice(EMPTY, e, 0, START) == Single(e);
  }

  /** The top of the stack goes before e, and nothing depends on it. */
  lemma VisitAfter(l: Lattice, e: OperatorEvent, st: Search) returns (st': Search)
    requires st.stack != [] && st.stack[|st.stack| - 1] in st.discovered && st.stack[|st.stack| - 1] !in st.finished
    requires Verdict(l, e, st.stack[|st.stack| - 1]) == Follows && forall x <- l.edges :: x.1 != st.stack[|st.stack| - 1]
    ensures var v := st.stack[|st.stack| - 1];
      && st' == st.(stack := st.stack[..|st.stack| - 1], finished := st.finished + {v}, children := st.children + {v},
                    preceding := st.preceding + {v})
      && Step(l, e, st, st')
  {
    hide Compare, Verdict;
    var v := st.stack[|st.stack| - 1];
    assert Above(l, e, v) == {} && !Covered(l, st, v) && !Panics(l, e, st, v);
    st' := Visit(l, st, Verdict(l, e, v), Above(l, e, v));
    assert st'.redundant == st.redundant && st'.parents == st.parents;
    assert Visits(l, e, st, st');
  }

  /** The search from the only leaf a, up to the visit of a. */
  lemma AtLeaf(l: Lattice, e: OperatorEvent, a: Node, more: seq<Node>) returns (st: Search)
    requires l.leaves == [a] && forall p :: p in more <==> (p, a) in l.edges && p != a
    ensures Reached(l, e, st) && st == Search(1, [a] + more, {a}, {}, {}, {}, {}, {}, {})
  {
    hide Step, Reached;
    Begin(l, e);
    var b := Start(l, e, START);
    Reach(l, e, START, b);
    st := Discover(l, e, b, more);
    Reach(l, e, b, st);
  }

  lemma InsertAfter(f: OperatorEvent, s: OperatorEvent)
    requires Compare(s, f) == Follows
    ensures Inserted(Single(f), s, 1, Pair(f, 0, s, 1))
  {
    hide Compare, Step, Reached, Inserted;
    var l := Single(f);
    var a := AtLeaf(l, s, 0, []);
    var b := VisitAfter(l, s, a);
    Reach(l, s, a, b);
    Finish(l, s, b, 1);
    KeepOne(l.runQueue);
    assert Splice(l, s, 1, b) == Pair(f, 0, s, 1);
  }

  lemma KeepOne(q: seq<RunnableEvent>)
    requires |q| == 1
    ensures forall v: Node :: Without([v], {}) == [v]
    ensures QueueWithout(q, {}) == q
  {
  }

  lemma InsertBefore(f: OperatorEvent, s: OperatorEvent)
    requires Compare(f, s) == Precedes
    ensures Inserted(Single(s), f, 1, Pair(f, 1, s, 0))
  {
    hide Compare, Step, Reached, Inserted;
    var l := Single(s);
    var a := AtLeaf(l, f, 0, []);
    var b := VisitBefore(l, f, a);
    Reach(l, f, a, b);
    Finish(l, f, b, 1);
    assert Without([0], {0}) == [] && QueueWithout(l.runQueue, {0}) == [];
    assert Splice(l, f, 1, b) == Pair(f, 1, s, 0);
  }

  lemma VisitBefore(l: Lattice, e: OperatorEvent, st: Search) returns (st': Search)
    requires st == Search(1, [0], {0}, {}, {}, {}, {}, {}, {}) && Verdict(l, e, 0) == Precedes
    requires IsSink(l, 0) && QueueNodes(l.runQueue) == [0]
    ensures st' == Search(1, [], {0}, {0}, {}, {}, {0}, {0}, {}) && Step(l, e, st, st')
  {
    hide Compare, Verdict;
    assert !Covered(l, st, 0) && !Panics(l, e, st, 0);
    st' := Visit(l, st, Verdict(l, e, 0), Above(l, e, 0));
    assert Visits(l, e, st, st');
  }

  /** An event that goes after s, which depends on f, is put behind s; that it goes before f is not noticed. */
  lemma InsertLast(f: OperatorEvent, a: Node, s: OperatorEvent, b: Node, e: OperatorEvent)
    requires a != b && a != 2 && b != 2 && Compare(e, s) == Follows
    ensures Inserted(Pair(f, a, s, b), e, 2, Triple(f, a, s, b, e))
  {
    hide Compare, Step, Reached, Inserted;
    var l := Pair(f, a, s, b);
    var u := AtLeaf(l, e, a, [b]);
    var v := Discover(l, e, u, []);
    Reach(l, e, u, v);
    var x := VisitAfter(l, e, v);
    Reach(l, e, v, x);
    assert x.stack == [a];
    var y := VisitCovered(l, e, x, b);
    Reach(l, e, x, y);
    Finish(l, e, y, 2);
    KeepOne(l.runQueue);
    assert Splice(l, e, 2, y) == Triple(f, a, s, b, e);
  }

  /** Three watermarks in a circle, inserted into an empty lattice in any order, become a chain: the first two as they
      should, and the third behind both, although it goes before one of them. Nothing is stuck. */
  lemma CircleBecomesChain(u: OperatorEvent, v: OperatorEvent, w: OperatorEvent)
    returns (l1: Lattice, l2: Lattice, l3: Lattice)
    requires Circle(u, v, w) || Circle(v, u, w)
    ensures Inserted(EMPTY, u, 0, l1) && Inserted(l1, v, 1, l2) && Inserted(l2, w, 2, l3)
    ensures DependsOn(l3, 2, 0) && DependsOn(l3, 2, 1) && (Compare(w, u) == Precedes || Compare(w, v) == Precedes)
    ensures if Circle(u, v, w) then DependsOn(l3, 1, 0) else DependsOn(l3, 0, 1)
    ensures forall x :: !DependsOn(l3, x, x)
    ensures l3.runQueue != []
  {
    hide Inserted, Compare, DependsOn;
    InsertOnly(u);
    l1 := Single(u);
    if Circle(u, v, w) {
      InsertAfter(u, v);
      InsertLast(u, 0, v, 1, w);
      l2, l3 := Pair(u, 0, v, 1), Triple(u, 0, v, 1, w);
      ChainPaths(u, 0, v, 1, w);
    } else {
      InsertBefore(v, u);
      InsertLast(v, 1, u, 0, w);
      l2, l3 := Pair(v, 1, u, 0), Triple(v, 1, u, 0, w);
      ChainPaths(v, 1, u, 0, w);
    }
  }

  lemma ChainPaths(f: OperatorEvent, a: Node, s: OperatorEvent, b: Node, e: OperatorEvent)
    requires a != b && a != 2 && b != 2
    ensures var l := Triple(f, a, s, b, e);
      DependsOn(l, b, a) && DependsOn(l, 2, b) && DependsOn(l, 2, a) && forall x :: !DependsOn(l, x, x)
  {
    var l := Triple(f, a, s, b, e);
    assert Path(l, [b, a]) && Path(l, [2, b]) && Path(l, [2, b, a]);
    forall p | Path(l, p) && |p| > 1 ensures p[|p| - 1] != p[0] {
      EdgeAt(l, p, 0);
      if |p| > 2 { EdgeAt(l, p, 1); }
      if |p| > 3 { EdgeAt(l, p, 2); }
    }
  }

  lemma EdgeAt(l: Lattice, p: seq<Node>, i: int)
    requires Path(l, p) && 0 <= i < |p| - 1
    ensures (p[i], p[i + 1]) in l.edges
  {
  }
}
