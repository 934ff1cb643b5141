/** How many watermark callbacks may share a timestamp and a priority: three are harmless, four can bring the lattice to
    a standstill. */
module Ties {
  import opened Timestamps
  import opened OperatorEvents
  import opened Basics
  import opened LatticeModel
  import opened LatticeSearch
  import opened LatticeSteps

  /** Two messages and four watermarks, in order of arrival. */
  datatype Tie = Tie(m0: OperatorEvent, m1: OperatorEvent,
                     w0: OperatorEvent, w1: OperatorEvent, w2: OperatorEvent, w3: OperatorEvent)

  ghost predicate TiedMarks(a: OperatorEvent, b: OperatorEvent) { a.isWatermark && b.isWatermark && Tied(a, b) }

  /** The watermarks tie with each other, and the messages go before them. */
  ghost predicate IsTie(x: Tie) {
    && StreamMade(x.m0) && StreamMade(x.m1)
    && TiedMarks(x.w0, x.w1) && TiedMarks(x.w0, x.w2) && TiedMarks(x.w0, x.w3)
    && TiedMarks(x.w1, x.w2) && TiedMarks(x.w1, x.w3) && TiedMarks(x.w2, x.w3)
    && Le(x.m0.timestamp, x.w0.timestamp) && Le(x.m1.timestamp, x.w0.timestamp)
  }

  /** Everything in the lattice waits, and e follows it; a message precedes e, and a watermark follows it in turn. */
  ghost predicate Setting(l: Lattice, e: OperatorEvent) {
    forall v <- l.forest :: l.forest[v].Some? && Relates(l.forest[v].value, e)
  }

  ghost predicate Relates(x: OperatorEvent, e: OperatorEvent) {
    Compare(e, x) == Follows && Compare(x, e) == if x.isWatermark then Follows else Precedes
  }

  lemma Relations(x: Tie)
    requires IsTie(x)
    ensures Compare(x.m1, x.m0) == Unordered
    ensures Relates(x.m0, x.w0) && Relates(x.m1, x.w0)
    ensures Relates(x.m0, x.w1) && Relates(x.m1, x.w1) && Relates(x.w0, x.w1)
    ensures Relates(x.m0, x.w2) && Relates(x.m1, x.w2) && Relates(x.w0, x.w2) && Relates(x.w1, x.w2)
    ensures Relates(x.m0, x.w3) && Relates(x.m1, x.w3) && Relates(x.w0, x.w3) && Relates(x.w1, x.w3) && Relates(x.w2, x.w3)
  {
    hide Compare, Le;
    MessagesUnordered(x.m1, x.m0);
    SameTime(x.w0, x.w1);
    SameTime(x.w0, x.w2);
    SameTime(x.w0, x.w3);
    MessageRelates(x.m0, x.w0);
    MessageRelates(x.m0, x.w1);
    MessageRelates(x.m0, x.w2);
    MessageRelates(x.m0, x.w3);
    MessageRelates(x.m1, x.w0);
    MessageRelates(x.m1, x.w1);
    MessageRelates(x.m1, x.w2);
    MessageRelates(x.m1, x.w3);
  }

  lemma SameTime(a: OperatorEvent, b: OperatorEvent)
    requires TiedMarks(a, b)
    ensures a.timestamp == b.timestamp
  {
    TotalOrder(a.timestamp, b.timestamp);
  }

  lemma MessageRelates(m: OperatorEvent, w: OperatorEvent)
    requires StreamMade(m) && w.isWatermark && Le(m.timestamp, w.timestamp)
    ensures Relates(m, w)
  {
    MessageBeforeWatermark(m, w);
  }

  ghost function Queue(x: Tie): seq<RunnableEvent> {
    [RunnableEvent(0, Some(x.m0.timestamp)), RunnableEvent(1, Some(x.m1.timestamp))]
  }

  ghost function One(x: Tie): Lattice { Lattice(map[0 := Some(x.m0)], {}, [0], [RunnableEvent(0, Some(x.m0.timestamp))]) }

  ghost function Two(x: Tie): Lattice { Lattice(map[0 := Some(x.m0), 1 := Some(x.m1)], {}, [0, 1], Queue(x)) }

  ghost function Three(x: Tie): Lattice {
    Lattice(map[0 := Some(x.m0), 1 := Some(x.m1), 2 := Some(x.w0)], {(2, 0), (2, 1)}, [0, 1], Queue(x))
  }

  ghost function Four(x: Tie): Lattice {
    Lattice(map[0 := Some(x.m0), 1 := Some(x.m1), 2 := Some(x.w0), 3 := Some(x.w1)], {(2, 0), (2, 1), (3, 2)}, [0, 1], Queue(x))
  }

  ghost function Five(x: Tie): Lattice {
    Lattice(map[0 := Some(x.m0), 1 := Some(x.m1), 2 := Some(x.w0), 3 := Some(x.w1), 4 := Some(x.w2)],
      {(2, 0), (2, 1), (3, 2), (4, 3)}, [0, 1], Queue(x))
  }

  ghost function Six(x: Tie): Lattice {
    Lattice(map[0 := Some(x.m0), 1 := Some(x.m1), 2 := Some(x.w0), 3 := Some(x.w1), 4 := Some(x.w2), 5 := Some(x.w3)],
      {(2, 0), (3, 2), (4, 3), (5, 4), (5, 1), (2, 5)}, [0, 1], Queue(x))
  }

  lemma Settings(x: Tie)
    requires IsTie(x)
    ensures Setting(Two(x), x.w0) && Setting(Three(x), x.w1) && Setting(Four(x), x.w2) && Setting(Five(x), x.w3)
    ensures x.w0.isWatermark && x.w1.isWatermark && x.w2.isWatermark && x.w3.isWatermark
    ensures !x.m0.isWatermark && !x.m1.isWatermark
  {
    hide Relates;
    Relations(x);
  }

  // ---------------------------------------------------------------------------------------------
  // Steps of the search.

  lemma Start(l: Lattice, e: OperatorEvent, st: Search) returns (st': Search)
    requires st.stack == [] && st.next < |l.leaves|
    ensures st' == st.(stack := [l.leaves[st.next]], next := st.next + 1) && Step(l, e, st, st')
  {
    st' := st.(stack := [l.leaves[st.next]], next := st.next + 1);
    assert Starts(l, st, st');
  }

  /** The top of the stack has at most the one parent p that is new. */
  lemma Discover(l: Lattice, e: OperatorEvent, st: Search, more: seq<Node>) returns (st': Search)
    requires st.stack != [] && st.stack[|st.stack| - 1] !in st.discovered
    requires forall p :: p in more <==> (p, st.stack[|st.stack| - 1]) in l.edges && p !in st.discovered + {st.stack[|st.stack| - 1]}
    ensures st' == st.(discovered := st.discovered + {st.stack[|st.stack| - 1]}, stack := st.stack + more) && Step(l, e, st, st')
  {
    st' := st.(discovered := st.discovered + {st.stack[|st.stack| - 1]}, stack := st.stack + more);
    assert st'.stack[|st.stack|..] == more;
    assert Discovers(l, st, st');
  }

  /** A visited node that an ancestor already covers ends the walk from this leaf. */
  lemma VisitCovered(l: Lattice, e: OperatorEvent, st: Search, u: Node) returns (st': Search)
    requires st.stack != [] && u in st.preceding && (u, st.stack[|st.stack| - 1]) in l.edges
    requires st.stack[|st.stack| - 1] in st.discovered && st.stack[|st.stack| - 1] !in st.finished
    ensures var v := st.stack[|st.stack| - 1];
      st' == st.(stack := [], finished := st.finished + {v}, preceding := st.preceding + {v}) && Step(l, e, st, st')
  {
    var v := st.stack[|st.stack| - 1];
    assert Covered(l, st, v);
    st' := Visit(l, st, Verdict(l, e, v), Above(l, e, v));
    assert Visits(l, e, st, st');
  }

  /** A visited node that the new event follows. */
  lemma VisitFollows(l: Lattice, e: OperatorEvent, st: Search, above: set<Node>) returns (st': Search)
    requires st.stack != [] && st.stack[|st.stack| - 1] in st.discovered && st.stack[|st.stack| - 1] !in st.finished
    requires st.stack[|st.stack| - 1] in l.forest && Setting(l, e)
    requires forall u <- st.preceding :: (u, st.stack[|st.stack| - 1]) !in l.edges
    requires forall p :: p in above <==> p in l.forest && (p, st.stack[|st.stack| - 1]) in l.edges && l.forest[p].value.isWatermark
    ensures var v := st.stack[|st.stack| - 1];
      && st' == st.(stack := st.stack[..|st.stack| - 1], finished := st.finished + {v}, children := st.children + {v},
                    preceding := st.preceding + {v}, parents := st.parents + above,
                    redundant := st.redundant + set p <- above :: (p, v))
      && Step(l, e, st, st')
  {
    hide Compare;
    var v := st.stack[|st.stack| - 1];
    forall p ensures p in Above(l, e, v) <==> p in above {
      if p in l.forest { assert Relates(l.forest[p].value, e); }
    }
    assert Above(l, e, v) == above;
    assert !Covered(l, st, v) && Verdict(l, e, v) == Follows && !Panics(l, e, st, v);
    st' := Visit(l, st, Verdict(l, e, v), Above(l, e, v));
    assert Visits(l, e, st, st');
  }

  ghost predicate Reached(l: Lattice, e: OperatorEvent, st: Search) {
    exists tr: seq<Search> :: Trace(l, e, tr) && tr[|tr| - 1] == st
  }

  lemma Begin(l: Lattice, e: OperatorEvent)
    ensures Reached(l, e, START)
  {
    assert Trace(l, e, [START]);
  }

  lemma Reach(l: Lattice, e: OperatorEvent, st: Search, st': Search)
    requires Reached(l, e, st) && Step(l, e, st, st')
    ensures Reached(l, e, st')
  {
    hide Step;
    var tr: seq<Search> :| Trace(l, e, tr) && tr[|tr| - 1] == st;
    Extend(l, e, tr, st');
    assert (tr + [st'])[|tr|] == st';
  }

  lemma Finish(l: Lattice, e: OperatorEvent, st: Search, n: Node)
    requires Reached(l, e, st) && Final(l, st) && n !in l.forest
    ensures Inserted(l, e, n, Splice(l, e, n, st))
  {
    var tr: seq<Search> :| Trace(l, e, tr) && tr[|tr| - 1] == st;
  }

  // ---------------------------------------------------------------------------------------------
  // Six insertions.

  lemma InsertFirst(x: Tie)
    ensures Inserted(EMPTY, x.m0, 0, One(x))
  {
    Begin(EMPTY, x.m0);
    Finish(EMPTY, x.m0, START, 0);
    assert Splice(EMPTY, x.m0, 0, START) == One(x);
  }

  lemma VisitUnordered(x: Tie, st: Search) returns (st': Search)
    requires IsTie(x)
    requires st.stack == [0] && 0 in st.discovered && 0 !in st.finished && st.preceding == {}
    ensures st' == st.(stack := [], finished := st.finished + {0}) && Step(One(x), x.m1, st, st')
  {
    hide Compare;
    Relations(x);
    assert Verdict(One(x), x.m1, 0) == Unordered && Above(One(x), x.m1, 0) == {} && !Panics(One(x), x.m1, st, 0);
    st' := Visit(One(x), st, Unordered, {});
    assert Visits(One(x), x.m1, st, st');
  }

  lemma InsertSecond(x: Tie)
    requires IsTie(x)
    ensures Inserted(One(x), x.m1, 1, Two(x))
  {
    hide Step, Reached, Inserted;
    var l, e := One(x), x.m1;
    Begin(l, e);
    var a := Start(l, e, START);
    Reach(l, e, START, a);
    var b := Discover(l, e, a, []);
    Reach(l, e, a, b);
    var c := VisitUnordered(x, b);
    Reach(l, e, b, c);
    Finish(l, e, c, 1);
    assert Without([0], {}) == [0] && QueueWithout(l.runQueue, {}) == l.runQueue;
    assert Splice(l, e, 1, c) == Two(x);
  }

  lemma KeepAll(q: seq<RunnableEvent>)
    requires |q| == 2
    ensures Without([0, 1], {}) == [0, 1] && QueueWithout(q, {}) == q
  {
    assert Without([1], {}) == [1] && QueueWithout(q[1..], {}) == q[1..];
    assert [0, 1][1..] == [1] && q == [q[0]] + q[1..];
  }

  /** Where the search ends, the lattice is l' with the new edges. */
  lemma Spliced(l: Lattice, e: OperatorEvent, n: Node, st: Search, l': Lattice)
    requires l.leaves == [0, 1] == l'.leaves && |l.runQueue| == 2 && l.runQueue == l'.runQueue
    requires Reached(l, e, st) && Final(l, st) && n !in l.forest
    requires st.demoted == {} && st.preceding != {}
    requires l'.forest == l.forest[n := Some(e)]
    requires l'.edges == l.edges + (set c <- st.children :: (n, c)) + (set p <- st.parents :: (p, n)) - st.redundant
    ensures Inserted(l, e, n, l')
  {
    hide Reached, Inserted;
    Finish(l, e, st, n);
    KeepAll(l.runQueue);
    assert Splice(l, e, n, st) == l';
  }

  lemma InsertThird(x: Tie)
    requires IsTie(x)
    ensures Inserted(Two(x), x.w0, 2, Three(x))
  {
    hide IsTie, Setting, Step, Reached, Inserted;
    Settings(x);
    var l, e := Two(x), x.w0;
    Begin(l, e);
    var a := Start(l, e, START);
    Reach(l, e, START, a);
    var b := Discover(l, e, a, []);
    Reach(l, e, a, b);
    var c := VisitFollows(l, e, b, {});
    Reach(l, e, b, c);
    assert c == Search(1, [], {0}, {0}, {0}, {0}, {}, {}, {});
    var d := Start(l, e, c);
    Reach(l, e, c, d);
    var f := Discover(l, e, d, []);
    Reach(l, e, d, f);
    var g := VisitFollows(l, e, f, {});
    Reach(l, e, f, g);
    assert g == Search(2, [], {0, 1}, {0, 1}, {0, 1}, {0, 1}, {}, {}, {});
    Spliced(l, e, 2, g, Three(x));
  }

  lemma FourthFirstLeaf(x: Tie)
    requires IsTie(x)
    ensures Reached(Three(x), x.w1, Search(1, [], {0, 2}, {0, 2}, {0, 2}, {2}, {}, {}, {}))
  {
    hide IsTie, Setting, Step, Reached;
    Settings(x);
    var l, e := Three(x), x.w1;
    Begin(l, e);
    var a := Start(l, e, START);
    Reach(l, e, START, a);
    var b := Discover(l, e, a, [2]);
    Reach(l, e, a, b);
    var c := Discover(l, e, b, []);
    Reach(l, e, b, c);
    var d := VisitFollows(l, e, c, {});
    Reach(l, e, c, d);
    assert d.stack == [0];
    var f := VisitCovered(l, e, d, 2);
    Reach(l, e, d, f);
    assert f == Search(1, [], {0, 2}, {0, 2}, {0, 2}, {2}, {}, {}, {});
  }

  lemma InsertFourth(x: Tie)
    requires IsTie(x)
    ensures Inserted(Three(x), x.w1, 3, Four(x))
  {
    hide IsTie, Setting, Step, Reached, Inserted;
    Settings(x);
    var l, e := Three(x), x.w1;
    FourthFirstLeaf(x);
    var f := Search(1, [], {0, 2}, {0, 2}, {0, 2}, {2}, {}, {}, {});
    var a := Start(l, e, f);
    Reach(l, e, f, a);
    var b := Discover(l, e, a, []);
    Reach(l, e, a, b);
    var c := VisitCovered(l, e, b, 2);
    Reach(l, e, b, c);
    assert c.children == {2} && c.parents == {} && c.redundant == {};
    Spliced(l, e, 3, c, Four(x));
  }

  lemma FifthFirstLeaf(x: Tie)
    requires IsTie(x)
    ensures Reached(Four(x), x.w2, Search(1, [], {0, 2, 3}, {2, 3}, {2, 3}, {3}, {}, {}, {}))
  {
    hide IsTie, Setting, Step, Reached;
    Settings(x);
    var l, e := Four(x), x.w2;
    Begin(l, e);
    var a := Start(l, e, START);
    Reach(l, e, START, a);
    var b := Discover(l, e, a, [2]);
    Reach(l, e, a, b);
    var c := Discover(l, e, b, [3]);
    Reach(l, e, b, c);
    var d := Discover(l, e, c, []);
    Reach(l, e, c, d);
    var f := VisitFollows(l, e, d, {});
    Reach(l, e, d, f);
    assert f.stack == [0, 2];
    var g := VisitCovered(l, e, f, 3);
    Reach(l, e, f, g);
    assert g == Search(1, [], {0, 2, 3}, {2, 3}, {2, 3}, {3}, {}, {}, {});
  }

  lemma InsertFifth(x: Tie)
    requires IsTie(x)
    ensures Inserted(Four(x), x.w2, 4, Five(x))
  {
    hide IsTie, Setting, Step, Reached, Inserted;
    Settings(x);
    var l, e := Four(x), x.w2;
    FifthFirstLeaf(x);
    var f := Search(1, [], {0, 2, 3}, {2, 3}, {2, 3}, {3}, {}, {}, {});
    var a := Start(l, e, f);
    Reach(l, e, f, a);
    var b := Discover(l, e, a, []);
    Reach(l, e, a, b);
    var c := VisitCovered(l, e, b, 2);
    Reach(l, e, b, c);
    assert c.children == {3} && c.parents == {} && c.redundant == {};
    Spliced(l, e, 4, c, Five(x));
  }

  lemma SixthClimb(x: Tie)
    requires IsTie(x)
    ensures Reached(Five(x), x.w3, Search(1, [0, 2, 3, 4], {0, 2, 3, 4}, {}, {}, {}, {}, {}, {}))
  {
    hide IsTie, Setting, Step, Reached;
    Settings(x);
    var l, e := Five(x), x.w3;
    Begin(l, e);
    var a := Start(l, e, START);
    Reach(l, e, START, a);
    var b := Discover(l, e, a, [2]);
    Reach(l, e, a, b);
    var c := Discover(l, e, b, [3]);
    Reach(l, e, b, c);
    var d := Discover(l, e, c, [4]);
    Reach(l, e, c, d);
    var f := Discover(l, e, d, []);
    Reach(l, e, d, f);
    assert f == Search(1, [0, 2, 3, 4], {0, 2, 3, 4}, {}, {}, {}, {}, {}, {});
  }

  /** The walk from the first leaf is abandoned at node 3, so that nothing is known about nodes 2 and 0. */
  lemma SixthFirstLeaf(x: Tie)
    requires IsTie(x)
    ensures Reached(Five(x), x.w3, Search(1, [], {0, 2, 3, 4}, {3, 4}, {3, 4}, {4}, {}, {}, {}))
  {
    hide IsTie, Setting, Step, Reached;
    Settings(x);
    var l, e := Five(x), x.w3;
    SixthClimb(x);
    var a := Search(1, [0, 2, 3, 4], {0, 2, 3, 4}, {}, {}, {}, {}, {}, {});
    var b := VisitFollows(l, e, a, {});
    Reach(l, e, a, b);
    assert b.stack == [0, 2, 3];
    var c := VisitCovered(l, e, b, 4);
    Reach(l, e, b, c);
    assert c == Search(1, [], {0, 2, 3, 4}, {3, 4}, {3, 4}, {4}, {}, {}, {});
  }

  /** From the second leaf, node 2 looks like a parent of the new event. */
  lemma InsertSixth(x: Tie)
    requires IsTie(x)
    ensures Inserted(Five(x), x.w3, 5, Six(x))
  {
    hide IsTie, Setting, Step, Reached, Inserted;
    Settings(x);
    var l, e := Five(x), x.w3;
    SixthFirstLeaf(x);
    var f := Search(1, [], {0, 2, 3, 4}, {3, 4}, {3, 4}, {4}, {}, {}, {});
    var a := Start(l, e, f);
    Reach(l, e, f, a);
    var b := Discover(l, e, a, []);
    Reach(l, e, a, b);
    var c := VisitFollows(l, e, b, {2});
    Reach(l, e, b, c);
    SixthEdges(x, c);
    Spliced(l, e, 5, c, Six(x));
  }

  lemma SixthEdges(x: Tie, c: Search)
    requires c.children == {4} + {1} && c.parents == {} + {2} && c.redundant == {} + set p <- {2} :: (p, 1)
    ensures Six(x).edges == Five(x).edges + (set d <- c.children :: (5, d)) + (set p <- c.parents :: (p, 5)) - c.redundant
  {
    assert c.redundant == {(2, 1)};
  }

  /** The six insertions, and the circle of watermarks they end in. */
  lemma SixInsertions(x: Tie)
    requires IsTie(x)
    ensures Inserted(EMPTY, x.m0, 0, One(x)) && Inserted(One(x), x.m1, 1, Two(x)) && Inserted(Two(x), x.w0, 2, Three(x))
    ensures Inserted(Three(x), x.w1, 3, Four(x)) && Inserted(Four(x), x.w2, 4, Five(x)) && Inserted(Five(x), x.w3, 5, Six(x))
    ensures forall v :: 2 <= v <= 5 ==> DependsOn(Six(x), v, v)
  {
    hide IsTie, Inserted, DependsOn;
    InsertFirst(x);
    InsertSecond(x);
    InsertThird(x);
    InsertFourth(x);
    InsertFifth(x);
    InsertSixth(x);
    forall v | 2 <= v <= 5 ensures DependsOn(Six(x), v, v) { InACircle(x, v); }
  }

  lemma InACircle(x: Tie, v: Node)
    requires 2 <= v <= 5
    ensures DependsOn(Six(x), v, v)
  {
    var p := if v == 5 then [5, 4, 3, 2, 5] else if v == 4 then [4, 3, 2, 5, 4] else if v == 3 then [3, 2, 5, 4, 3] else [2, 5, 4, 3, 2];
    assert |p| == 5 && p[0] == v == p[4];
    assert Path(Six(x), p);
  }
}
