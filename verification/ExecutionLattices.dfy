/** The lattice as the runtime keeps it: an object whose fields are updated in place. Each method is
    proved to perform the step that the lattice model describes. */
module ExecutionLattices {
  import opened Timestamps
  import opened OperatorEvents
  import opened Basics
  import opened LatticeModel
  import opened LatticeSearch
  import opened LatticeOrder
  import opened LatticeSteps

  ghost function AsSet<T>(s: seq<T>): set<T> { set x <- s }

  /** The run queue's order is total, so the entry that `pop` returns is unique. */
  lemma RunnableTotal(a: RunnableEvent, b: RunnableEvent)
    requires a.timestamp.Some? && b.timestamp.Some?
    ensures CmpRunnable(b, a) == CmpRunnable(a, b).Reverse()
    ensures CmpRunnable(a, b) == Equal <==> a == b
  {
    TotalOrder(a.timestamp.value, b.timestamp.value);
  }

  lemma RunnableTransitive(a: RunnableEvent, b: RunnableEvent, c: RunnableEvent)
    requires a.timestamp.Some? && b.timestamp.Some? && c.timestamp.Some?
    requires CmpRunnable(a, b) != Less && CmpRunnable(b, c) != Less
    ensures CmpRunnable(a, c) != Less
  {
    var s, t, u := a.timestamp.value, b.timestamp.value, c.timestamp.value;
    TotalOrder(s, t);
    TotalOrder(t, u);
    TotalOrder(s, u);
    if Le(s, t) && Le(t, u) { Transitive(s, t, u); }
  }

  method Pick<T>(s: set<T>) returns (v: T)
    requires s != {}
    ensures v in s
  {
    v :| v in s;
  }

  lemma {:induction false} QueueWithoutAppend(q: seq<RunnableEvent>, r: RunnableEvent, drop: set<Node>)
    ensures QueueWithout(q + [r], drop) == QueueWithout(q, drop) + if r.node in drop then [] else [r]
  {
    if q == [] {
      assert q + [r] == [r];
      assert QueueWithout([r][1..], drop) == [];
    } else {
      var s := q[1..];
      QueueWithoutAppend(s, r, drop);
      assert (q + [r])[1..] == s + [r];
      var first := if q[0].node in drop then [] else [q[0]];
      assert QueueWithout(q + [r], drop) == first + QueueWithout(s + [r], drop);
      assert QueueWithout(q, drop) == first + QueueWithout(s, drop);
    }
  }

  lemma NothingDropped(s: seq<Node>, q: seq<RunnableEvent>)
    ensures Without(s, {}) == s && QueueWithout(q, {}) == q
  {
  }

  /** A comparison of the new event with a waiting one that panics. */
  ghost predicate HasCircular(l: Lattice, e: OperatorEvent) {
    exists v :: IsWaiting(l, v)
      && (Compare(e, l.forest[v].value) == Circular || Compare(l.forest[v].value, e) == Circular)
  }

  lemma StillDependent(l: Lattice, n: Node, p: Node, edges: set<(Node, Node)>)
    requires EdgesLive(l) && (p, n) in l.edges && p != n
    requires edges == set x <- l.edges | x.0 != n && x.1 != n
    ensures Promoted(l, n, p) <==> forall c <- l.forest.Keys - {n} :: (p, c) !in edges
  {
  }

  class ExecutionLattice {
    var forest: map<Node, Option<OperatorEvent>>
    var edges: set<(Node, Node)>
    var leaves: seq<Node>
    var runQueue: seq<RunnableEvent>

    ghost function State(): Lattice
      reads this
    {
      Lattice(forest, edges, leaves, runQueue)
    }

    constructor ()
      ensures State() == EMPTY
    {
      forest, edges, leaves, runQueue := map[], {}, [], [];
    }

    /** `neighbors_directed(v, Incoming)`. */
    function Incoming(v: Node): (ps: set<Node>)
      reads this
      ensures forall p :: p in ps ==> p in forest && (p, v) in edges
      ensures EdgesLive(State()) ==> forall p :: (p, v) in edges ==> p in ps
    {
      set p <- forest | (p, v) in edges
    }

    function OutDegreeZero(v: Node): (b: bool)
      reads this
      ensures EdgesLive(State()) ==> (b <==> forall c :: (v, c) !in edges)
    {
      forall c <- forest :: (v, c) !in edges
    }

    /** The parents of v that the new event precedes, in the order they are met. */
    method ParentsAbove(e: OperatorEvent, v: Node) returns (above: seq<Node>, panicked: bool)
      requires WellFormed(State())
      ensures panicked <==> exists p :: (p, v) in edges && IsWaiting(State(), p) && Compare(forest[p].value, e) == Circular
      ensures !panicked ==> AsSet(above) == Above(State(), e, v) && Distinct(above)
    {
      above := [];
      var rest := Incoming(v);
      ghost var seen: set<Node> := {};
      while rest != {}
        invariant rest !! seen && rest + seen == Incoming(v)
        invariant forall p <- seen :: Compare(forest[p].value, e) != Circular
        invariant forall p :: p in above <==> p in seen && Compare(forest[p].value, e) == Follows
        invariant Distinct(above)
        decreases rest
      {
        var p := Pick(rest);
        assert IsWaiting(State(), p);
        var c := Compare(forest[p].value, e);
        if c == Circular {
          return above, true;
        }
        if c == Follows { above := above + [p]; }
        rest, seen := rest - {p}, seen + {p};
      }
      panicked := false;
      forall p ensures p in Above(State(), e, v) <==> p in above {
        assert (p, v) in edges ==> p in seen && IsWaiting(State(), p);
      }
    }

    /** Pushes the undiscovered parents of v, in any order. */
    method PushParents(v: Node, discovered: set<Node>, stack: seq<Node>) returns (stack': seq<Node>)
      requires EdgesLive(State())
      ensures stack <= stack'
      ensures forall p :: p in stack'[|stack|..] <==> (p, v) in edges && p !in discovered
    {
      stack' := stack;
      var rest := Incoming(v) - discovered;
      while rest != {}
        invariant stack <= stack'
        invariant forall p :: (p, v) in edges && p !in discovered <==> p in rest || p in stack'[|stack|..]
        decreases rest
      {
        var p := Pick(rest);
        ghost var before := stack'[|stack|..];
        stack', rest := stack' + [p], rest - {p};
        assert stack'[|stack|..] == before + [p];
      }
    }

    /** Relates the new event to the visited node, as the body of the search loop does. */
    method VisitNode(e: OperatorEvent, v: Node, preceding: set<Node>, children: set<Node>, parents: set<Node>,
                     demoted: seq<Node>, redundant: seq<(Node, Node)>, ghost st: Search)
      returns (preceding': set<Node>, children': set<Node>, parents': set<Node>,
               demoted': seq<Node>, redundant': seq<(Node, Node)>, abandon: bool, panicked: bool)
      requires WellFormed(State()) && Sane(State(), st) && v in forest
      requires st.stack != [] && st.stack[|st.stack| - 1] == v && v !in st.finished
      requires st.preceding == preceding && st.children == children && st.parents == parents
      requires st.demoted == AsSet(demoted) && st.redundant == AsSet(redundant) && Distinct(redundant)
      ensures panicked <==> Panics(State(), e, st, v)
      ensures !panicked ==> Distinct(redundant')
      ensures !panicked ==> (
        Visit(State(), st, Verdict(State(), e, v), Above(State(), e, v))
        == st.(stack := if abandon then [] else st.stack[..|st.stack| - 1], finished := st.finished + {v},
               preceding := preceding', children := children', parents := parents',
               demoted := AsSet(demoted'), redundant := AsSet(redundant')))
    {
      preceding', children', parents', demoted', redundant' := preceding, children, parents, demoted, redundant;
      abandon, panicked := false, false;
      if exists u <- Incoming(v) :: u in preceding {
        assert Covered(State(), st, v);
        preceding' := preceding + {v};
        abandon := true;
        return;
      }
      assert !Covered(State(), st, v);
      var verdict := if forest[v].Some? then Compare(e, forest[v].value) else Unordered;
      assert verdict == Verdict(State(), e, v);
      match verdict {
        case Circular =>
          panicked := true;
        case Precedes =>
          if OutDegreeZero(v) {
            parents' := parents + {v};
            if v in QueueNodes(runQueue) {
              demoted' := demoted + [v];
              assert AsSet(demoted') == AsSet(demoted) + {v};
            }
          }
        case _ =>
          var above;
          above, panicked := ParentsAbove(e, v);
          if panicked { return; }
          parents' := parents + set p <- above;
          if verdict == Follows {
            children', preceding' := children + {v}, preceding + {v};
            redundant' := NoteEdges(above, v, redundant);
          }
      }
    }

    /** Notes the edges from the given parents to v, none of which is noted yet. */
    static method NoteEdges(above: seq<Node>, v: Node, redundant: seq<(Node, Node)>) returns (redundant': seq<(Node, Node)>)
      requires Distinct(above) && Distinct(redundant) && forall p :: (p, v) !in redundant
      ensures Distinct(redundant')
      ensures AsSet(redundant') == AsSet(redundant) + set p <- AsSet(above) :: (p, v)
    {
      redundant' := redundant;
      for i := 0 to |above|
        invariant Distinct(redundant')
        invariant forall x :: x in redundant' <==> x in redundant || (x.1 == v && x.0 in above[..i])
      {
        var p := above[i];
        assert above[..i + 1] == above[..i] + [p];
        assert p !in above[..i] && (p, v) !in redundant';
        redundant' := redundant' + [(p, v)];
      }
      assert above[..|above|] == above;
      ghost var noted := set p <- AsSet(above) :: (p, v);
      forall x ensures x in redundant' <==> x in redundant || x in noted {
        if x.1 == v && x.0 in above { assert x == (x.0, v) && x.0 in AsSet(above); }
      }
    }

    /** The search of one insertion: where the new event has to be spliced in. */
    method FindPlace(e: OperatorEvent)
      returns (children: set<Node>, parents: set<Node>, demoted: seq<Node>, redundant: seq<(Node, Node)>,
               independent: bool, panicked: bool, ghost tr: seq<Search>)
      requires WellFormed(State())
      ensures !panicked ==>
        && Trace(State(), e, tr) && Final(State(), tr[|tr| - 1])
        && var st := tr[|tr| - 1];
        && st.children == children && st.parents == parents && (independent <==> st.preceding == {})
        && st.demoted == AsSet(demoted) && st.redundant == AsSet(redundant) && Distinct(redundant)
      ensures panicked ==> HasCircular(State(), e)
    {
      var k: nat, stack, discovered, finished, preceding := 0, [], {}, {}, {};
      children, parents, demoted, redundant, panicked := {}, {}, [], [], false;
      ghost var l := State();
      tr := [START];
      while stack != [] || k < |leaves|
        invariant k <= |leaves| && discovered <= forest.Keys && Distinct(redundant)
        invariant Trace(l, e, tr)
        invariant tr[|tr| - 1] == Search(k, stack, discovered, finished, preceding, children, parents,
                                         AsSet(demoted), AsSet(redundant))
        invariant Sane(l, tr[|tr| - 1])
        decreases |leaves| - k, forest.Keys - discovered, |stack|
      {
        ghost var st := tr[|tr| - 1];
        if stack == [] {
          stack, k := [leaves[k]], k + 1;
        } else {
          var v := stack[|stack| - 1];
          if v !in discovered {
            discovered := discovered + {v};
            stack := PushParents(v, discovered, stack);
          } else if v in finished {
            stack := stack[..|stack| - 1];
          } else {
            var abandon;
            preceding, children, parents, demoted, redundant, abandon, panicked :=
              VisitNode(e, v, preceding, children, parents, demoted, redundant, st);
            if panicked { independent := false; return; }
            finished := finished + {v};
            stack := if abandon then [] else stack[..|stack| - 1];
          }
        }
        ghost var st' := Search(k, stack, discovered, finished, preceding, children, parents,
                                AsSet(demoted), AsSet(redundant));
        assert Step(l, e, st, st');
        Extend(l, e, tr, st');
        StepSane(l, e, st, st');
        tr := tr + [st'];
      }
      independent := preceding == {};
    }

    /** `add_node`: some index that no live node has; indices of removed nodes may come back. */
    method FreshIndex() returns (n: Node)
      ensures n !in forest
    {
      n := 0;
      while n in forest
        decreases set v <- forest | v >= n
      {
        ghost var s, s' := set v <- forest | v >= n, set v <- forest | v >= n + 1;
        assert n in s && n !in s' && s' <= s;
        n := n + 1;
      }
    }

    /** Removes the given edges, each of which must be there. */
    method DropEdges(redundant: seq<(Node, Node)>)
      requires Distinct(redundant) && forall x <- redundant :: x in edges
      modifies this`edges
      ensures edges == old(edges) - AsSet(redundant)
    {
      for i := 0 to |redundant|
        invariant edges == old(edges) - AsSet(redundant[..i])
      {
        var x := redundant[i];
        assert redundant[..i + 1] == redundant[..i] + [x] && x !in redundant[..i];
        assert x in edges;
        edges := edges - {x};
      }
      assert redundant[..|redundant|] == redundant;
    }

    /** Adds the node and its edges, drops the redundant ones, and updates the leaves and the run queue. */
    method Link(e: OperatorEvent, n: Node, children: set<Node>, parents: set<Node>, demoted: seq<Node>,
                redundant: seq<(Node, Node)>, independent: bool, ghost st: Search)
      requires Distinct(redundant) && forall x <- redundant :: x in edges
      requires st.children == children && st.parents == parents && (independent <==> st.preceding == {})
      requires st.demoted == AsSet(demoted) && st.redundant == AsSet(redundant)
      modifies this
      ensures State() == Splice(old(State()), e, n, st)
    {
      forest := forest[n := Some(e)];
      edges := edges + (set c <- children :: (n, c)) + (set p <- parents :: (p, n));
      DropEdges(redundant);
      UpdateLeaves(RunnableEvent(n, Some(e.timestamp)), demoted, independent);
    }

    method UpdateLeaves(r: RunnableEvent, demoted: seq<Node>, independent: bool)
      modifies this`leaves, this`runQueue
      ensures leaves == Without(old(leaves), AsSet(demoted)) + (if independent then [r.node] else [])
      ensures runQueue == QueueWithout(old(runQueue), AsSet(demoted)) + (if independent then [r] else [])
    {
      if |demoted| > 0 {
        leaves := Without(leaves, set d <- demoted);
        RebuildQueue(demoted);
      } else {
        assert AsSet(demoted) == {};
        NothingDropped(leaves, runQueue);
      }
      if independent {
        leaves := leaves + [r.node];
        runQueue := runQueue + [r];
      }
    }

    /** Drains the run queue and pushes back the entries that were not demoted. */
    method RebuildQueue(demoted: seq<Node>)
      modifies this`runQueue
      ensures runQueue == QueueWithout(old(runQueue), AsSet(demoted))
    {
      var drained := runQueue;
      runQueue := [];
      for i := 0 to |drained|
        invariant runQueue == QueueWithout(drained[..i], AsSet(demoted))
      {
        assert drained[..i + 1] == drained[..i] + [drained[i]];
        QueueWithoutAppend(drained[..i], drained[i], AsSet(demoted));
        if drained[i].node !in demoted { runQueue := runQueue + [drained[i]]; }
      }
      assert drained[..|drained|] == drained;
    }

    method AddEvent(e: OperatorEvent) returns (panicked: bool, ghost n: Node)
      requires WellFormed(State())
      modifies this
      ensures WellFormed(State())
      ensures !panicked ==> Inserted(old(State()), e, n, State())
      ensures panicked ==> State() == old(State()) && HasCircular(State(), e)
    {
      var children, parents, demoted, redundant, independent;
      ghost var tr;
      n := 0;
      children, parents, demoted, redundant, independent, panicked, tr := FindPlace(e);
      if panicked { return; }
      TraceSane(State(), e, tr);
      var idx := FreshIndex();
      n := idx;
      SpliceWellFormed(State(), e, n, tr[|tr| - 1]);
      forall x <- redundant ensures x in edges { var (p, c) := x; assert (p, c) in tr[|tr| - 1].redundant; }
      Link(e, idx, children, parents, demoted, redundant, independent, tr[|tr| - 1]);
    }

    /** `add_events`: inserts the batch one event at a time. `states` lists the lattice after each
        insertion and `ids` the nodes; an event whose comparison panics ends the batch. */
    method AddEvents(events: seq<OperatorEvent>) returns (panicked: bool, ghost states: seq<Lattice>, ghost ids: seq<Node>)
      requires WellFormed(State())
      modifies this
      ensures WellFormed(State())
      ensures |ids| <= |events| && |states| == |ids| + 1
      ensures states[0] == old(State()) && states[|ids|] == State()
      ensures forall i :: 0 <= i < |ids| ==> Inserted(states[i], events[i], ids[i], states[i + 1])
      ensures if panicked then |ids| < |events| && HasCircular(State(), events[|ids|]) else |ids| == |events|
    {
      hide Inserted, WellFormed, HasCircular;
      states, ids := [State()], [];
      for k := 0 to |events|
        invariant WellFormed(State())
        invariant |ids| == k && |states| == k + 1 && states[0] == old(State()) && states[k] == State()
        invariant forall i :: 0 <= i < k ==> Inserted(states[i], events[i], ids[i], states[i + 1])
      {
        ghost var n;
        panicked, n := AddEvent(events[k]);
        if panicked { return; }
        ghost var l := State();
        assert Inserted(states[k], events[k], n, l);
        states, ids := states + [l], ids + [n];
      }
      panicked := false;
    }

    /** `get_event`: hands out the first entry of the run queue together with its event. */
    method GetEvent() returns (r: Option<(OperatorEvent, Node)>)
      requires WellFormed(State())
      modifies this
      ensures WellFormed(State())
      ensures r.None? <==> old(runQueue) == []
      ensures r.None? ==> State() == old(State())
      ensures r.Some? ==> Fetched(old(State()), r.value.1, State())
      ensures r.Some? ==> old(IsWaiting(State(), r.value.1)) && r.value.0 == old(forest)[r.value.1].value
    {
      if runQueue == [] {
        return None;
      }
      var best := Greatest(runQueue);
      var n := runQueue[best].node;
      assert QueueNodes(runQueue)[best] == n && n in QueueNodes(runQueue);
      var event := forest[n].value;
      forest, runQueue := forest[n := None], RemoveAt(runQueue, best);
      assert Fetched(old(State()), n, State());
      FetchWellFormed(old(State()), n, State());
      r := Some((event, n));
    }

    /** `BinaryHeap::pop` returns a greatest entry. */
    static method Greatest(q: seq<RunnableEvent>) returns (best: nat)
      requires |q| > 0 && forall r <- q :: r.timestamp.Some?
      ensures best < |q| && forall r <- q :: CmpRunnable(q[best], r) != Less
    {
      best := 0;
      for i := 0 to |q|
        invariant best < |q|
        invariant forall j :: 0 <= j < i ==> CmpRunnable(q[best], q[j]) != Less
      {
        RunnableTotal(q[best], q[i]);
        RunnableTotal(q[i], q[i]);
        if CmpRunnable(q[best], q[i]) == Less {
          forall j | 0 <= j < i ensures CmpRunnable(q[i], q[j]) != Less {
            RunnableTransitive(q[i], q[best], q[j]);
          }
          best := i;
        }
      }
    }

    /** `mark_as_completed`: removes an executing node and promotes the parents it was holding back. */
    method MarkAsCompleted(n: Node)
      requires WellFormed(State()) && IsExecuting(State(), n)
      modifies this
      ensures WellFormed(State()) && Completed(old(State()), n, State())
    {
      var i := 0;
      assert n in leaves;
      while leaves[i] != n
        invariant i < |leaves| && n !in leaves[..i]
        decreases |leaves| - i
      {
        assert leaves == leaves[..i + 1] + leaves[i + 1..] && leaves[..i + 1] == leaves[..i] + [leaves[i]];
        i := i + 1;
      }
      leaves := RemoveAt(leaves, i);
      var parents := Incoming(n);
      forest, edges := forest - {n}, set x <- edges | x.0 != n && x.1 != n;
      ghost var up := Promote(parents, old(State()), n);
      assert State() == Unlink(old(State()), n, i, up);
      CompleteWellFormed(old(State()), n, State());
    }

    /** Parents of the removed node n that depend on nothing else become leaves and runnable. */
    method Promote(parents: set<Node>, ghost l: Lattice, ghost n: Node) returns (ghost up: seq<Node>)
      requires WellFormed(l) && IsExecuting(l, n) && IsSink(l, n)
      requires forall p :: p in parents <==> (p, n) in l.edges
      requires forest == l.forest - {n} && edges == set x <- l.edges | x.0 != n && x.1 != n
      modifies this`leaves, this`runQueue
      ensures Distinct(up) && forall p :: p in up <==> Promoted(l, n, p)
      ensures leaves == old(leaves) + up && runQueue == old(runQueue) + RunnableAll(l, up)
    {
      up := [];
      var rest := parents;
      while rest != {}
        invariant rest <= parents && Distinct(up)
        invariant forall p :: p in up <==> p in parents - rest && Promoted(l, n, p)
        invariant leaves == old(leaves) + up && runQueue == old(runQueue) + RunnableAll(l, up)
        decreases rest
      {
        var p := Pick(rest);
        rest := rest - {p};
        assert IsWaiting(l, p) && p != n;
        StillDependent(l, n, p, edges);
        if forall c <- forest :: (p, c) !in edges {
          var r := RunnableEvent(p, Some(forest[p].value.timestamp));
          assert RunnableAll(l, up + [p]) == RunnableAll(l, up) + [r];
          leaves, runQueue, up := leaves + [p], runQueue + [r], up + [p];
        }
      }
    }
  }
}
