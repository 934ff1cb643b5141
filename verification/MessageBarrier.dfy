/** Messages go before the watermarks that wait for them, whatever the watermarks access and however they tie: a waiting
    watermark keeps a path to every such message, or it is stuck for good. */
module MessageBarrier {
  import opened Basics
  import opened Timestamps
  import opened OperatorEvents
  import opened LatticeModel
  import opened LatticeSearch
  import opened LatticeOrder
  import opened LatticeSteps

  ghost predicate Reaches(l: Lattice, a: Node, b: Node) {
    exists p :: Path(l, p) && p[0] == a && p[|p| - 1] == b
  }

  /** Some chain of dependencies from b ends; otherwise b never becomes runnable. */
  ghost predicate Grounded(l: Lattice, b: Node) {
    exists v :: IsSink(l, v) && Reaches(l, b, v)
  }

  /** b cannot run before a has completed. */
  ghost predicate Kept(l: Lattice, a: Node, b: Node) { Reaches(l, b, a) || !Grounded(l, b) }

  /** Events as the read streams and bundles make them. */
  predicate IsMade(e: OperatorEvent) { e.isWatermark || StreamMade(e) }

  ghost predicate AllMade(l: Lattice) { forall v :: IsWaiting(l, v) ==> IsMade(l.forest[v].value) }

  /** Only watermarks have dependencies. */
  ghost predicate MarksDepend(l: Lattice) {
    forall a, b :: (a, b) in l.edges ==> IsWaiting(l, a) && l.forest[a].value.isWatermark
  }

  // ---------------------------------------------------------------------------------------------
  // Paths.

  lemma ReachSelf(l: Lattice, a: Node)
    ensures Reaches(l, a, a)
  {
    assert Path(l, [a]);
  }

  lemma ReachEdge(l: Lattice, a: Node, b: Node)
    requires (a, b) in l.edges
    ensures Reaches(l, a, b)
  {
    assert Path(l, [a, b]);
  }

  lemma ReachOn(l: Lattice, a: Node, b: Node, c: Node)
    requires Reaches(l, a, b) && Reaches(l, b, c)
    ensures Reaches(l, a, c)
  {
    var p :| Path(l, p) && p[0] == a && p[|p| - 1] == b;
    var q :| Path(l, q) && q[0] == b && q[|q| - 1] == c;
    var r := p + q[1..];
    forall i | 0 <= i < |r| - 1 ensures (r[i], r[i + 1]) in l.edges {
      if i < |p| - 1 {
        assert (p[i], p[i + 1]) in l.edges;
      } else {
        var k := i - (|p| - 1);
        assert (q[k], q[k + 1]) in l.edges;
      }
    }
    assert Path(l, r);
  }

  lemma PathTail(l: Lattice, p: seq<Node>)
    requires Path(l, p) && |p| > 1
    ensures Path(l, p[1..])
    ensures var x, y := p[0], p[1]; (x, y) in l.edges
  {
    var q := p[1..];
    forall i | 0 <= i < |q| - 1 ensures (q[i], q[i + 1]) in l.edges { assert (p[i + 1], p[i + 2]) in l.edges; }
    assert (p[0], p[0 + 1]) in l.edges;
  }

  lemma GroundedThrough(l: Lattice, a: Node, b: Node)
    requires Reaches(l, a, b) && Grounded(l, b)
    ensures Grounded(l, a)
  {
    var v :| IsSink(l, v) && Reaches(l, b, v);
    ReachOn(l, a, b, v);
  }

  /** Where every edge of l is a path of l', so is every path. */
  lemma {:induction false} PathsKept(l: Lattice, l': Lattice, p: seq<Node>)
    requires Path(l, p) && forall x, y :: (x, y) in l.edges ==> Reaches(l', x, y)
    ensures Reaches(l', p[0], p[|p| - 1])
  {
    if |p| == 1 {
      ReachSelf(l', p[0]);
    } else {
      PathTail(l, p);
      PathsKept(l, l', p[1..]);
      ReachOn(l', p[0], p[1], p[|p| - 1]);
    }
  }

  // ---------------------------------------------------------------------------------------------
  // The search, for any event.

  /** The stack hangs from the current leaf. */
  ghost predicate Hangs(l: Lattice, st: Search) {
    st.stack != [] ==>
      && 0 < st.next <= |l.leaves| && st.stack[0] == l.leaves[st.next - 1] && st.stack[0] !in st.finished
      && (forall i :: 0 < i < |st.stack| ==> !IsSink(l, st.stack[i]))
      && (forall i :: 0 <= i < |st.stack| ==> Reaches(l, st.stack[i], st.stack[0]))
  }

  /** Something found to come before the new event is at or above v. */
  ghost predicate Below(l: Lattice, st: Search, v: Node) { exists u :: u in st.preceding && Reaches(l, u, v) }

  ghost predicate Downhill(l: Lattice, st: Search) {
    forall u <- st.preceding :: exists c :: c in st.children && Reaches(l, c, u)
  }

  ghost predicate ParentsGrounded(l: Lattice, st: Search) { forall p <- st.parents :: Grounded(l, p) }

  /** Every leaf dealt with that goes before the new event is below something found. */
  ghost predicate LeavesBelow(l: Lattice, e: OperatorEvent, st: Search) {
    forall k :: 0 <= k < st.next <= |l.leaves| && (st.stack == [] || k < st.next - 1) && Verdict(l, e, l.leaves[k]) == Follows ==>
      Below(l, st, l.leaves[k])
  }

  ghost predicate Climbing(l: Lattice, e: OperatorEvent, st: Search) {
    Sane(l, st) && Hangs(l, st) && Downhill(l, st) && ParentsGrounded(l, st) && LeavesBelow(l, e, st)
  }

  lemma OtherHangs(l: Lattice, st: Search, st': Search)
    requires WellFormed(l) && Sane(l, st) && Hangs(l, st) && (Starts(l, st, st') || Discovers(l, st, st') || Drops(l, st, st'))
    ensures Hangs(l, st')
  {
    if Starts(l, st, st') {
      ReachSelf(l, l.leaves[st.next]);
    } else if Discovers(l, st, st') {
      var k := |st.stack| - 1;
      var more := st'.stack[|st.stack|..];
      assert st'.stack == st.stack + more;
      forall i | |st.stack| <= i < |st'.stack|
        ensures !IsSink(l, st'.stack[i]) && Reaches(l, st'.stack[i], st'.stack[0])
      {
        var q, v := st'.stack[i], st.stack[k];
        assert q == more[i - |st.stack|] && q in more;
        assert (q, v) in l.edges;
        ReachEdge(l, q, v);
        ReachOn(l, q, v, st.stack[0]);
      }
    }
  }

  lemma OtherClimbing(l: Lattice, e: OperatorEvent, st: Search, st': Search)
    requires WellFormed(l) && Climbing(l, e, st) && Sane(l, st')
    requires Starts(l, st, st') || Discovers(l, st, st') || Drops(l, st, st')
    ensures Climbing(l, e, st')
  {
    hide Reaches, Grounded, Verdict, Sane, WellFormed;
    OtherHangs(l, st, st');
    forall v | Below(l, st, v) ensures Below(l, st', v) { }
  }

  /** The visited node is at or above the current leaf, which makes its dependents grounded. */
  lemma VisitGrounded(l: Lattice, st: Search, verdict: Comparison, above: set<Node>)
    requires LeavesExact(l) && Hangs(l, st) && ParentsGrounded(l, st) && st.stack != []
    requires forall p <- above :: (p, st.stack[|st.stack| - 1]) in l.edges
    ensures ParentsGrounded(l, Visit(l, st, verdict, above))
  {
    var v := st.stack[|st.stack| - 1];
    assert IsSink(l, st.stack[0]) by { assert st.stack[0] in l.leaves; }
    assert Grounded(l, v);
    forall p <- above ensures Grounded(l, p) {
      ReachEdge(l, p, v);
      GroundedThrough(l, p, v);
    }
  }

  lemma VisitDownhill(l: Lattice, st: Search, verdict: Comparison, above: set<Node>)
    requires Downhill(l, st) && st.stack != []
    ensures Downhill(l, Visit(l, st, verdict, above))
  {
    hide Reaches;
    var v := st.stack[|st.stack| - 1];
    var st' := Visit(l, st, verdict, above);
    assert st.children <= st'.children;
    if Covered(l, st, v) {
      var u :| u in st.preceding && (u, v) in l.edges;
      var c :| c in st.children && Reaches(l, c, u);
      ReachEdge(l, u, v);
      ReachOn(l, c, u, v);
    } else {
      ReachSelf(l, v);
    }
  }

  lemma VisitHangs(l: Lattice, st: Search, verdict: Comparison, above: set<Node>)
    requires LeavesExact(l) && Hangs(l, st) && st.stack != []
    ensures Hangs(l, Visit(l, st, verdict, above))
  {
    hide Reaches;
    assert IsSink(l, st.stack[0]) by { assert st.stack[0] in l.leaves; }
  }

  lemma VisitLeaves(l: Lattice, e: OperatorEvent, st: Search, above: set<Node>)
    requires Hangs(l, st) && LeavesBelow(l, e, st) && st.stack != []
    ensures LeavesBelow(l, e, Visit(l, st, Verdict(l, e, st.stack[|st.stack| - 1]), above))
  {
    hide Reaches, Verdict;
    var v, root := st.stack[|st.stack| - 1], st.stack[0];
    var st' := Visit(l, st, Verdict(l, e, v), above);
    assert st.preceding <= st'.preceding && st'.next == st.next;
    forall x | Below(l, st, x) ensures Below(l, st', x) { }
    if st'.stack == [] && Verdict(l, e, root) == Follows {
      assert Covered(l, st, v) || v == root;
      assert v in st'.preceding && Reaches(l, v, root);
      assert Below(l, st', root);
    }
  }

  lemma StepClimbing(l: Lattice, e: OperatorEvent, st: Search, st': Search)
    requires WellFormed(l) && Climbing(l, e, st) && Step(l, e, st, st')
    ensures Climbing(l, e, st')
  {
    hide WellFormed, Hangs, Downhill, ParentsGrounded, LeavesBelow, Sane, Visit, Verdict, Panics;
    StepSane(l, e, st, st');
    if Visits(l, e, st, st') {
      var v := st.stack[|st.stack| - 1];
      var verdict, above := Verdict(l, e, v), Above(l, e, v);
      ExactLeaves(l);
      VisitGrounded(l, st, verdict, above);
      VisitDownhill(l, st, verdict, above);
      VisitHangs(l, st, verdict, above);
      VisitLeaves(l, e, st, above);
    } else {
      OtherClimbing(l, e, st, st');
    }
  }

  lemma ExactLeaves(l: Lattice)
    requires WellFormed(l)
    ensures LeavesExact(l) && EdgesLive(l)
  {
  }

  lemma {:induction false} TraceClimbing(l: Lattice, e: OperatorEvent, tr: seq<Search>, k: nat)
    requires WellFormed(l) && Trace(l, e, tr) && k < |tr|
    ensures Climbing(l, e, tr[k])
  {
    hide WellFormed, Step;
    if k > 0 {
      hide Climbing;
      TraceClimbing(l, e, tr, k - 1);
      assert Step(l, e, tr[k - 1], tr[k - 1 + 1]);
      StepClimbing(l, e, tr[k - 1], tr[k]);
    }
  }

  // ---------------------------------------------------------------------------------------------
  // The search for a message, which follows nothing, so that no leaf is abandoned.

  ghost predicate FollowsNothing(l: Lattice, e: OperatorEvent) { forall v :: Verdict(l, e, v) != Follows }

  /** Nothing discovered is forgotten. */
  ghost predicate Swept(l: Lattice, st: Search) {
    && (forall p, v :: v in st.discovered && (p, v) in l.edges ==> p in st.discovered || p in st.stack)
    && (forall v <- st.discovered :: v in st.finished || v in st.stack)
    && (forall k :: 0 <= k < st.next <= |l.leaves| ==> l.leaves[k] in st.discovered || l.leaves[k] in st.stack)
  }

  /** Every finished node that goes after the new event, or supports one that does, has contributed. */
  ghost predicate Contributed(l: Lattice, e: OperatorEvent, st: Search) {
    forall v <- st.finished ::
      if Verdict(l, e, v) == Precedes then IsSink(l, v) ==> v in st.parents else Above(l, e, v) <= st.parents
  }

  ghost predicate Sweeping(l: Lattice, e: OperatorEvent, st: Search) {
    st.preceding == {} && st.children == {} && Swept(l, st) && Contributed(l, e, st)
  }

  lemma OtherSwept(l: Lattice, st: Search, st': Search)
    requires Swept(l, st) && (Starts(l, st, st') || Discovers(l, st, st') || Drops(l, st, st'))
    ensures Swept(l, st')
  {
    if Discovers(l, st, st') {
      var v := st.stack[|st.stack| - 1];
      assert st'.stack == st.stack + st'.stack[|st.stack|..];
      assert v in st'.stack;
    } else if Drops(l, st, st') {
      assert st.stack == st'.stack + [st.stack[|st.stack| - 1]];
    } else {
      assert l.leaves[st.next] in st'.stack;
    }
  }

  lemma VisitSwept(l: Lattice, e: OperatorEvent, st: Search, st': Search)
    requires Sweeping(l, e, st) && Visits(l, e, st, st') && FollowsNothing(l, e)
    ensures Sweeping(l, e, st')
  {
    hide Verdict, Above, Panics;
    var v := st.stack[|st.stack| - 1];
    assert st.stack == st.stack[..|st.stack| - 1] + [v];
    assert !Covered(l, st, v) && Verdict(l, e, v) != Follows && Verdict(l, e, v) != Circular by { NotPanicking(l, e, st, v); }
  }

  lemma NotPanicking(l: Lattice, e: OperatorEvent, st: Search, v: Node)
    requires !Panics(l, e, st, v) && st.preceding == {}
    ensures Verdict(l, e, v) != Circular
  {
  }

  lemma {:induction false} TraceSweeping(l: Lattice, e: OperatorEvent, tr: seq<Search>, k: nat)
    requires Trace(l, e, tr) && k < |tr| && FollowsNothing(l, e)
    ensures Sweeping(l, e, tr[k])
  {
    hide FollowsNothing, Verdict, Above, Visit;
    if k > 0 {
      TraceSweeping(l, e, tr, k - 1);
      assert Step(l, e, tr[k - 1], tr[k - 1 + 1]);
      if Visits(l, e, tr[k - 1], tr[k]) {
        VisitSwept(l, e, tr[k - 1], tr[k]);
      } else {
        OtherSwept(l, tr[k - 1], tr[k]);
      }
    }
  }

  /** At the end every node on a path to a leaf has been visited. */
  lemma {:induction false} PathFinished(l: Lattice, e: OperatorEvent, st: Search, p: seq<Node>)
    requires LeavesExact(l) && Sweeping(l, e, st) && st.finished <= st.discovered && Final(l, st)
    requires Path(l, p) && IsSink(l, p[|p| - 1])
    ensures p[0] in st.finished
  {
    if |p| == 1 {
      assert p[0] in l.leaves;
      var k :| 0 <= k < |l.leaves| && l.leaves[k] == p[0];
    } else {
      PathTail(l, p);
      PathFinished(l, e, st, p[1..]);
      var x, y := p[0], p[1];
      FinishedDiscovered(l, e, st, x, y);
    }
  }

  lemma FinishedDiscovered(l: Lattice, e: OperatorEvent, st: Search, x: Node, y: Node)
    requires Sweeping(l, e, st) && st.stack == [] && (x, y) in l.edges && y in st.finished && st.finished <= st.discovered
    ensures x in st.finished
  {
  }

  /** On a path down from an event that goes after the message there is one that now depends on the message. */
  lemma {:induction false} PathMeets(l: Lattice, e: OperatorEvent, st: Search, p: seq<Node>) returns (q: Node)
    requires WellFormed(l) && AllMade(l) && StreamMade(e) && Sane(l, st) && Sweeping(l, e, st) && Final(l, st)
    requires Path(l, p) && IsSink(l, p[|p| - 1]) && Verdict(l, e, p[0]) == Precedes
    ensures q in st.parents && Reaches(l, p[0], q)
  {
    hide Compare, Sweeping;
    ExactLeaves(l);
    PathFinished(l, e, st, p);
    if |p| == 1 {
      q := p[0];
      ReachSelf(l, q);
      SinkContributes(l, e, st, q);
    } else {
      PathTail(l, p);
      PathFinished(l, e, st, p[1..]);
      if Verdict(l, e, p[1]) == Precedes {
        q := PathMeets(l, e, st, p[1..]);
        ReachEdge(l, p[0], p[1]);
        ReachOn(l, p[0], p[1], q);
      } else {
        q := p[0];
        ReachSelf(l, q);
        AboveContributes(l, e, st, p[0], p[1]);
      }
    }
  }

  lemma SinkContributes(l: Lattice, e: OperatorEvent, st: Search, v: Node)
    requires Sweeping(l, e, st) && v in st.finished && Verdict(l, e, v) == Precedes && IsSink(l, v)
    ensures v in st.parents
  {
  }

  lemma AboveContributes(l: Lattice, e: OperatorEvent, st: Search, p: Node, v: Node)
    requires EdgesLive(l) && AllMade(l) && StreamMade(e) && Sweeping(l, e, st) && v in st.finished
    requires (p, v) in l.edges && Verdict(l, e, p) == Precedes && Verdict(l, e, v) != Precedes
    ensures p in st.parents
  {
    if l.forest[p].value.isWatermark {
      MessageBeforeWatermark(e, l.forest[p].value);
      assert p in Above(l, e, v);
    } else {
      MessagesUnordered(e, l.forest[p].value);
    }
  }

  lemma MessageFollowsNothing(l: Lattice, e: OperatorEvent)
    requires AllMade(l) && StreamMade(e)
    ensures FollowsNothing(l, e)
  {
    forall v ensures Verdict(l, e, v) != Follows {
      if IsWaiting(l, v) {
        if l.forest[v].value.isWatermark {
          MessageBeforeWatermark(e, l.forest[v].value);
        } else {
          MessagesUnordered(e, l.forest[v].value);
        }
      }
    }
  }

  // ---------------------------------------------------------------------------------------------
  // Splicing.

  lemma SpliceEdge(l: Lattice, e: OperatorEvent, n: Node, st: Search, x: Node, y: Node)
    requires EdgesLive(l) && Sane(l, st) && n !in l.forest && (x, y) in l.edges
    ensures Reaches(Splice(l, e, n, st), x, y)
  {
    var l' := Splice(l, e, n, st);
    if (x, y) in st.redundant {
      assert (x, n) in l'.edges && (n, y) in l'.edges;
      ReachEdge(l', x, n);
      ReachEdge(l', n, y);
      ReachOn(l', x, n, y);
    } else {
      ReachEdge(l', x, y);
    }
  }

  /** No path is lost. */
  lemma SpliceReaches(l: Lattice, e: OperatorEvent, n: Node, st: Search, a: Node, b: Node)
    requires EdgesLive(l) && Sane(l, st) && n !in l.forest && Reaches(l, a, b)
    ensures Reaches(Splice(l, e, n, st), a, b)
  {
    hide Splice, Sane, EdgesLive;
    var p :| Path(l, p) && p[0] == a && p[|p| - 1] == b;
    forall x, y | (x, y) in l.edges ensures Reaches(Splice(l, e, n, st), x, y) { SpliceEdge(l, e, n, st, x, y); }
    PathsKept(l, Splice(l, e, n, st), p);
  }

  /** Nothing that was stuck is set free. */
  lemma {:induction false} SpliceGrounds(l: Lattice, e: OperatorEvent, n: Node, st: Search, p: seq<Node>)
    requires EdgesLive(l) && Sane(l, st) && ParentsGrounded(l, st) && n !in l.forest
    requires Path(Splice(l, e, n, st), p) && IsSink(Splice(l, e, n, st), p[|p| - 1]) && p[0] in l.forest
    ensures Grounded(l, p[0])
  {
    var l' := Splice(l, e, n, st);
    var x := p[0];
    if |p| == 1 {
      SpliceSinks(l, e, n, st, x);
      ReachSelf(l, x);
    } else {
      PathTail(l', p);
      var y := p[1];
      if y != n {
        assert (x, y) in l.edges;
        SpliceGrounds(l, e, n, st, p[1..]);
        ReachEdge(l, x, y);
        GroundedThrough(l, x, y);
      } else {
        assert x in st.parents;
      }
    }
  }

  /** What is kept back stays kept back. */
  lemma SpliceKeeps(l: Lattice, e: OperatorEvent, n: Node, st: Search, a: Node, b: Node)
    requires EdgesLive(l) && Sane(l, st) && ParentsGrounded(l, st) && n !in l.forest && b in l.forest && Kept(l, a, b)
    ensures Kept(Splice(l, e, n, st), a, b)
  {
    hide Splice, Sane, EdgesLive, ParentsGrounded;
    var l' := Splice(l, e, n, st);
    if Reaches(l, b, a) {
      SpliceReaches(l, e, n, st, b, a);
    } else if Grounded(l', b) {
      var v :| IsSink(l', v) && Reaches(l', b, v);
      var p :| Path(l', p) && p[0] == b && p[|p| - 1] == v;
      SpliceGrounds(l, e, n, st, p);
    }
  }

  /** A watermark reaches every waiting message it goes after. */
  lemma MarkReaches(l: Lattice, e: OperatorEvent, n: Node, st: Search, a: Node)
    requires WellFormed(l) && Climbing(l, e, st) && Final(l, st) && n !in l.forest && MarksDepend(l)
    requires IsWaiting(l, a) && !l.forest[a].value.isWatermark && Verdict(l, e, a) == Follows
    ensures Reaches(Splice(l, e, n, st), n, a)
  {
    hide Splice, Sane, Hangs, ParentsGrounded, Verdict;
    var l' := Splice(l, e, n, st);
    ExactLeaves(l);
    assert IsSink(l, a) && a in l.leaves;
    var k :| 0 <= k < |l.leaves| && l.leaves[k] == a;
    assert Below(l, st, a);
    var u :| u in st.preceding && Reaches(l, u, a);
    var c :| c in st.children && Reaches(l, c, u);
    ReachOn(l, c, u, a);
    SpliceReaches(l, e, n, st, c, a);
    ChildEdge(l, e, n, st, c);
    ReachOn(l', n, c, a);
  }

  lemma ChildEdge(l: Lattice, e: OperatorEvent, n: Node, st: Search, c: Node)
    requires EdgesLive(l) && Sane(l, st) && n !in l.forest && c in st.children
    ensures Reaches(Splice(l, e, n, st), n, c)
  {
    assert (n, c) in Splice(l, e, n, st).edges;
    ReachEdge(Splice(l, e, n, st), n, c);
  }

  lemma ParentEdge(l: Lattice, e: OperatorEvent, n: Node, st: Search, p: Node)
    requires EdgesLive(l) && Sane(l, st) && n !in l.forest && p in st.parents
    ensures Reaches(Splice(l, e, n, st), p, n)
  {
    assert (p, n) in Splice(l, e, n, st).edges;
    ReachEdge(Splice(l, e, n, st), p, n);
  }

  /** A message is reached by every waiting watermark that goes after it and is not stuck. */
  lemma MessageReached(l: Lattice, e: OperatorEvent, n: Node, st: Search, b: Node)
    requires WellFormed(l) && AllMade(l) && StreamMade(e) && Sane(l, st) && Sweeping(l, e, st) && ParentsGrounded(l, st)
    requires Final(l, st) && n !in l.forest && IsWaiting(l, b) && Verdict(l, e, b) == Precedes
    ensures Kept(Splice(l, e, n, st), n, b)
  {
    hide Splice, Sane, Sweeping, ParentsGrounded, Verdict, StreamMade;
    var l' := Splice(l, e, n, st);
    ExactLeaves(l);
    if Grounded(l, b) {
      var v :| IsSink(l, v) && Reaches(l, b, v);
      var p :| Path(l, p) && p[0] == b && p[|p| - 1] == v;
      var q := PathMeets(l, e, st, p);
      SpliceReaches(l, e, n, st, b, q);
      ParentEdge(l, e, n, st, q);
      ReachOn(l', b, q, n);
    } else if Grounded(l', b) {
      var v :| IsSink(l', v) && Reaches(l', b, v);
      var p :| Path(l', p) && p[0] == b && p[|p| - 1] == v;
      SpliceGrounds(l, e, n, st, p);
    }
  }

  // ---------------------------------------------------------------------------------------------
  // The three operations.

  /** Two events of which the first is a message that the second, a watermark, must wait for. */
  predicate MessageFirst(x: OperatorEvent, y: OperatorEvent) { !x.isWatermark && y.isWatermark && Le(x.timestamp, y.timestamp) }

  ghost predicate Fit(l: Lattice) { WellFormed(l) && AllMade(l) && MarksDepend(l) }

  lemma InsertKeeps(l: Lattice, e: OperatorEvent, n: Node, l': Lattice, a: Node, b: Node)
    requires Fit(l) && IsMade(e) && Inserted(l, e, n, l') && b in l.forest && Kept(l, a, b)
    ensures Kept(l', a, b)
  {
    hide WellFormed, AllMade, MarksDepend, Kept, Splice, Trace, Final, Inserted;
    var tr := SearchOf(l, e, n, l');
    TraceClimbing(l, e, tr, |tr| - 1);
    ExactLeaves(l);
    SpliceKeeps(l, e, n, tr[|tr| - 1], a, b);
  }

  /** A new event and one that waits. */
  lemma InsertMeets(l: Lattice, e: OperatorEvent, n: Node, l': Lattice, v: Node)
    requires Fit(l) && IsMade(e) && Inserted(l, e, n, l') && IsWaiting(l, v)
    ensures MessageFirst(e, l.forest[v].value) ==> Kept(l', n, v)
    ensures MessageFirst(l.forest[v].value, e) ==> Kept(l', v, n)
  {
    hide WellFormed, AllMade, MarksDepend, Splice, Trace, Final, Inserted, Reaches, Grounded, Compare, Sweeping;
    var tr := SearchOf(l, e, n, l');
    var st := tr[|tr| - 1];
    TraceClimbing(l, e, tr, |tr| - 1);
    if MessageFirst(e, l.forest[v].value) {
      MessageFollowsNothing(l, e);
      TraceSweeping(l, e, tr, |tr| - 1);
      MessageBeforeWatermark(e, l.forest[v].value);
      MessageReached(l, e, n, st, v);
    } else if MessageFirst(l.forest[v].value, e) {
      MessageBeforeWatermark(l.forest[v].value, e);
      MarkReaches(l, e, n, st, v);
    }
  }

  lemma InsertFit(l: Lattice, e: OperatorEvent, n: Node, l': Lattice)
    requires Fit(l) && IsMade(e) && Inserted(l, e, n, l')
    ensures Fit(l')
  {
    hide WellFormed, Trace, Final, Inserted, Compare;
    InsertWellFormed(l, e, n, l');
    var tr := SearchOf(l, e, n, l');
    TraceMarks(l, e, tr, |tr| - 1);
    forall v | IsWaiting(l', v) ensures IsMade(l'.forest[v].value) {
      assert v in Waiting(l');
    }
    SpliceMarks(l, e, n, tr[|tr| - 1]);
  }

  /** Children are found by watermarks only, and only watermarks become parents. */
  ghost predicate MarksOnly(l: Lattice, e: OperatorEvent, st: Search) {
    && (st.children != {} ==> e.isWatermark)
    && (forall p <- st.parents :: IsWaiting(l, p) && l.forest[p].value.isWatermark)
  }

  lemma {:induction false} TraceMarks(l: Lattice, e: OperatorEvent, tr: seq<Search>, k: nat)
    requires Fit(l) && IsMade(e) && Trace(l, e, tr) && k < |tr|
    ensures MarksOnly(l, e, tr[k])
  {
    hide Fit, IsMade, Verdict, Above, Visit, Panics;
    if k > 0 {
      TraceMarks(l, e, tr, k - 1);
      assert Step(l, e, tr[k - 1], tr[k - 1 + 1]);
      if Visits(l, e, tr[k - 1], tr[k]) {
        VisitMarks(l, e, tr[k - 1]);
      }
    }
  }

  lemma VisitMarks(l: Lattice, e: OperatorEvent, st: Search)
    requires Fit(l) && IsMade(e) && MarksOnly(l, e, st) && st.stack != []
    ensures var v := st.stack[|st.stack| - 1]; MarksOnly(l, e, Visit(l, st, Verdict(l, e, v), Above(l, e, v)))
  {
    hide WellFormed, Compare, StreamMade;
    var v := st.stack[|st.stack| - 1];
    if !e.isWatermark { MessageFollowsNothing(l, e); }
    if Verdict(l, e, v) == Precedes { AfterIsMark(l, e, v); }
    forall p <- Above(l, e, v) ensures IsWaiting(l, p) && l.forest[p].value.isWatermark { }
  }

  lemma AfterIsMark(l: Lattice, e: OperatorEvent, v: Node)
    requires AllMade(l) && IsMade(e) && Verdict(l, e, v) == Precedes
    ensures IsWaiting(l, v) && l.forest[v].value.isWatermark
  {
    var x := l.forest[v].value;
    if !x.isWatermark {
      if e.isWatermark {
        MessageBeforeWatermark(x, e);
      } else {
        MessagesUnordered(e, x);
      }
    }
  }

  lemma SpliceMarks(l: Lattice, e: OperatorEvent, n: Node, st: Search)
    requires MarksDepend(l) && MarksOnly(l, e, st) && n !in l.forest
    ensures MarksDepend(Splice(l, e, n, st))
  {
    var l' := Splice(l, e, n, st);
    forall a, b | (a, b) in l'.edges ensures IsWaiting(l', a) && l'.forest[a].value.isWatermark {
      if (a, b) in l.edges { assert IsWaiting(l, a); }
    }
  }

  lemma SameReaches(l: Lattice, l': Lattice, a: Node, b: Node)
    requires l'.edges == l.edges
    ensures Reaches(l', a, b) <==> Reaches(l, a, b)
  {
    forall p ensures Path(l', p) <==> Path(l, p) { }
  }

  lemma FetchKeeps(l: Lattice, n: Node, l': Lattice, a: Node, b: Node)
    requires Fit(l) && Fetched(l, n, l') && Kept(l, a, b)
    ensures Kept(l', a, b)
  {
    hide Fit, Reaches;
    assert l'.edges == l.edges && l'.forest.Keys == l.forest.Keys + {n};
    FetchesLive(l, n, l');
    SameReaches(l, l', b, a);
    forall v ensures IsSink(l', v) && Reaches(l', b, v) ==> IsSink(l, v) && Reaches(l, b, v) { SameReaches(l, l', b, v); }
  }

  lemma FetchesLive(l: Lattice, n: Node, l': Lattice)
    requires Fit(l) && Fetched(l, n, l')
    ensures n in l.forest
  {
    FetchWellFormed(l, n, l');
  }

  lemma FetchFit(l: Lattice, n: Node, l': Lattice)
    requires Fit(l) && Fetched(l, n, l')
    ensures Fit(l')
  {
    hide WellFormed;
    FetchWellFormed(l, n, l');
    assert l'.edges == l.edges && l'.forest == l.forest[n := None];
    SinksHaveNone(l, n);
  }

  lemma SinksHaveNone(l: Lattice, n: Node)
    requires IsSink(l, n)
    ensures forall b :: (n, b) !in l.edges
  {
  }

  /** A path to another node does not go through a sink. */
  lemma {:induction false} PathAvoids(l: Lattice, n: Node, l': Lattice, p: seq<Node>)
    requires IsSink(l, n) && l'.edges == (set x <- l.edges | x.0 != n && x.1 != n)
    requires Path(l, p) && p[|p| - 1] != n
    ensures Path(l', p)
  {
    forall i | 0 <= i < |p| - 1 ensures (p[i], p[i + 1]) in l'.edges {
      var x, y := p[i], p[i + 1];
      assert (x, y) in l.edges;
      if i + 1 < |p| - 1 {
        var z := p[i + 2];
        assert (y, z) in l.edges by { assert (p[i + 1], p[i + 1 + 1]) in l.edges; }
      }
    }
  }

  lemma CompleteKeeps(l: Lattice, n: Node, l': Lattice, a: Node, b: Node)
    requires Fit(l) && Completed(l, n, l') && Kept(l, a, b) && a != n && b != n
    ensures Kept(l', a, b)
  {
    hide WellFormed, AllMade, MarksDepend, Completed;
    CompleteGraph(l, n, l');
    if Reaches(l, b, a) {
      var p :| Path(l, p) && p[0] == b && p[|p| - 1] == a;
      PathAvoids(l, n, l', p);
    } else if Grounded(l', b) {
      GroundedBefore(l, n, l', b);
    }
  }

  lemma GroundedBefore(l: Lattice, n: Node, l': Lattice, b: Node)
    requires IsSink(l, n) && l'.edges == (set x <- l.edges | x.0 != n && x.1 != n) && l'.forest == l.forest - {n}
    requires Grounded(l', b)
    ensures Grounded(l, b)
  {
    var v :| IsSink(l', v) && Reaches(l', b, v);
    var p :| Path(l', p) && p[0] == b && p[|p| - 1] == v;
    forall i | 0 <= i < |p| - 1 ensures (p[i], p[i + 1]) in l.edges { assert (p[i], p[i + 1]) in l'.edges; }
    assert Path(l, p);
    SinkAgain(l, n, l', v);
    GroundedThrough(l, b, v);
  }

  lemma CompleteGraph(l: Lattice, n: Node, l': Lattice)
    requires WellFormed(l) && Completed(l, n, l')
    ensures IsSink(l, n) && l'.edges == (set x <- l.edges | x.0 != n && x.1 != n) && l'.forest == l.forest - {n}
  {
  }

  /** A sink after the removal was a sink or rested on the node removed. */
  lemma SinkAgain(l: Lattice, n: Node, l': Lattice, v: Node)
    requires IsSink(l, n) && l'.edges == (set x <- l.edges | x.0 != n && x.1 != n) && l'.forest == l.forest - {n}
    requires IsSink(l', v)
    ensures Grounded(l, v)
  {
    if IsSink(l, v) {
      ReachSelf(l, v);
    } else {
      var c :| (v, c) in l.edges;
      assert (v, c) !in l'.edges && c == n;
      ReachEdge(l, v, n);
    }
  }

  lemma CompleteFit(l: Lattice, n: Node, l': Lattice)
    requires Fit(l) && Completed(l, n, l')
    ensures Fit(l')
  {
    CompleteWellFormed(l, n, l');
    CompleteGraph(l, n, l');
  }

  /** A runnable watermark waits for no message. */
  lemma SinkWaitsForNone(l: Lattice, a: Node, b: Node)
    requires IsSink(l, b) && a != b
    ensures !Kept(l, a, b)
  {
    ReachSelf(l, b);
    forall p | Path(l, p) && p[0] == b ensures p[|p| - 1] == b {
      if |p| > 1 { PathTail(l, p); }
    }
  }
}
