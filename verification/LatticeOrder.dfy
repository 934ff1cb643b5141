/** As long as the waiting events are manageable the search finds every immediate predecessor and successor of
    the new event, although it abandons a leaf as soon as it meets a covered node. */
module LatticeOrder {
  import opened OperatorEvents
  import opened LatticeModel
  import opened LatticeSearch

  /** Dependencies run from watermarks to earlier events. */
  ghost predicate Respects(l: Lattice, ws: set<Node>, lt: set<(Node, Node)>) {
    forall a, b :: (a, b) in l.edges ==> a in ws && (IsWaiting(l, b) ==> (b, a) in lt)
  }

  /** The immediate dependencies between nodes other than n are present. */
  ghost predicate Complete(l: Lattice, n: Node, lt: set<(Node, Node)>) {
    forall a, b :: a != n && b != n && (a, b) in lt && (forall c :: c != n && (a, c) in lt ==> (c, b) !in lt)
      ==> (b, a) in l.edges
  }

  ghost function Scope(l: Lattice, n: Node): set<Node> { Waiting(l).Keys + {n} }

  /** An ordered lattice l, the order lt extended to the new node n, and the watermarks ws. */
  ghost predicate Setting(l: Lattice, n: Node, ws: set<Node>, lt: set<(Node, Node)>) {
    && WellFormed(l) && n !in l.forest
    && Chain(Scope(l, n), ws, lt)
    && Respects(l, ws, lt)
    && Complete(l, n, lt)
  }

  /** The comparisons with the new event are the order lt, except that a tied node claims to follow it as well. */
  ghost predicate Agrees(l: Lattice, e: OperatorEvent, n: Node, lt: set<(Node, Node)>, tied: set<Node>) {
    forall v :: IsWaiting(l, v) ==>
      && (Verdict(l, e, v) == Follows <==> (v, n) in lt)
      && (Verdict(l, e, v) == Precedes <==> (n, v) in lt)
      && (Compare(l.forest[v].value, e) == Follows <==> (n, v) in lt || v in tied)
      && Verdict(l, e, v) != Circular && Compare(l.forest[v].value, e) != Circular
  }

  /** The nodes tied with n come last before it, and there are at most two of them. */
  ghost predicate Ties(n: Node, lt: set<(Node, Node)>, tied: set<Node>) {
    && (forall u <- tied :: (u, n) in lt)
    && (forall u, x :: u in tied && (u, x) in lt && (x, n) in lt ==> x in tied)
    && (forall u, x, c :: u in tied && x in tied && c in tied && (u, x) in lt ==> (x, c) !in lt)
  }

  // ---------------------------------------------------------------------------------------------
  // The walk: what is on the stack, and what a finished node guarantees.

  ghost predicate Open(st: Search, v: Node) { v in st.discovered && v !in st.finished }

  /** Discovered but never to be finished, because its leaf was abandoned. */
  ghost predicate Lost(st: Search, v: Node) { Open(st, v) && v !in st.stack }

  /** Stack entry j is an ancestor of the node at stack entry i. */
  ghost predicate Higher(l: Lattice, lt: set<(Node, Node)>, st: Search, i: nat, j: nat)
    requires i < |st.stack| && j < |st.stack|
  {
    IsWaiting(l, st.stack[j]) && (IsWaiting(l, st.stack[i]) ==> (st.stack[i], st.stack[j]) in lt)
  }

  ghost predicate FromRoot(l: Lattice, lt: set<(Node, Node)>, st: Search) {
    st.stack != [] ==>
      && 0 < st.next <= |l.leaves| && st.stack[0] == l.leaves[st.next - 1]
      && (|st.stack| > 1 ==> st.stack[0] in st.discovered)
      && (forall j :: 0 < j < |st.stack| ==> Higher(l, lt, st, 0, j))
  }

  /** Above the last copy of an open node the stack holds only its ancestors, among them every
      parent of it that is still undiscovered. */
  ghost predicate StackedAt(l: Lattice, lt: set<(Node, Node)>, st: Search, i: nat)
    requires i < |st.stack|
  {
    Open(st, st.stack[i]) && st.stack[i] !in st.stack[i + 1..] ==>
      && (forall p :: (p, st.stack[i]) in l.edges ==> p in st.discovered || p in st.stack[i + 1..])
      && (forall j :: i < j < |st.stack| ==> Higher(l, lt, st, i, j))
  }

  ghost predicate Stacked(l: Lattice, lt: set<(Node, Node)>, st: Search) {
    forall i :: 0 <= i < |st.stack| ==> StackedAt(l, lt, st, i)
  }

  ghost predicate Closed(l: Lattice, st: Search) {
    forall p, v :: (p, v) in l.edges && v in st.finished ==> p in st.finished || Lost(st, p)
  }

  ghost predicate Walk(l: Lattice, lt: set<(Node, Node)>, st: Search) {
    FromRoot(l, lt, st) && Stacked(l, lt, st) && Closed(l, st)
  }

  lemma StartsWalk(l: Lattice, lt: set<(Node, Node)>, st: Search, st': Search)
    requires Sane(l, st) && Walk(l, lt, st) && Starts(l, st, st')
    ensures Walk(l, lt, st')
  {
    assert st'.stack == [l.leaves[st.next]];
    assert l.leaves[st.next] !in st.discovered;
  }

  /** Popping a node that is no longer open. */
  ghost predicate Pops(st: Search, st': Search) {
    && st.stack != [] && st'.stack == st.stack[..|st.stack| - 1]
    && st'.discovered == st.discovered && st'.next == st.next && st.finished <= st'.finished
    && st.stack[|st.stack| - 1] in st.discovered && st.stack[|st.stack| - 1] in st'.finished
  }

  lemma PopStacked(l: Lattice, lt: set<(Node, Node)>, st: Search, st': Search)
    requires FromRoot(l, lt, st) && Stacked(l, lt, st) && Pops(st, st')
    ensures FromRoot(l, lt, st') && Stacked(l, lt, st')
  {
    assert FromRoot(l, lt, st') by {
      forall j | 0 < j < |st'.stack| ensures Higher(l, lt, st', 0, j) { assert Higher(l, lt, st, 0, j); }
    }
    forall i | 0 <= i < |st'.stack| ensures StackedAt(l, lt, st', i) {
      assert StackedAt(l, lt, st, i);
      PopStackedAt(l, lt, st, st', i);
    }
  }

  lemma PopStackedAt(l: Lattice, lt: set<(Node, Node)>, st: Search, st': Search, i: nat)
    requires Pops(st, st') && i < |st'.stack| && StackedAt(l, lt, st, i)
    ensures StackedAt(l, lt, st', i)
  {
    var v := st.stack[|st.stack| - 1];
    assert st.stack[i + 1..] == st'.stack[i + 1..] + [v];
    if Open(st', st'.stack[i]) && st'.stack[i] !in st'.stack[i + 1..] {
      assert Open(st, st.stack[i]) && st.stack[i] != v;
      forall j | i < j < |st'.stack| ensures Higher(l, lt, st', i, j) { assert Higher(l, lt, st, i, j); }
    }
  }

  lemma DropsWalk(l: Lattice, lt: set<(Node, Node)>, st: Search, st': Search)
    requires Walk(l, lt, st) && Drops(l, st, st')
    ensures Walk(l, lt, st')
  {
    PopStacked(l, lt, st, st');
  }

  lemma DiscoversHigher(l: Lattice, n: Node, ws: set<Node>, lt: set<(Node, Node)>, st: Search, st': Search, i: nat, j: nat)
    requires EdgesLive(l) && Chain(Scope(l, n), ws, lt) && Respects(l, ws, lt) && Discovers(l, st, st')
    requires i < |st.stack| <= j < |st'.stack|
    requires i == |st.stack| - 1 || Higher(l, lt, st, i, |st.stack| - 1)
    ensures Higher(l, lt, st', i, j)
  {
    var p := st'.stack[j];
    assert p == st'.stack[|st.stack|..][j - |st.stack|] && p in st'.stack[|st.stack|..];
    assert (p, st.stack[|st.stack| - 1]) in l.edges;
  }

  lemma DiscoversStackedAt(l: Lattice, n: Node, ws: set<Node>, lt: set<(Node, Node)>, st: Search, st': Search, i: nat)
    requires EdgesLive(l) && Chain(Scope(l, n), ws, lt) && Respects(l, ws, lt) && Discovers(l, st, st')
    requires i < |st.stack| && StackedAt(l, lt, st, i)
    requires st.finished <= st.discovered
    ensures StackedAt(l, lt, st', i)
  {
    var k := |st.stack| - 1;
    var v := st.stack[k];
    var more := st'.stack[|st.stack|..];
    assert st'.stack == st.stack + more;
    assert st'.stack[i + 1..] == st.stack[i + 1..] + more;
    if Open(st', st'.stack[i]) && st'.stack[i] !in st'.stack[i + 1..] {
      assert i < k ==> v in st.stack[i + 1..] && Open(st, st.stack[i]);
      forall j | i < j < |st'.stack| ensures Higher(l, lt, st', i, j) {
        assert i < k ==> Higher(l, lt, st, i, k);
        if j < |st.stack| {
          assert Higher(l, lt, st, i, j);
        } else {
          DiscoversHigher(l, n, ws, lt, st, st', i, j);
        }
      }
    }
  }

  lemma DiscoversWalk(l: Lattice, n: Node, ws: set<Node>, lt: set<(Node, Node)>, st: Search, st': Search)
    requires Setting(l, n, ws, lt) && Sane(l, st) && Walk(l, lt, st) && Discovers(l, st, st')
    ensures Walk(l, lt, st')
  {
    hide Chain, Respects, EdgesLive, LeavesExact, QueueExact, Complete;
    var more := st'.stack[|st.stack|..];
    assert st'.stack == st.stack + more;
    assert FromRoot(l, lt, st') by {
      forall j | 0 < j < |st'.stack| ensures Higher(l, lt, st', 0, j) {
        if j < |st.stack| {
          assert Higher(l, lt, st, 0, j);
        } else {
          assert |st.stack| > 1 ==> Higher(l, lt, st, 0, |st.stack| - 1);
          DiscoversHigher(l, n, ws, lt, st, st', 0, j);
        }
      }
    }
    forall i | 0 <= i < |st'.stack| ensures StackedAt(l, lt, st', i) {
      if i < |st.stack| {
        assert StackedAt(l, lt, st, i);
        DiscoversStackedAt(l, n, ws, lt, st, st', i);
      } else {
        assert st'.stack[i] == more[i - |st.stack|] && st'.stack[i] in more;
      }
    }
    assert Closed(l, st');
  }

  lemma LastCopy(s: seq<Node>, v: Node) returns (i: nat)
    requires v in s
    ensures i < |s| && s[i] == v && v !in s[i + 1..]
  {
    var k := |s| - 1;
    if s[k] == v {
      i := k;
    } else {
      assert s == s[..k] + [s[k]];
      i := LastCopy(s[..k], v);
      assert s[i + 1..] == s[..k][i + 1..] + [s[k]];
    }
  }

  /** When a node is finished all its parents are finished, except for abandoned ones. */
  lemma ParentsFinished(l: Lattice, n: Node, ws: set<Node>, lt: set<(Node, Node)>, st: Search, p: Node)
    requires Setting(l, n, ws, lt) && Walk(l, lt, st)
    requires st.stack != [] && Open(st, st.stack[|st.stack| - 1])
    requires (p, st.stack[|st.stack| - 1]) in l.edges
    ensures p in st.finished || Lost(st, p)
  {
    hide WellFormed, Chain, Respects, Complete, Higher, FromRoot, Closed;
    var k := |st.stack| - 1;
    assert StackedAt(l, lt, st, k);
    if p !in st.finished && p in st.stack {
      var i := LastCopy(st.stack, p);
      if i < k {
        assert StackedAt(l, lt, st, i);
        NotAParent(l, n, ws, lt, st, i, k);
      } else {
        NotItsParent(l, n, ws, lt, p);
      }
    }
  }

  /** What is lower on the stack is no parent of what is higher. */
  lemma NotAParent(l: Lattice, n: Node, ws: set<Node>, lt: set<(Node, Node)>, st: Search, i: nat, j: nat)
    requires Setting(l, n, ws, lt) && i < |st.stack| && j < |st.stack| && Higher(l, lt, st, i, j)
    ensures (st.stack[i], st.stack[j]) !in l.edges
  {
  }

  lemma NotItsParent(l: Lattice, n: Node, ws: set<Node>, lt: set<(Node, Node)>, v: Node)
    requires Setting(l, n, ws, lt)
    ensures (v, v) !in l.edges
  {
  }

  lemma VisitsWalk(l: Lattice, n: Node, ws: set<Node>, lt: set<(Node, Node)>, st: Search, st': Search)
    requires Setting(l, n, ws, lt) && Walk(l, lt, st)
    requires st.stack != [] && Open(st, st.stack[|st.stack| - 1])
    requires st'.finished == st.finished + {st.stack[|st.stack| - 1]}
    requires st'.discovered == st.discovered && st'.next == st.next
    requires st'.stack == [] || st'.stack == st.stack[..|st.stack| - 1]
    ensures Walk(l, lt, st')
  {
    hide Setting, StackedAt, Higher;
    if st'.stack != [] { PopStacked(l, lt, st, st'); }
    forall p, u | (p, u) in l.edges && u in st'.finished
      ensures p in st'.finished || Lost(st', p)
    {
      if u !in st.finished { ParentsFinished(l, n, ws, lt, st, p); }
    }
  }

  // ---------------------------------------------------------------------------------------------
  // What the finished nodes have contributed.

  /** The last watermark before n. */
  ghost predicate TopBelow(n: Node, ws: set<Node>, lt: set<(Node, Node)>, c: Node) {
    c in ws && (c, n) in lt && forall d <- ws :: (c, d) in lt ==> (d, n) !in lt
  }

  ghost predicate Sound(l: Lattice, n: Node, lt: set<(Node, Node)>, st: Search) {
    && (forall c <- st.children :: (c, n) in lt)
    && (forall u <- st.preceding :: IsWaiting(l, u) ==> (u, n) in lt)
    && (forall p <- st.parents :: (n, p) in lt)
  }

  /** A finished node below n is a child or covered by one. */
  ghost predicate BelowDone(l: Lattice, n: Node, lt: set<(Node, Node)>, st: Search) {
    forall v <- st.finished :: (v, n) in lt ==> v in st.preceding && (v in st.children || Covered(l, st, v))
  }

  /** A finished node has handed its dependents above n over to n. */
  ghost predicate AboveDone(l: Lattice, n: Node, lt: set<(Node, Node)>, st: Search) {
    && (forall v <- st.finished :: (n, v) !in lt && !Covered(l, st, v) ==>
          forall p :: (p, v) in l.edges && (n, p) in lt ==> p in st.parents)
    && (forall v <- st.finished :: (n, v) in lt && IsSink(l, v) ==> v in st.parents)
  }

  /** Nothing is abandoned before the last watermark below n has become a child. */
  ghost predicate TopFirst(n: Node, ws: set<Node>, lt: set<(Node, Node)>, st: Search) {
    (exists u :: Lost(st, u)) || (exists u :: u in st.preceding && u in ws)
    ==> exists c :: c in st.children && TopBelow(n, ws, lt, c)
  }

  ghost predicate Bare(l: Lattice, n: Node, ws: set<Node>, lt: set<(Node, Node)>, v: Node) {
    IsWaiting(l, v) && (v, n) in lt && forall d <- ws :: (v, d) in lt ==> (d, n) !in lt
  }

  /** An abandoned leaf is never an immediate predecessor of n. */
  ghost predicate LeavesDone(l: Lattice, n: Node, ws: set<Node>, lt: set<(Node, Node)>, st: Search) {
    forall k :: 0 <= k < st.next <= |l.leaves| && (st.stack == [] || k < st.next - 1) ==>
      l.leaves[k] in st.finished || (l.leaves[k] in st.discovered && !Bare(l, n, ws, lt, l.leaves[k]))
  }

  ghost predicate Found(l: Lattice, n: Node, ws: set<Node>, lt: set<(Node, Node)>, st: Search) {
    && Sound(l, n, lt, st) && BelowDone(l, n, lt, st) && AboveDone(l, n, lt, st)
    && TopFirst(n, ws, lt, st) && LeavesDone(l, n, ws, lt, st)
  }

  /** The inputs of one visit, with the comparisons replaced by the order they stand for. */
  ghost predicate Judged(l: Lattice, n: Node, lt: set<(Node, Node)>, v: Node, verdict: Comparison, above: set<Node>) {
    && verdict != Circular
    && (verdict == Follows <==> (v, n) in lt)
    && (verdict == Precedes <==> (n, v) in lt)
    && (forall p :: p in above <==> (p, v) in l.edges && (n, p) in lt)
  }

  /** Whatever is covered comes before n. */
  lemma CoveredBelow(l: Lattice, n: Node, ws: set<Node>, lt: set<(Node, Node)>, st: Search, v: Node)
    requires EdgesLive(l) && Chain(Scope(l, n), ws, lt) && Respects(l, ws, lt)
    requires Sound(l, n, lt, st) && Covered(l, st, v) && v in l.forest && n !in l.forest
    ensures IsWaiting(l, v) ==> (v, n) in lt
    ensures (n, v) !in lt
  {
    var u :| u in st.preceding && (u, v) in l.edges;
    assert (u, n) in lt;
    assert (n, v) in lt ==> v in Waiting(l);
  }

  lemma VisitSound(l: Lattice, n: Node, lt: set<(Node, Node)>, st: Search, verdict: Comparison, above: set<Node>)
    requires st.stack != [] && Sound(l, n, lt, st)
    requires var v := st.stack[|st.stack| - 1]; Covered(l, st, v) && IsWaiting(l, v) ==> (v, n) in lt
    requires Judged(l, n, lt, st.stack[|st.stack| - 1], verdict, above)
    ensures Sound(l, n, lt, Visit(l, st, verdict, above))
  {
  }

  lemma VisitBelowDone(l: Lattice, n: Node, lt: set<(Node, Node)>, st: Search, verdict: Comparison, above: set<Node>)
    requires st.stack != [] && BelowDone(l, n, lt, st)
    requires Judged(l, n, lt, st.stack[|st.stack| - 1], verdict, above)
    ensures BelowDone(l, n, lt, Visit(l, st, verdict, above))
  {
    var st' := Visit(l, st, verdict, above);
    forall v | Covered(l, st, v) ensures Covered(l, st', v) { }
  }

  lemma VisitAboveDone(l: Lattice, n: Node, lt: set<(Node, Node)>, st: Search, verdict: Comparison, above: set<Node>)
    requires st.stack != [] && AboveDone(l, n, lt, st)
    requires var v := st.stack[|st.stack| - 1]; Covered(l, st, v) ==> (n, v) !in lt
    requires Judged(l, n, lt, st.stack[|st.stack| - 1], verdict, above)
    ensures AboveDone(l, n, lt, Visit(l, st, verdict, above))
  {
    var st' := Visit(l, st, verdict, above);
    forall v | Covered(l, st, v) ensures Covered(l, st', v) { }
  }

  /** The next watermark above v depends on v. */
  lemma NextAbove(l: Lattice, n: Node, all: set<Node>, ws: set<Node>, lt: set<(Node, Node)>, v: Node, d: Node)
    returns (u: Node)
    requires Chain(all, ws, lt) && Complete(l, n, lt)
    requires v != n && d != n && (v, d) in lt && (d, n) in lt
    ensures u in ws && (u, v) in l.edges && (u, n) in lt
  {
    var s := set x <- ws | x != n && (v, x) in lt;
    assert d in s;
    u := Minimal(all, ws, lt, s);
    forall c | c != n && (v, c) in lt ensures (c, u) !in lt { assert c in s; }
    assert u == d || (u, d) in lt;
  }

  /** What a visit does to the walk and to the nodes known to come before n. */
  ghost predicate VisitEffect(l: Lattice, st: Search, st': Search)
    requires st.stack != []
  {
    var v := st.stack[|st.stack| - 1];
    && st'.finished == st.finished + {v} && st'.discovered == st.discovered && st'.next == st.next
    && st.children <= st'.children
    && (Covered(l, st, v) ==> st'.stack == [] && st'.children == st.children)
    && (!Covered(l, st, v) ==>
          && st'.stack == st.stack[..|st.stack| - 1]
          && (st'.preceding == st.preceding || (st'.preceding == st.preceding + {v} && v in st'.children)))
  }

  lemma VisitShape(l: Lattice, st: Search, verdict: Comparison, above: set<Node>)
    requires st.stack != []
    ensures VisitEffect(l, st, Visit(l, st, verdict, above))
    ensures var v := st.stack[|st.stack| - 1];
      !Covered(l, st, v) && v in Visit(l, st, verdict, above).preceding && v !in st.preceding ==> verdict == Follows
  {
  }

  lemma VisitTopFirst(l: Lattice, n: Node, ws: set<Node>, lt: set<(Node, Node)>, st: Search, verdict: Comparison, above: set<Node>)
    requires Setting(l, n, ws, lt) && st.stack != [] && Walk(l, lt, st)
    requires Open(st, st.stack[|st.stack| - 1])
    requires BelowDone(l, n, lt, st) && TopFirst(n, ws, lt, st)
    requires Judged(l, n, lt, st.stack[|st.stack| - 1], verdict, above)
    ensures TopFirst(n, ws, lt, Visit(l, st, verdict, above))
  {
    hide Visit, Walk, BelowDone, Covered, Chain, WellFormed, Complete, Respects;
    var v := st.stack[|st.stack| - 1];
    VisitShape(l, st, verdict, above);
    if Covered(l, st, v) {
      CoveredTop(l, n, ws, lt, st, v);
    } else {
      if verdict == Follows && v in ws && !TopBelow(n, ws, lt, v) {
        TopAlready(l, n, ws, lt, st, v);
      }
      KeepTopFirst(n, ws, lt, st, Visit(l, st, verdict, above));
    }
  }

  lemma CoveredTop(l: Lattice, n: Node, ws: set<Node>, lt: set<(Node, Node)>, st: Search, v: Node)
    requires Respects(l, ws, lt) && TopFirst(n, ws, lt, st) && Covered(l, st, v)
    ensures exists c :: c in st.children && TopBelow(n, ws, lt, c)
  {
  }

  lemma KeepTopFirst(n: Node, ws: set<Node>, lt: set<(Node, Node)>, st: Search, st': Search)
    requires TopFirst(n, ws, lt, st) && Pops(st, st') && st.children <= st'.children
    requires var v := st.stack[|st.stack| - 1];
      && (st'.preceding == st.preceding || (st'.preceding == st.preceding + {v} && v in st'.children))
      && (v in st'.preceding && v !in st.preceding && v in ws ==>
            TopBelow(n, ws, lt, v) || exists c :: c in st.children && TopBelow(n, ws, lt, c))
    ensures TopFirst(n, ws, lt, st')
  {
    assert st.stack == st.stack[..|st.stack| - 1] + [st.stack[|st.stack| - 1]];
    forall u | Lost(st', u) ensures Lost(st, u) { }
  }

  /** A watermark that is not the last one below n, yet uncovered, is only met after an abandonment. */
  lemma TopAlready(l: Lattice, n: Node, ws: set<Node>, lt: set<(Node, Node)>, st: Search, v: Node)
    requires Setting(l, n, ws, lt) && Walk(l, lt, st)
    requires st.stack != [] && v == st.stack[|st.stack| - 1] && Open(st, v)
    requires BelowDone(l, n, lt, st) && TopFirst(n, ws, lt, st)
    requires v in ws && (v, n) in lt && !TopBelow(n, ws, lt, v) && !Covered(l, st, v)
    ensures exists c :: c in st.children && TopBelow(n, ws, lt, c)
  {
    var d :| d in ws && (v, d) in lt && (d, n) in lt;
    var u := NextAbove(l, n, Scope(l, n), ws, lt, v, d);
    ParentsFinished(l, n, ws, lt, st, u);
  }

  lemma VisitLeavesDone(l: Lattice, n: Node, ws: set<Node>, lt: set<(Node, Node)>, st: Search, verdict: Comparison, above: set<Node>)
    requires Setting(l, n, ws, lt) && st.stack != [] && Walk(l, lt, st)
    requires st.stack[|st.stack| - 1] in st.discovered
    requires Sound(l, n, lt, st) && LeavesDone(l, n, ws, lt, st)
    ensures LeavesDone(l, n, ws, lt, Visit(l, st, verdict, above))
  {
    hide Visit, Stacked, Closed, Sound, Covered, Chain, Complete, Respects, EdgesLive, LeavesExact, QueueExact, Bare;
    var k := |st.stack| - 1;
    VisitShape(l, st, verdict, above);
    if Covered(l, st, st.stack[k]) && k > 0 {
      assert Higher(l, lt, st, 0, k);
      NotBare(l, n, ws, lt, st, st.stack[0], st.stack[k]);
    }
  }

  /** A leaf below a covered node is not an immediate predecessor. */
  lemma NotBare(l: Lattice, n: Node, ws: set<Node>, lt: set<(Node, Node)>, st: Search, root: Node, v: Node)
    requires EdgesLive(l) && Chain(Scope(l, n), ws, lt) && Respects(l, ws, lt) && Sound(l, n, lt, st)
    requires Covered(l, st, v) && IsWaiting(l, v) && (IsWaiting(l, root) ==> (root, v) in lt)
    ensures !Bare(l, n, ws, lt, root)
  {
    var u :| u in st.preceding && (u, v) in l.edges;
    assert (v, u) in lt && (u, n) in lt;
  }

  lemma VisitFound(l: Lattice, n: Node, ws: set<Node>, lt: set<(Node, Node)>, st: Search, verdict: Comparison, above: set<Node>)
    requires Setting(l, n, ws, lt) && st.stack != [] && Walk(l, lt, st)
    requires Open(st, st.stack[|st.stack| - 1])
    requires Found(l, n, ws, lt, st)
    requires Judged(l, n, lt, st.stack[|st.stack| - 1], verdict, above)
    ensures Found(l, n, ws, lt, Visit(l, st, verdict, above))
  {
    hide Visit, BelowDone, AboveDone, TopFirst, LeavesDone, Judged, Stacked;
    var v := st.stack[|st.stack| - 1];
    if Covered(l, st, v) { CoveredBelow(l, n, ws, lt, st, v); }
    hide Setting, Sound, Walk;
    VisitSound(l, n, lt, st, verdict, above);
    VisitBelowDone(l, n, lt, st, verdict, above);
    VisitAboveDone(l, n, lt, st, verdict, above);
    VisitTopFirst(l, n, ws, lt, st, verdict, above);
    VisitLeavesDone(l, n, ws, lt, st, verdict, above);
  }

  /** Steps other than a visit change only the walk. */
  lemma OtherFound(l: Lattice, n: Node, ws: set<Node>, lt: set<(Node, Node)>, st: Search, st': Search)
    requires Sane(l, st) && FromRoot(l, lt, st) && Found(l, n, ws, lt, st)
    requires Starts(l, st, st') || Discovers(l, st, st') || Drops(l, st, st')
    ensures Found(l, n, ws, lt, st')
  {
    assert forall v :: Covered(l, st', v) <==> Covered(l, st, v);
    if Discovers(l, st, st') {
      var v := st.stack[|st.stack| - 1];
      assert v in st'.stack by { assert st'.stack[|st.stack| - 1] == v; }
      assert forall u :: Lost(st', u) ==> Lost(st, u);
    } else if Drops(l, st, st') {
      assert st.stack == st'.stack + [st.stack[|st.stack| - 1]];
      assert forall u :: Lost(st', u) ==> Lost(st, u);
    } else {
      assert forall u :: Lost(st', u) ==> Lost(st, u);
    }
  }

  /** Everything the proof knows about a search in progress. */
  ghost predicate Searching(l: Lattice, n: Node, ws: set<Node>, lt: set<(Node, Node)>, st: Search) {
    Sane(l, st) && Walk(l, lt, st) && Found(l, n, ws, lt, st)
  }

  // ---------------------------------------------------------------------------------------------
  // Ties. A tied node that is abandoned, the node where its walk stopped and the one that covered that node would be
  // three nodes tied with n.

  ghost predicate NoneLost(st: Search, tied: set<Node>) { forall u <- tied :: !Lost(st, u) }

  lemma VisitNoneLost(l: Lattice, n: Node, ws: set<Node>, lt: set<(Node, Node)>, tied: set<Node>, st: Search, st': Search)
    requires Setting(l, n, ws, lt) && Ties(n, lt, tied) && Walk(l, lt, st) && Sound(l, n, lt, st) && NoneLost(st, tied)
    requires st.stack != [] && Open(st, st.stack[|st.stack| - 1]) && VisitEffect(l, st, st')
    ensures NoneLost(st', tied)
  {
    hide Chain, Complete, EdgesLive, LeavesExact, QueueExact, FromRoot, Closed, Covered;
    var k := |st.stack| - 1;
    var x := st.stack[k];
    assert st.stack == st.stack[..k] + [x];
    forall u | u in tied && u in st.stack && u != x && Open(st, u) ensures !Covered(l, st, x) {
      var i := LastCopy(st.stack, u);
      assert StackedAt(l, lt, st, i) && Higher(l, lt, st, i, k);
      NotCovered(l, n, ws, lt, tied, st, u, x);
    }
  }

  lemma NotCovered(l: Lattice, n: Node, ws: set<Node>, lt: set<(Node, Node)>, tied: set<Node>, st: Search, u: Node, x: Node)
    requires EdgesLive(l) && Chain(Scope(l, n), ws, lt) && Respects(l, ws, lt) && Ties(n, lt, tied) && Sound(l, n, lt, st)
    requires u in tied && IsWaiting(l, x) && (IsWaiting(l, u) ==> (u, x) in lt) && n !in l.forest
    ensures !Covered(l, st, x)
  {
    assert (u, n) in lt && u in Scope(l, n) && u != n && u in Waiting(l);
  }

  /** The parents of v that come after n. */
  ghost function Later(l: Lattice, n: Node, lt: set<(Node, Node)>, v: Node): set<Node> {
    set p <- l.forest | (p, v) in l.edges && (n, p) in lt
  }

  /** A tied parent of a node that is about to be judged has been visited, so that the node is covered. */
  lemma NoTiedParent(l: Lattice, n: Node, ws: set<Node>, lt: set<(Node, Node)>, tied: set<Node>, st: Search, p: Node)
    requires Setting(l, n, ws, lt) && Ties(n, lt, tied) && Walk(l, lt, st) && BelowDone(l, n, lt, st) && NoneLost(st, tied)
    requires st.stack != [] && Open(st, st.stack[|st.stack| - 1]) && !Covered(l, st, st.stack[|st.stack| - 1])
    requires p in tied
    ensures (p, st.stack[|st.stack| - 1]) !in l.edges
  {
    hide Setting, Walk;
    if (p, st.stack[|st.stack| - 1]) in l.edges {
      ParentsFinished(l, n, ws, lt, st, p);
    }
  }

  lemma SameVisit(l: Lattice, e: OperatorEvent, n: Node, ws: set<Node>, lt: set<(Node, Node)>, tied: set<Node>, st: Search)
    requires Setting(l, n, ws, lt) && Agrees(l, e, n, lt, tied) && Ties(n, lt, tied)
    requires Walk(l, lt, st) && BelowDone(l, n, lt, st) && NoneLost(st, tied)
    requires st.stack != [] && Open(st, st.stack[|st.stack| - 1])
    ensures var v := st.stack[|st.stack| - 1];
      Visit(l, st, Verdict(l, e, v), Above(l, e, v)) == Visit(l, st, Verdict(l, e, v), Later(l, n, lt, v))
  {
    hide Walk, BelowDone, NoneLost, Ties, Verdict;
    var v := st.stack[|st.stack| - 1];
    if !Covered(l, st, v) {
      forall p <- tied ensures (p, v) !in l.edges { NoTiedParent(l, n, ws, lt, tied, st, p); }
      SameAbove(l, e, n, lt, tied, v);
    }
  }

  lemma SameAbove(l: Lattice, e: OperatorEvent, n: Node, lt: set<(Node, Node)>, tied: set<Node>, v: Node)
    requires EdgesLive(l) && Agrees(l, e, n, lt, tied) && forall p <- tied :: (p, v) !in l.edges
    ensures Above(l, e, v) == Later(l, n, lt, v)
  {
    forall p ensures p in Above(l, e, v) <==> p in Later(l, n, lt, v) {
      if (p, v) in l.edges { assert IsWaiting(l, p); }
    }
  }

  lemma StepSearching(l: Lattice, e: OperatorEvent, n: Node, ws: set<Node>, lt: set<(Node, Node)>, tied: set<Node>,
                      st: Search, st': Search)
    requires Setting(l, n, ws, lt) && Agrees(l, e, n, lt, tied) && Ties(n, lt, tied)
    requires Searching(l, n, ws, lt, st) && NoneLost(st, tied) && Step(l, e, st, st')
    ensures Searching(l, n, ws, lt, st') && NoneLost(st', tied)
  {
    hide Ties;
    StepSane(l, e, st, st');
    if Visits(l, e, st, st') {
      VisitsSearching(l, e, n, ws, lt, tied, st, st');
    } else {
      OtherFound(l, n, ws, lt, st, st');
      OtherNoneLost(l, tied, st, st');
      if Starts(l, st, st') {
        StartsWalk(l, lt, st, st');
      } else if Discovers(l, st, st') {
        DiscoversWalk(l, n, ws, lt, st, st');
      } else {
        DropsWalk(l, lt, st, st');
      }
    }
  }

  lemma VisitsSearching(l: Lattice, e: OperatorEvent, n: Node, ws: set<Node>, lt: set<(Node, Node)>, tied: set<Node>,
                        st: Search, st': Search)
    requires Setting(l, n, ws, lt) && Agrees(l, e, n, lt, tied) && Ties(n, lt, tied)
    requires Searching(l, n, ws, lt, st) && NoneLost(st, tied) && Visits(l, e, st, st')
    ensures Walk(l, lt, st') && Found(l, n, ws, lt, st') && NoneLost(st', tied)
  {
    hide Visit, Setting, Agrees, Ties, Walk, BelowDone, AboveDone, TopFirst, LeavesDone, Sound, NoneLost;
    var v := st.stack[|st.stack| - 1];
    var verdict, later := Verdict(l, e, v), Later(l, n, lt, v);
    SameVisit(l, e, n, ws, lt, tied, st);
    JudgedVisit(l, e, n, ws, lt, tied, v);
    VisitShape(l, st, verdict, later);
    VisitFound(l, n, ws, lt, st, verdict, later);
    VisitsWalk(l, n, ws, lt, st, st');
    VisitNoneLost(l, n, ws, lt, tied, st, st');
  }

  lemma OtherNoneLost(l: Lattice, tied: set<Node>, st: Search, st': Search)
    requires NoneLost(st, tied) && (Starts(l, st, st') || Discovers(l, st, st') || Drops(l, st, st'))
    ensures NoneLost(st', tied)
  {
    if st.stack != [] {
      var v := st.stack[|st.stack| - 1];
      if Drops(l, st, st') { assert st.stack == st'.stack + [v]; }
      assert Discovers(l, st, st') ==> v == st'.stack[|st.stack| - 1];
    }
    assert forall u :: Lost(st', u) ==> Lost(st, u);
  }

  lemma JudgedVisit(l: Lattice, e: OperatorEvent, n: Node, ws: set<Node>, lt: set<(Node, Node)>, tied: set<Node>, v: Node)
    requires Setting(l, n, ws, lt) && Agrees(l, e, n, lt, tied) && v in l.forest
    ensures Judged(l, n, lt, v, Verdict(l, e, v), Later(l, n, lt, v))
  {
    assert IsWaiting(l, v) <==> v in Waiting(l);
  }

  lemma {:induction false} TraceSearching(l: Lattice, e: OperatorEvent, n: Node, ws: set<Node>, lt: set<(Node, Node)>,
                                          tied: set<Node>, tr: seq<Search>, k: nat)
    requires Setting(l, n, ws, lt) && Agrees(l, e, n, lt, tied) && Ties(n, lt, tied)
    requires Trace(l, e, tr) && k < |tr|
    ensures Searching(l, n, ws, lt, tr[k]) && NoneLost(tr[k], tied)
  {
    hide Setting, Agrees, Step, Ties;
    if k == 0 {
      StartSearching(l, n, ws, lt);
    } else {
      hide Searching, NoneLost;
      TraceSearching(l, e, n, ws, lt, tied, tr, k - 1);
      assert Step(l, e, tr[k - 1], tr[k - 1 + 1]);
      StepSearching(l, e, n, ws, lt, tied, tr[k - 1], tr[k]);
    }
  }

  lemma StartSearching(l: Lattice, n: Node, ws: set<Node>, lt: set<(Node, Node)>)
    ensures Searching(l, n, ws, lt, START)
  {
  }

  // ---------------------------------------------------------------------------------------------
  // At the end of the search.

  lemma SinkFinished(l: Lattice, n: Node, ws: set<Node>, lt: set<(Node, Node)>, st: Search, u: Node)
    requires LeavesExact(l) && LeavesDone(l, n, ws, lt, st) && Final(l, st)
    requires IsSink(l, u) && !Lost(st, u)
    ensures u in st.finished
  {
    var k :| 0 <= k < |l.leaves| && l.leaves[k] == u;
  }

  /** If no leaf was abandoned, every unfinished node has an unfinished one before it, ... */
  lemma UnfinishedBelow(l: Lattice, n: Node, ws: set<Node>, lt: set<(Node, Node)>, st: Search, u: Node) returns (c: Node)
    requires EdgesLive(l) && LeavesExact(l) && Respects(l, ws, lt)
    requires Closed(l, st) && LeavesDone(l, n, ws, lt, st) && Final(l, st)
    requires (forall u :: !Lost(st, u)) && u in l.forest && u !in st.finished
    ensures c in l.forest && c !in st.finished && (c, u) in lt
  {
    if IsSink(l, u) { SinkFinished(l, n, ws, lt, st, u); }
    c :| (u, c) in l.edges;
    if IsSink(l, c) { SinkFinished(l, n, ws, lt, st, c); }
    assert IsWaiting(l, c);
  }

  /** ... so every node was finished. */
  lemma AllFinished(l: Lattice, n: Node, ws: set<Node>, lt: set<(Node, Node)>, st: Search)
    requires EdgesLive(l) && LeavesExact(l) && Chain(Scope(l, n), ws, lt) && Respects(l, ws, lt)
    requires Closed(l, st) && LeavesDone(l, n, ws, lt, st) && Final(l, st)
    requires forall u :: !Lost(st, u)
    ensures l.forest.Keys <= st.finished
  {
    hide EdgesLive, LeavesExact, Chain, Respects, Closed, LeavesDone;
    var rest := l.forest.Keys - st.finished;
    forall u <- l.forest ensures u in st.finished {
      if u !in st.finished {
        assert u in rest;
        var m := Minimal(Scope(l, n), ws, lt, rest);
        var _ := UnfinishedBelow(l, n, ws, lt, st, m);
      }
    }
  }

  /** Every immediate predecessor of n is a child. */
  lemma ChildrenFound(l: Lattice, n: Node, ws: set<Node>, lt: set<(Node, Node)>, st: Search, a: Node)
    requires Setting(l, n, ws, lt) && Searching(l, n, ws, lt, st) && Final(l, st)
    requires Covers(lt, a, n)
    ensures a in st.children
  {
    assert a in Waiting(l);
    if a in ws {
      if forall u :: !Lost(st, u) { AllFinished(l, n, ws, lt, st); }
      var c :| c in st.children && TopBelow(n, ws, lt, c);
    } else {
      assert IsSink(l, a);
      var k :| 0 <= k < |l.leaves| && l.leaves[k] == a;
      assert Bare(l, n, ws, lt, a);
    }
  }

  /** The last watermark before n is an immediate predecessor. */
  lemma {:induction false} LastBelow(all: set<Node>, ws: set<Node>, lt: set<(Node, Node)>, n: Node, w: Node) returns (c: Node)
    requires Chain(all, ws, lt) && w in ws && (w, n) in lt
    ensures c in ws && Covers(lt, c, n)
    decreases set x <- ws | (w, x) in lt && (x, n) in lt
  {
    c := w;
    if d :| d in ws && (w, d) in lt && (d, n) in lt {
      var s, s' := set x <- ws | (w, x) in lt && (x, n) in lt, set x <- ws | (d, x) in lt && (x, n) in lt;
      forall x <- s' ensures x in s { }
      assert d in s && d !in s';
      c := LastBelow(all, ws, lt, n, d);
    }
  }

  /** Every immediate successor of n is a parent: when some watermark precedes n, ... */
  lemma ParentsFoundAbove(l: Lattice, n: Node, ws: set<Node>, lt: set<(Node, Node)>, st: Search, w: Node, b: Node)
    requires Setting(l, n, ws, lt) && Searching(l, n, ws, lt, st) && Final(l, st)
    requires Covers(lt, n, b) && w in ws && (w, n) in lt
    ensures b in st.parents
  {
    var c := LastBelow(Scope(l, n), ws, lt, n, w);
    ChildrenFound(l, n, ws, lt, st, c);
    assert (c, b) in lt && (b, c) in l.edges;
    assert !Covered(l, st, c);
  }

  /** ... and when none does. */
  lemma ParentsFoundBottom(l: Lattice, n: Node, ws: set<Node>, lt: set<(Node, Node)>, st: Search, b: Node)
    requires Setting(l, n, ws, lt) && Searching(l, n, ws, lt, st) && Final(l, st)
    requires Covers(lt, n, b) && forall w <- ws :: (w, n) !in lt
    ensures b in st.parents
  {
    assert forall c :: c in st.children ==> c !in ws;
    assert forall u :: !Lost(st, u);
    AllFinished(l, n, ws, lt, st);
    assert b in Waiting(l);
    if !IsSink(l, b) {
      var c :| (b, c) in l.edges;
      assert !Covered(l, st, c);
      assert (n, c) !in lt;
    }
  }

  lemma SpliceRespects(l: Lattice, e: OperatorEvent, n: Node, ws: set<Node>, lt: set<(Node, Node)>, st: Search)
    requires Chain(Scope(l, n), ws, lt) && Respects(l, ws, lt) && EdgesLive(l) && n !in l.forest && Sound(l, n, lt, st)
    ensures Respects(Splice(l, e, n, st), ws, lt)
  {
    var l' := Splice(l, e, n, st);
    forall a, b | (a, b) in l'.edges ensures a in ws && (IsWaiting(l', b) ==> (b, a) in lt) {
      assert a != n && b != n ==> (a, b) in l.edges && (IsWaiting(l', b) <==> IsWaiting(l, b));
    }
  }

  /** Every immediate dependency is present after the splice. */
  lemma SpliceCovers(l: Lattice, e: OperatorEvent, n: Node, ws: set<Node>, lt: set<(Node, Node)>, st: Search, a: Node, b: Node)
    requires Setting(l, n, ws, lt) && Searching(l, n, ws, lt, st) && Final(l, st) && Covers(lt, a, b)
    ensures (b, a) in Splice(l, e, n, st).edges
  {
    if b == n {
      ChildrenFound(l, n, ws, lt, st, a);
    } else if a == n {
      if w :| w in ws && (w, n) in lt {
        ParentsFoundAbove(l, n, ws, lt, st, w, b);
      } else {
        ParentsFoundBottom(l, n, ws, lt, st, b);
      }
    } else {
      KeptEdge(l, n, ws, lt, st, a, b);
    }
  }

  lemma KeptEdge(l: Lattice, n: Node, ws: set<Node>, lt: set<(Node, Node)>, st: Search, a: Node, b: Node)
    requires Complete(l, n, lt) && Sane(l, st) && Sound(l, n, lt, st) && Covers(lt, a, b) && a != n && b != n
    ensures (b, a) in l.edges && (b, a) !in st.redundant
  {
  }

  /** The dependencies after the splice realise the extended order. */
  lemma SpliceOrdered(l: Lattice, e: OperatorEvent, n: Node, ws: set<Node>, lt: set<(Node, Node)>, st: Search)
    requires Setting(l, n, ws, lt) && Searching(l, n, ws, lt, st) && Final(l, st)
    ensures OrderedBy(Splice(l, e, n, st), ws, lt)
  {
    hide Splice, Covers, Chain, Complete, Walk, Sane, EdgesLive;
    SpliceRespects(l, e, n, ws, lt, st);
    forall a, b | Covers(lt, a, b) ensures (b, a) in Splice(l, e, n, st).edges {
      SpliceCovers(l, e, n, ws, lt, st, a, b);
    }
  }

  /** The new event is younger than all that wait, and manageable together with them. */
  ghost predicate Admissible(l: Lattice, e: OperatorEvent, n: Node, age: map<Node, nat>) {
    && Manageable(Waiting(l)[n := e])
    && n in age && forall v :: IsWaiting(l, v) ==> v in age && age[v] < age[n]
  }

  /** The waiting events that tie with the new one. */
  ghost function TiedWith(l: Lattice, e: OperatorEvent): set<Node> {
    set v <- l.forest | IsWaiting(l, v) && Tied(l.forest[v].value, e)
  }

  lemma MakeSetting(l: Lattice, e: OperatorEvent, n: Node, age: map<Node, nat>)
    requires WellFormed(l) && Ordered(l, age) && n !in l.forest && Admissible(l, e, n, age)
    ensures var w := Waiting(l)[n := e];
      && Setting(l, n, Watermarks(w), Before(w, age))
      && Agrees(l, e, n, Before(w, age), TiedWith(l, e)) && Ties(n, Before(w, age), TiedWith(l, e))
  {
    var w0, w := Waiting(l), Waiting(l)[n := e];
    MakeAged(l, e, n, age);
    WeakIsChain(w, age);
    assert Scope(l, n) == w.Keys;
    MakeAgrees(l, e, n, age);
    MakeTies(l, e, n, age);
    BeforeExtends(w0, n, e, age);
    ExtendOrder(l, n, Watermarks(w0), Watermarks(w), Before(w0, age), Before(w, age));
  }

  lemma MakeAged(l: Lattice, e: OperatorEvent, n: Node, age: map<Node, nat>)
    requires Aged(Waiting(l), age) && Admissible(l, e, n, age)
    ensures Aged(Waiting(l)[n := e], age)
  {
    forall v <- Waiting(l) ensures IsWaiting(l, v) { }
  }

  lemma BeforeExtends(w: map<Node, OperatorEvent>, n: Node, e: OperatorEvent, age: map<Node, nat>)
    requires n !in w
    ensures forall a, b :: a != n && b != n ==> ((a, b) in Before(w[n := e], age) <==> (a, b) in Before(w, age))
    ensures forall a :: a in Watermarks(w) ==> a in Watermarks(w[n := e])
    ensures forall a, b :: (a, b) in Before(w, age) ==> a != n && b != n
  {
    forall a, b | a in w && b in w ensures Goes(w[n := e], age, a, b) <==> Goes(w, age, a, b) { }
  }

  lemma ExtendOrder(l: Lattice, n: Node, ws: set<Node>, ws': set<Node>, lt: set<(Node, Node)>, lt': set<(Node, Node)>)
    requires OrderedBy(l, ws, lt) && n !in l.forest && EdgesLive(l)
    requires forall a, b :: a != n && b != n ==> ((a, b) in lt' <==> (a, b) in lt)
    requires forall a, b :: (a, b) in lt ==> a != n && b != n
    requires forall a :: a in ws ==> a in ws'
    ensures Respects(l, ws', lt') && Complete(l, n, lt')
  {
    forall a, b | a != n && b != n && (a, b) in lt' && (forall c :: c != n && (a, c) in lt' ==> (c, b) !in lt')
      ensures (b, a) in l.edges
    {
      assert Covers(lt, a, b);
    }
  }

  lemma MakeAgrees(l: Lattice, e: OperatorEvent, n: Node, age: map<Node, nat>)
    requires n !in l.forest && Admissible(l, e, n, age)
    ensures Agrees(l, e, n, Before(Waiting(l)[n := e], age), TiedWith(l, e))
  {
    hide WeakFamily, FewTies;
    var w := Waiting(l)[n := e];
    forall v | IsWaiting(l, v)
      ensures v in w && v != n && w[v] == l.forest[v].value && age[v] < age[n]
      ensures Tied(w[n], w[v]) || Compare(w[n], w[v]) == Compare(w[v], w[n]).Reverse()
      ensures Compare(w[n], w[v]) != Circular && Compare(w[v], w[n]) != Circular
    {
      assert v in Waiting(l);
      CompareBothWays(w, n, v);
      CompareBothWays(w, v, n);
    }
  }

  lemma MakeTies(l: Lattice, e: OperatorEvent, n: Node, age: map<Node, nat>)
    requires n !in l.forest && Aged(Waiting(l), age) && Admissible(l, e, n, age)
    ensures Ties(n, Before(Waiting(l)[n := e], age), TiedWith(l, e))
  {
    hide WeakFamily, Aged;
    var w, tied := Waiting(l)[n := e], TiedWith(l, e);
    var lt := Before(w, age);
    MakeAged(l, e, n, age);
    forall u <- tied ensures u in w && u != n && w[u] == l.forest[u].value && (u, n) in lt { assert u in Waiting(l); }
    forall u, x | u in tied && (u, x) in lt && (x, n) in lt ensures x in tied { TiesConvex(w, age, u, x, n); }
    forall u, x, c | u in tied && x in tied && c in tied && (u, x) in lt ensures (x, c) !in lt {
      GoesOneWay(w, age, u, x);
      NoThreeTied(w, n, u, x, c);
      if Goes(w, age, x, x) { GoesOneWay(w, age, x, x); }
    }
  }

  /** Between tied events everything is tied. */
  lemma TiesConvex(w: map<Node, OperatorEvent>, age: map<Node, nat>, u: Node, x: Node, n: Node)
    requires WeakFamily(w) && Aged(w, age) && u in w && x in w && n in w && u != n
    requires Tied(w[u], w[n]) && Goes(w, age, u, x) && Goes(w, age, x, n)
    ensures x != n && Tied(w[x], w[n]) && Tied(w[u], w[x])
  {
    GoesOneWay(w, age, u, x);
    GoesOneWay(w, age, x, n);
    CompareBothWays(w, n, u);
    CompareBothWays(w, u, x);
    CompareBothWays(w, x, n);
    assert Coherent(w[x], w[u], w[n]) && Coherent(w[x], w[n], w[u]);
  }

  lemma TiedTogether(w: map<Node, OperatorEvent>, x: Node, c: Node, n: Node)
    requires WeakFamily(w) && x in w && c in w && n in w && x != c && x != n && c != n
    requires Tied(w[x], w[n]) && Tied(w[c], w[n])
    ensures Tied(w[x], w[c])
  {
    CompareBothWays(w, n, x);
    CompareBothWays(w, n, c);
    CompareBothWays(w, x, c);
    assert Coherent(w[x], w[c], w[n]) && Coherent(w[c], w[x], w[n]);
  }

  lemma NoThreeTied(w: map<Node, OperatorEvent>, n: Node, u: Node, x: Node, c: Node)
    requires Manageable(w) && n in w && u in w && x in w && c in w && u != n && x != n && c != n && u != x
    requires Tied(w[u], w[n]) && Tied(w[x], w[n]) && Tied(w[c], w[n])
    ensures c == u || c == x
  {
    hide WeakFamily, FewTies, Compare;
    if c != u && c != x {
      TiedTogether(w, x, c, n);
      FewAt(w, u, n, x, c);
    }
  }

  /** Inserting any event at all keeps the lattice well formed, ... */
  lemma InsertWellFormed(l: Lattice, e: OperatorEvent, n: Node, l': Lattice)
    requires WellFormed(l) && Inserted(l, e, n, l')
    ensures WellFormed(l') && Waiting(l') == Waiting(l)[n := e]
  {
    var tr :| Trace(l, e, tr) && Final(l, tr[|tr| - 1]) && l' == Splice(l, e, n, tr[|tr| - 1]);
    TraceSane(l, e, tr);
    SpliceWellFormed(l, e, n, tr[|tr| - 1]);
    SpliceWaiting(l, e, n, tr[|tr| - 1]);
  }

  lemma SpliceWaiting(l: Lattice, e: OperatorEvent, n: Node, st: Search)
    ensures Waiting(Splice(l, e, n, st)) == Waiting(l)[n := e]
  {
  }

  /** ... and inserting an admissible one keeps the dependencies complete. */
  lemma InsertOrdered(l: Lattice, e: OperatorEvent, n: Node, age: map<Node, nat>, l': Lattice)
    requires WellFormed(l) && Ordered(l, age) && Inserted(l, e, n, l') && Admissible(l, e, n, age)
    ensures WellFormed(l') && Ordered(l', age)
  {
    hide WellFormed, Trace, Final, Splice, Inserted, Manageable, Admissible, Aged, OrderedBy, Searching, Setting;
    InsertWellFormed(l, e, n, l');
    var tr := SearchOf(l, e, n, l');
    var w := Waiting(l)[n := e];
    MakeSetting(l, e, n, age);
    MakeAged(l, e, n, age);
    TraceSearching(l, e, n, Watermarks(w), Before(w, age), TiedWith(l, e), tr, |tr| - 1);
    SpliceOrdered(l, e, n, Watermarks(w), Before(w, age), tr[|tr| - 1]);
    AdmissibleIsManageable(l, e, n, age);
  }

  lemma AdmissibleIsManageable(l: Lattice, e: OperatorEvent, n: Node, age: map<Node, nat>)
    requires Admissible(l, e, n, age)
    ensures Manageable(Waiting(l)[n := e])
  {
  }

  lemma SearchOf(l: Lattice, e: OperatorEvent, n: Node, l': Lattice) returns (tr: seq<Search>)
    requires Inserted(l, e, n, l')
    ensures Trace(l, e, tr) && |tr| > 0 && Final(l, tr[|tr| - 1]) && l' == Splice(l, e, n, tr[|tr| - 1]) && n !in l.forest
  {
    tr :| Trace(l, e, tr) && Final(l, tr[|tr| - 1]) && l' == Splice(l, e, n, tr[|tr| - 1]);
  }
}
