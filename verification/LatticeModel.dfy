/** The execution lattice as a value: the dependency graph of pending events, what holds of it in every
    state, and the order its dependencies stand for. */
module LatticeModel {
  import opened Basics
  import opened Timestamps
  import opened OperatorEvents

  type Node = int

  /** An index into the lattice with the timestamp used to prioritise runnable events. */
  datatype RunnableEvent = RunnableEvent(node: Node, timestamp: Option<Timestamp>)

  /** `Ord for RunnableEvent`: earlier timestamps, then earlier nodes, are greater. */
  function CmpRunnable(a: RunnableEvent, b: RunnableEvent): Ordering {
    if a.timestamp.Some? && b.timestamp.Some? && a.timestamp != b.timestamp
    then Cmp(a.timestamp.value, b.timestamp.value).Reverse()
    else CmpInt(a.node, b.node).Reverse()
  }

  /** `forest` maps a live node to its event, or to `None` once the event is executing.
      An edge (a, b) says that a depends on b. */
  datatype Lattice = Lattice(
    forest: map<Node, Option<OperatorEvent>>,
    edges: set<(Node, Node)>,
    leaves: seq<Node>,
    runQueue: seq<RunnableEvent>
  )

  const EMPTY: Lattice := Lattice(map[], {}, [], [])

  // ---------------------------------------------------------------------------------------------
  // What holds in every state.

  predicate IsWaiting(l: Lattice, v: Node) { v in l.forest && l.forest[v].Some? }

  ghost function Waiting(l: Lattice): map<Node, OperatorEvent> {
    map v | v in l.forest && l.forest[v].Some? :: l.forest[v].value
  }

  ghost predicate IsSink(l: Lattice, v: Node) {
    v in l.forest && forall c :: (v, c) !in l.edges
  }

  function QueueNodes(q: seq<RunnableEvent>): seq<Node> {
    seq(|q|, i requires 0 <= i < |q| => q[i].node)
  }

  /** Only waiting events have dependencies, and every dependency is live. */
  ghost predicate EdgesLive(l: Lattice) {
    forall a, b :: (a, b) in l.edges ==> IsWaiting(l, a) && b in l.forest
  }

  /** `leaves` lists every sink, once. */
  ghost predicate LeavesExact(l: Lattice) {
    Distinct(l.leaves) && forall v :: v in l.leaves <==> IsSink(l, v)
  }

  /** `runQueue` lists every waiting sink, once, with the timestamp of its event. */
  ghost predicate QueueExact(l: Lattice) {
    && Distinct(QueueNodes(l.runQueue))
    && (forall v :: v in QueueNodes(l.runQueue) <==> IsSink(l, v) && IsWaiting(l, v))
    && (forall r <- l.runQueue :: r.node in l.forest && l.forest[r.node].Some?
          && r.timestamp == Some(l.forest[r.node].value.timestamp))
  }

  ghost predicate WellFormed(l: Lattice) {
    EdgesLive(l) && LeavesExact(l) && QueueExact(l)
  }

  // ---------------------------------------------------------------------------------------------
  // The order the events must run in.

  /** The event at a goes before the one at b: it precedes it, or ties with it and is older. */
  ghost predicate Goes(w: map<Node, OperatorEvent>, age: map<Node, nat>, a: Node, b: Node)
    requires a in w && b in w
  {
    || Compare(w[a], w[b]) == Precedes
    || (Tied(w[a], w[b]) && a in age && b in age && age[a] < age[b])
  }

  /** Pairs (a, b) of nodes such that a goes before b. */
  ghost function Before(w: map<Node, OperatorEvent>, age: map<Node, nat>): set<(Node, Node)> {
    set a <- w, b <- w | Goes(w, age, a, b) :: (a, b)
  }

  /** Every event has an age of its own. */
  ghost predicate Aged(w: map<Node, OperatorEvent>, age: map<Node, nat>) {
    && (forall a <- w :: a in age)
    && (forall a <- w, b <- w | a != b :: age[a] != age[b])
  }

  ghost function Watermarks(w: map<Node, OperatorEvent>): set<Node> {
    set v <- w | w[v].isWatermark
  }

  /** `ws` is a chain of watermarks; every other element is a message, below watermarks only. */
  ghost predicate Chain(all: set<Node>, ws: set<Node>, lt: set<(Node, Node)>) {
    && ws <= all
    && (forall a, b :: (a, b) in lt ==> a in all && b in ws && (b, a) !in lt)
    && (forall a, b :: a in ws && b in ws && a != b ==> (a, b) in lt || (b, a) in lt)
    && (forall a, b, c :: (a, b) in lt && (b, c) in lt ==> (a, c) in lt)
  }

  /** b follows a with nothing in between. */
  ghost predicate Covers(lt: set<(Node, Node)>, a: Node, b: Node) {
    (a, b) in lt && forall c :: (a, c) in lt ==> (c, b) !in lt
  }

  /** Only watermarks have dependencies, these point to earlier events, and no immediate one is missing. */
  ghost predicate OrderedBy(l: Lattice, ws: set<Node>, lt: set<(Node, Node)>) {
    && (forall a, b :: (a, b) in l.edges ==> a in ws && (IsWaiting(l, b) ==> (b, a) in lt))
    && (forall a, b :: Covers(lt, a, b) ==> (b, a) in l.edges)
  }

  /** The waiting events are manageable and the dependencies realise their order, the oldest of tied events first. */
  ghost predicate Ordered(l: Lattice, age: map<Node, nat>) {
    && Manageable(Waiting(l)) && Aged(Waiting(l), age)
    && OrderedBy(l, Watermarks(Waiting(l)), Before(Waiting(l), age))
  }

  /** Two different events of a weak family, compared both ways. */
  lemma CompareBothWays(w: map<Node, OperatorEvent>, u: Node, v: Node)
    requires WeakFamily(w) && u in w && v in w && u != v
    ensures Tied(w[u], w[v]) || Compare(w[u], w[v]) == Compare(w[v], w[u]).Reverse()
    ensures Compare(w[u], w[v]) != Circular
    ensures Compare(w[u], w[v]) == Precedes || Tied(w[u], w[v]) ==> w[v].isWatermark
    ensures w[u].isWatermark && w[v].isWatermark ==> Compare(w[u], w[v]) == Precedes || Compare(w[u], w[v]) == Follows
  {
    if w[u].isWatermark && w[v].isWatermark {
      assert Strict(w[u], w[v]) || Tied(w[u], w[v]);
    } else if w[u].isWatermark {
      MessageBeforeWatermark(w[v], w[u]);
    } else if w[v].isWatermark {
      MessageBeforeWatermark(w[u], w[v]);
    } else {
      MessagesUnordered(w[u], w[v]);
      MessagesUnordered(w[v], w[u]);
    }
  }

  lemma GoesOneWay(w: map<Node, OperatorEvent>, age: map<Node, nat>, a: Node, b: Node)
    requires WeakFamily(w) && Aged(w, age) && a in w && b in w && Goes(w, age, a, b)
    ensures a != b && w[b].isWatermark && !Goes(w, age, b, a)
  {
    NeverBeforeItself(w[a]);
    CompareBothWays(w, a, b);
  }

  lemma GoesTransitive(w: map<Node, OperatorEvent>, age: map<Node, nat>, a: Node, b: Node, c: Node)
    requires WeakFamily(w) && Aged(w, age) && a in w && b in w && c in w && Goes(w, age, a, b) && Goes(w, age, b, c)
    ensures Goes(w, age, a, c)
  {
    GoesOneWay(w, age, a, b);
    GoesOneWay(w, age, b, c);
    if !w[a].isWatermark {
      CompareBothWays(w, b, a);
      MessageBeforeTied(w, a, b, c);
    } else {
      assert Coherent(w[a], w[b], w[c]) && Coherent(w[c], w[a], w[b]) && Coherent(w[c], w[b], w[a]);
      if a != c { CompareBothWays(w, a, c); }
    }
  }

  /** What precedes a watermark precedes the ones that follow it or tie with it. */
  lemma MessageBeforeTied(w: map<Node, OperatorEvent>, m: Node, b: Node, c: Node)
    requires WeakFamily(w) && m in w && b in w && c in w && !w[m].isWatermark && w[b].isWatermark && w[c].isWatermark
    requires Compare(w[m], w[b]) == Precedes && (Compare(w[b], w[c]) == Precedes || Tied(w[b], w[c]))
    ensures Compare(w[m], w[c]) == Precedes
  {
    MessageBeforeWatermark(w[m], w[b]);
    MessageBeforeWatermark(w[m], w[c]);
    TotalOrder(w[b].timestamp, w[c].timestamp);
    Transitive(w[m].timestamp, w[b].timestamp, w[c].timestamp);
  }

  /** The order on a weak family is a chain of watermarks above an antichain of messages. */
  lemma WeakIsChain(w: map<Node, OperatorEvent>, age: map<Node, nat>)
    requires WeakFamily(w) && Aged(w, age)
    ensures Chain(w.Keys, Watermarks(w), Before(w, age))
  {
    hide WeakFamily, Aged, Goes;
    var lt := Before(w, age);
    forall a, b | (a, b) in lt ensures b in Watermarks(w) && (b, a) !in lt {
      GoesOneWay(w, age, a, b);
    }
    forall a, b, c | (a, b) in lt && (b, c) in lt ensures (a, c) in lt {
      GoesTransitive(w, age, a, b, c);
    }
    forall a, b | a in Watermarks(w) && b in Watermarks(w) && a != b ensures (a, b) in lt || (b, a) in lt {
      GoesSomeWay(w, age, a, b);
    }
  }

  lemma GoesSomeWay(w: map<Node, OperatorEvent>, age: map<Node, nat>, a: Node, b: Node)
    requires WeakFamily(w) && Aged(w, age) && a in w && b in w && a != b && w[a].isWatermark && w[b].isWatermark
    ensures Goes(w, age, a, b) || Goes(w, age, b, a)
  {
    CompareBothWays(w, a, b);
    CompareBothWays(w, b, a);
  }

  /** Every non-empty set has an element that nothing else in the set precedes. */
  lemma {:induction false} Minimal(all: set<Node>, ws: set<Node>, lt: set<(Node, Node)>, s: set<Node>) returns (m: Node)
    requires Chain(all, ws, lt)
    requires exists x :: x in s
    ensures m in s && forall x <- s :: (x, m) !in lt
    decreases s
  {
    m :| m in s;
    if x :| x in s && (x, m) in lt {
      var below := set y <- s | (y, m) in lt;
      assert x in below && m !in below;
      m := Minimal(all, ws, lt, below);
    }
  }
}
