/** The start-up barrier of a cluster of nodes, with control messages delayed and reordered at will. */
module StartUp {
  import opened Basics
  import opened ControlMessages

  datatype Phase =
    | Connecting(up: Up)
    | Starting(seen: set<OperatorId>)
    | Announcing
    | Gathering(nodes: set<NodeId>)
    | Running

  /** `queue` is the handler's channel; `stash` what the selective receive in progress has read and will put back.
      `reports` is the channel from the local operators, and `ready` the operators that have set themselves up. */
  datatype Node = Node(
    phase: Phase,
    queue: seq<ControlMessage>,
    stash: seq<ControlMessage>,
    reports: seq<OperatorId>,
    ready: set<OperatorId>,
    operators: set<OperatorId>
  )

  /** Control messages between nodes in `flight` arrive in any order. */
  datatype Cluster = Cluster(nodes: seq<Node>, flight: multiset<(NodeId, ControlMessage)>)

  ghost predicate Init(s: Cluster) {
    && s.flight == multiset{}
    && forall i :: 0 <= i < |s.nodes| ==>
      s.nodes[i] == Node(Connecting(Up({i}, {i}, {i}, {i})), [], [], [], {}, s.nodes[i].operators)
  }

  // ---------------------------------------------------------------------------------------------
  // Steps of one node.

  function WantedIn(p: Phase): Option<Wanted> {
    match p
    case Connecting(_) => Some(Connections)
    case Gathering(_) => Some(AllOperators)
    case _ => None
  }

  /** The loop condition of the phase is still true. */
  predicate Incomplete(p: Phase, n: nat) {
    match p
    case Connecting(up) => !up.Complete(n)
    case Gathering(nodes) => |nodes| < n
    case _ => false
  }

  function Count(p: Phase, m: ControlMessage): Phase {
    match (p, m)
    case (Connecting(up), Initialized(s, j)) => Connecting(up.Add(s, j))
    case (Gathering(nodes), AllOperatorsInitializedOnNode(j)) => Gathering(nodes + {j})
    case _ => p
  }

  /** One read of the selective receive: a wanted message is counted and ends the call, another one is set aside. */
  ghost predicate Reads(a: Node, b: Node, n: nat) {
    && a.queue != [] && Incomplete(a.phase, n) && WantedIn(a.phase).Some?
    && var m := a.queue[0];
    && if WantedIn(a.phase).value.Matches(m)
       then b == a.(phase := Count(a.phase, m), queue := a.queue[1..] + a.stash, stash := [])
       else b == a.(queue := a.queue[1..], stash := a.stash + [m])
  }

  ghost predicate Connects(a: Node, b: Node, n: nat) {
    a.phase.Connecting? && !Incomplete(a.phase, n) && a.stash == [] && b == a.(phase := Starting({}))
  }

  /** A local operator has set itself up and says so. */
  ghost predicate Reports(a: Node, b: Node) {
    exists o :: o in a.operators && a.phase.Starting? && b == a.(ready := a.ready + {o}, reports := a.reports + [o])
  }

  ghost predicate Collects(a: Node, b: Node) {
    && a.phase.Starting? && |a.phase.seen| < |a.operators| && a.reports != []
    && b == a.(phase := Starting(a.phase.seen + {a.reports[0]}), reports := a.reports[1..])
  }

  ghost predicate Starts(a: Node, b: Node) {
    a.phase.Starting? && |a.phase.seen| >= |a.operators| && b == a.(phase := Announcing)
  }

  ghost predicate Gathers(a: Node, b: Node, n: nat) {
    a.phase.Gathering? && !Incomplete(a.phase, n) && a.stash == [] && b == a.(phase := Running)
  }

  /** A sender or receiver task of the node reports; nothing is assumed about which and how often. */
  ghost predicate Hears(a: Node, b: Node) {
    exists side, j :: b == a.(queue := a.queue + [Initialized(side, j)])
  }

  ghost predicate Local(a: Node, b: Node, n: nat) {
    Reads(a, b, n) || Connects(a, b, n) || Reports(a, b) || Collects(a, b) || Starts(a, b) || Gathers(a, b, n) || Hears(a, b)
  }

  // ---------------------------------------------------------------------------------------------
  // Steps of the cluster.

  ghost predicate Works(s: Cluster, i: int, s': Cluster) {
    && 0 <= i < |s.nodes| == |s'.nodes| && Local(s.nodes[i], s'.nodes[i], |s.nodes|)
    && s' == s.(nodes := s.nodes[i := s'.nodes[i]])
  }

  /** Node i tells every other node. */
  ghost predicate Announces(s: Cluster, i: int, s': Cluster) {
    && 0 <= i < |s.nodes| && s.nodes[i].phase.Announcing?
    && s'.nodes == s.nodes[i := s.nodes[i].(phase := Gathering({i}))]
    && (forall x :: s'.flight[x] == s.flight[x] + if ToOthers(s, i, x) then 1 else 0)
  }

  predicate ToOthers(s: Cluster, i: int, x: (NodeId, ControlMessage)) {
    x.1 == AllOperatorsInitializedOnNode(i) && 0 <= x.0 < |s.nodes| && x.0 != i
  }

  ghost predicate Delivers(s: Cluster, i: int, m: ControlMessage, s': Cluster) {
    && 0 <= i < |s.nodes| && (i, m) in s.flight
    && s' == Cluster(s.nodes[i := s.nodes[i].(queue := s.nodes[i].queue + [m])], s.flight - multiset{(i, m)})
  }

  ghost predicate Step(s: Cluster, s': Cluster) {
    || (exists i :: Works(s, i, s'))
    || (exists i :: Announces(s, i, s'))
    || (exists i, m :: Delivers(s, i, m, s'))
  }

  // ---------------------------------------------------------------------------------------------
  // The invariant.

  predicate Announced(p: Phase) { p.Gathering? || p.Running? }

  predicate Set(a: Node) { a.ready == a.operators }

  /** What a node knows about its own operators. */
  ghost predicate OwnOperators(a: Node) {
    && a.ready <= a.operators && (forall o <- a.reports :: o in a.ready)
    && (a.phase.Connecting? ==> a.ready == {})
    && (a.phase.Starting? ==> a.phase.seen <= a.ready && forall o <- a.ready :: o in a.phase.seen || o in a.reports)
    && (a.phase.Announcing? || Announced(a.phase) ==> Set(a))
  }

  /** Between calls nothing is set aside, and what is set aside is never what the loop is waiting for. */
  ghost predicate Tidy(a: Node, n: nat) {
    && (!Incomplete(a.phase, n) ==> a.stash == [])
    && (WantedIn(a.phase).Some? ==> forall m <- a.stash :: !WantedIn(a.phase).value.Matches(m))
  }

  predicate Holds(a: Node, m: ControlMessage) { m in a.queue || m in a.stash }

  predicate Known(s: Cluster, j: NodeId) { 0 <= j < |s.nodes| && Announced(s.nodes[j].phase) }

  ghost predicate HoldsKnown(s: Cluster, a: Node) { forall j :: Holds(a, AllOperatorsInitializedOnNode(j)) ==> Known(s, j) }

  ghost predicate CountsKnown(s: Cluster, a: Node) { a.phase.Gathering? ==> forall j <- a.phase.nodes :: Known(s, j) }

  /** Announcements are made only by nodes that have announced, and only those are counted. */
  ghost predicate Honest(s: Cluster) {
    && (forall i :: 0 <= i < |s.nodes| ==> HoldsKnown(s, s.nodes[i]) && CountsKnown(s, s.nodes[i]))
    && (forall i, j :: (i, AllOperatorsInitializedOnNode(j)) in s.flight ==> Known(s, j))
  }

  /** No announcement is lost: it is under way, queued, set aside or counted. */
  ghost predicate Kept(s: Cluster, i: int, j: int)
    requires 0 <= i < |s.nodes| && 0 <= j < |s.nodes|
  {
    var a := s.nodes[i];
    i != j && Announced(s.nodes[j].phase) ==>
      || (i, AllOperatorsInitializedOnNode(j)) in s.flight || Holds(a, AllOperatorsInitializedOnNode(j))
      || (a.phase.Gathering? && j in a.phase.nodes) || a.phase.Running?
  }

  ghost predicate Lossless(s: Cluster) {
    && (forall i, j :: 0 <= i < |s.nodes| && 0 <= j < |s.nodes| ==> Kept(s, i, j))
    && (forall i :: 0 <= i < |s.nodes| && s.nodes[i].phase.Gathering? ==> i in s.nodes[i].phase.nodes)
  }

  /** The barrier: a node runs only once every operator of every node is ready. */
  ghost predicate Safe(s: Cluster) {
    forall i, j :: 0 <= i < |s.nodes| && 0 <= j < |s.nodes| && s.nodes[i].phase.Running? ==> Announced(s.nodes[j].phase)
  }

  ghost predicate Invariant(s: Cluster) {
    && (forall i :: 0 <= i < |s.nodes| ==> OwnOperators(s.nodes[i]) && Tidy(s.nodes[i], |s.nodes|))
    && Honest(s) && Lossless(s) && Safe(s)
  }

  lemma InitInvariant(s: Cluster)
    requires Init(s)
    ensures Invariant(s)
  {
  }

  lemma LocalOwn(a: Node, b: Node, n: nat)
    requires OwnOperators(a) && Tidy(a, n) && Local(a, b, n)
    ensures OwnOperators(b) && Tidy(b, n) && b.operators == a.operators
  {
    if Reads(a, b, n) {
      ReadOwn(a, b, n);
    } else if Starts(a, b) {
      SubsetSize(a.phase.seen, a.operators);
    } else if Collects(a, b) {
      assert a.reports == [a.reports[0]] + a.reports[1..];
    }
  }

  lemma ReadOwn(a: Node, b: Node, n: nat)
    requires OwnOperators(a) && Tidy(a, n) && Reads(a, b, n)
    ensures OwnOperators(b) && Tidy(b, n) && b.operators == a.operators
  {
  }

  /** A local step announces nothing, forgets no announcement, and counts only what it held. */
  lemma LocalMessages(a: Node, b: Node, n: nat, j: NodeId)
    requires Tidy(a, n) && Local(a, b, n)
    ensures Announced(b.phase) <==> Announced(a.phase)
    ensures Holds(b, AllOperatorsInitializedOnNode(j)) ==> Holds(a, AllOperatorsInitializedOnNode(j))
    ensures b.phase.Gathering? && j in b.phase.nodes ==>
      a.phase.Gathering? && (j in a.phase.nodes || Holds(a, AllOperatorsInitializedOnNode(j)))
    ensures Holds(a, AllOperatorsInitializedOnNode(j)) || (a.phase.Gathering? && j in a.phase.nodes) || a.phase.Running? ==>
      Holds(b, AllOperatorsInitializedOnNode(j)) || (b.phase.Gathering? && j in b.phase.nodes) || b.phase.Running?
    ensures b.phase.Gathering? ==> a.phase.Gathering? && (j in a.phase.nodes ==> j in b.phase.nodes)
    ensures b.phase.Running? && !a.phase.Running? ==> a.phase.Gathering? && |a.phase.nodes| >= n
  {
    if Reads(a, b, n) {
      var m, q := AllOperatorsInitializedOnNode(j), a.queue;
      assert q == [q[0]] + q[1..];
    }
  }

  lemma WorksInvariant(s: Cluster, i: int, s': Cluster)
    requires Invariant(s) && Works(s, i, s')
    ensures Invariant(s')
  {
    hide Honest, Lossless, Safe, OwnOperators, Tidy, Local;
    LocalOwn(s.nodes[i], s'.nodes[i], |s.nodes|);
    WorksHonest(s, i, s');
    WorksLossless(s, i, s');
    WorksSafe(s, i, s');
  }

  lemma SameKnown(s: Cluster, i: int, s': Cluster)
    requires 0 <= i < |s.nodes| && |s'.nodes| == |s.nodes| && s'.nodes == s.nodes[i := s'.nodes[i]]
    requires Announced(s.nodes[i].phase) ==> Announced(s'.nodes[i].phase)
    ensures forall j :: Known(s, j) ==> Known(s', j)
  {
  }

  lemma WorksHonest(s: Cluster, i: int, s': Cluster)
    requires Honest(s) && Works(s, i, s') && Tidy(s.nodes[i], |s.nodes|)
    ensures Honest(s')
  {
    hide Local, Tidy, Holds, Announced;
    var a, b, n := s.nodes[i], s'.nodes[i], |s.nodes|;
    LocalMessages(a, b, n, i);
    SameKnown(s, i, s');
    forall k | 0 <= k < n ensures HoldsKnown(s', s'.nodes[k]) && CountsKnown(s', s'.nodes[k]) {
      assert HoldsKnown(s, s.nodes[k]) && CountsKnown(s, s.nodes[k]);
      if k == i {
        forall j ensures Holds(b, AllOperatorsInitializedOnNode(j)) ==> Known(s', j)
          ensures b.phase.Gathering? && j in b.phase.nodes ==> Known(s', j)
        {
          LocalMessages(a, b, n, j);
        }
      }
    }
  }

  lemma WorksLossless(s: Cluster, i: int, s': Cluster)
    requires Lossless(s) && Works(s, i, s') && Tidy(s.nodes[i], |s.nodes|)
    ensures Lossless(s')
  {
    hide Local, Tidy, Holds, Announced;
    var a, b, n := s.nodes[i], s'.nodes[i], |s.nodes|;
    forall k, j | 0 <= k < n && 0 <= j < n ensures Kept(s', k, j) {
      assert Kept(s, k, j);
      LocalMessages(a, b, n, j);
    }
    LocalMessages(a, b, n, i);
  }

  /** The last announcement a node waits for is everybody's: as many ids as nodes are all of them. */
  lemma WorksSafe(s: Cluster, i: int, s': Cluster)
    requires Safe(s) && Honest(s) && Works(s, i, s') && Tidy(s.nodes[i], |s.nodes|)
    ensures Safe(s')
  {
    hide Local, Tidy, Holds, HoldsKnown, Announced;
    var a, b, n := s.nodes[i], s'.nodes[i], |s.nodes|;
    LocalMessages(a, b, n, i);
    if b.phase.Running? && !a.phase.Running? {
      assert CountsKnown(s, a);
      Full(a.phase.nodes, n);
      forall j | 0 <= j < n ensures Announced(s.nodes[j].phase) { assert j in a.phase.nodes && Known(s, j); }
    }
  }

  lemma AnnouncesInvariant(s: Cluster, i: int, s': Cluster)
    requires Invariant(s) && Announces(s, i, s')
    ensures Invariant(s')
  {
    hide Honest, Lossless;
    assert OwnOperators(s.nodes[i]) && Tidy(s.nodes[i], |s.nodes|);
    AnnouncesHonest(s, i, s');
    AnnouncesLossless(s, i, s');
  }

  lemma AnnouncesHonest(s: Cluster, i: int, s': Cluster)
    requires Honest(s) && Announces(s, i, s')
    ensures Honest(s')
  {
    SameKnown(s, i, s');
    hide Holds, Announced;
    assert Known(s', i);
    forall k | 0 <= k < |s'.nodes| ensures HoldsKnown(s', s'.nodes[k]) && CountsKnown(s', s'.nodes[k]) {
      assert HoldsKnown(s, s.nodes[k]) && CountsKnown(s, s.nodes[k]);
      if k == i { SameHeld(s.nodes[i], s'.nodes[i]); }
    }
    forall k, j | (k, AllOperatorsInitializedOnNode(j)) in s'.flight ensures Known(s', j) {
      var x := (k, AllOperatorsInitializedOnNode(j));
      if !ToOthers(s, i, x) { assert x in s.flight; }
    }
  }

  lemma SameHeld(a: Node, b: Node)
    requires a.queue == b.queue && a.stash == b.stash
    ensures forall m :: Holds(a, m) <==> Holds(b, m)
  {
  }

  lemma AnnouncesLossless(s: Cluster, i: int, s': Cluster)
    requires Lossless(s) && Announces(s, i, s')
    ensures Lossless(s')
  {
    forall k, j | 0 <= k < |s.nodes| && 0 <= j < |s.nodes| ensures Kept(s', k, j) {
      assert Kept(s, k, j);
      var x := (k, AllOperatorsInitializedOnNode(j));
      assert s'.flight[x] >= s.flight[x];
      SameHeld(s.nodes[i], s'.nodes[i]);
      if j == i && k != i { assert ToOthers(s, i, x) && s'.flight[x] >= 1; }
    }
  }

  lemma DeliversInvariant(s: Cluster, i: int, m: ControlMessage, s': Cluster)
    requires Invariant(s) && Delivers(s, i, m, s')
    ensures Invariant(s')
  {
    hide Honest, Lossless;
    assert OwnOperators(s.nodes[i]) && Tidy(s.nodes[i], |s.nodes|);
    DeliversHonest(s, i, m, s');
    DeliversLossless(s, i, m, s');
  }

  lemma DeliversHonest(s: Cluster, i: int, m: ControlMessage, s': Cluster)
    requires Honest(s) && Delivers(s, i, m, s')
    ensures Honest(s')
  {
    SameKnown(s, i, s');
    forall k | 0 <= k < |s'.nodes| ensures HoldsKnown(s', s'.nodes[k]) && CountsKnown(s', s'.nodes[k]) {
      assert HoldsKnown(s, s.nodes[k]) && CountsKnown(s, s.nodes[k]);
      if k == i {
        forall j | Holds(s'.nodes[i], AllOperatorsInitializedOnNode(j)) ensures Known(s', j) {
          if !Holds(s.nodes[i], AllOperatorsInitializedOnNode(j)) { assert (i, AllOperatorsInitializedOnNode(j)) in s.flight; }
        }
      }
    }
    forall k, j | (k, AllOperatorsInitializedOnNode(j)) in s'.flight ensures Known(s', j) {
      assert (k, AllOperatorsInitializedOnNode(j)) in s.flight;
    }
  }

  lemma DeliversLossless(s: Cluster, i: int, m: ControlMessage, s': Cluster)
    requires Lossless(s) && Delivers(s, i, m, s')
    ensures Lossless(s')
  {
    assert m in s'.nodes[i].queue;
    forall k, j | 0 <= k < |s.nodes| && 0 <= j < |s.nodes| ensures Kept(s', k, j) {
      assert Kept(s, k, j);
      var x := (k, AllOperatorsInitializedOnNode(j));
      if x != (i, m) { assert s'.flight[x] == s.flight[x]; }
    }
  }

  // ---------------------------------------------------------------------------------------------
  // Every run.

  ghost predicate IsRun(tr: seq<Cluster>) {
    |tr| > 0 && Init(tr[0]) && forall k :: 0 <= k < |tr| - 1 ==> Step(tr[k], tr[k + 1])
  }

  lemma StepInvariant(s: Cluster, s': Cluster)
    requires Invariant(s) && Step(s, s')
    ensures Invariant(s')
  {
    hide Invariant, Works, Announces, Delivers;
    if i :| Works(s, i, s') {
      WorksInvariant(s, i, s');
    } else if i :| Announces(s, i, s') {
      AnnouncesInvariant(s, i, s');
    } else {
      var i, m :| Delivers(s, i, m, s');
      DeliversInvariant(s, i, m, s');
    }
  }

  lemma {:induction false} RunInvariant(tr: seq<Cluster>, k: nat)
    requires IsRun(tr) && k < |tr|
    ensures Invariant(tr[k])
  {
    if k == 0 {
      InitInvariant(tr[0]);
    } else {
      RunInvariant(tr, k - 1);
      assert Step(tr[k - 1], tr[k - 1 + 1]);
      StepInvariant(tr[k - 1], tr[k]);
    }
  }

  /** The barrier: in every run, once a node tells its operators to run, every operator of every node is ready. */
  lemma Barrier(tr: seq<Cluster>, k: nat, i: int, j: int)
    requires IsRun(tr) && k < |tr| && 0 <= i < |tr[k].nodes| && 0 <= j < |tr[k].nodes|
    requires tr[k].nodes[i].phase.Running?
    ensures tr[k].nodes[j].ready == tr[k].nodes[j].operators
  {
    RunInvariant(tr, k);
    assert Announced(tr[k].nodes[j].phase) && OwnOperators(tr[k].nodes[j]);
  }

  // ---------------------------------------------------------------------------------------------
  // Announcements are made once.

  /** How many copies of node j's announcement are on their way to node i or with it. */
  function Announcements(s: Cluster, i: int, j: int): nat
    requires 0 <= i < |s.nodes|
  {
    var m := AllOperatorsInitializedOnNode(j);
    s.flight[(i, m)] + multiset(s.nodes[i].queue)[m] + multiset(s.nodes[i].stash)[m]
  }

  /** At most one of each other node that has announced, and none of the node itself. */
  ghost predicate Once(s: Cluster) {
    forall i, j :: 0 <= i < |s.nodes| ==> Announcements(s, i, j) <= if i != j && Known(s, j) then 1 else 0
  }

  lemma ReadsOnce(a: Node, b: Node, n: nat, m: ControlMessage)
    requires Reads(a, b, n)
    ensures multiset(b.queue)[m] + multiset(b.stash)[m] <= multiset(a.queue)[m] + multiset(a.stash)[m]
  {
    assert a.queue == [a.queue[0]] + a.queue[1..];
  }

  lemma HearsOnce(a: Node, b: Node, m: ControlMessage)
    requires Hears(a, b) && !m.Initialized?
    ensures multiset(b.queue)[m] == multiset(a.queue)[m] && b.stash == a.stash
  {
  }

  lemma LocalOnce(a: Node, b: Node, n: nat, j: NodeId)
    requires Local(a, b, n)
    ensures var m := AllOperatorsInitializedOnNode(j);
      multiset(b.queue)[m] + multiset(b.stash)[m] <= multiset(a.queue)[m] + multiset(a.stash)[m]
  {
    hide Reads, Hears;
    if Reads(a, b, n) {
      ReadsOnce(a, b, n, AllOperatorsInitializedOnNode(j));
    } else if Hears(a, b) {
      HearsOnce(a, b, AllOperatorsInitializedOnNode(j));
    }
  }

  lemma SameAnnounced(a: Node, b: Node, n: nat)
    requires Local(a, b, n)
    ensures Announced(b.phase) <==> Announced(a.phase)
  {
  }

  lemma WorksOnce(s: Cluster, k: int, s': Cluster, i: int, j: int)
    requires Works(s, k, s') && 0 <= i < |s.nodes|
    ensures Announcements(s', i, j) <= Announcements(s, i, j) && (Known(s', j) <==> Known(s, j))
  {
    hide Local, Announced;
    LocalOnce(s.nodes[k], s'.nodes[k], |s.nodes|, j);
    SameAnnounced(s.nodes[k], s'.nodes[k], |s.nodes|);
  }

  lemma AnnouncesOnce(s: Cluster, k: int, s': Cluster, i: int, j: int)
    requires Announces(s, k, s') && 0 <= i < |s.nodes|
    ensures Announcements(s', i, j) == Announcements(s, i, j) + if j == k && i != k then 1 else 0
    ensures Known(s', j) <==> Known(s, j) || j == k
    ensures !Known(s, k)
  {
  }

  lemma DeliversOnce(s: Cluster, k: int, m: ControlMessage, s': Cluster, i: int, j: int)
    requires Delivers(s, k, m, s') && 0 <= i < |s.nodes|
    ensures Announcements(s', i, j) == Announcements(s, i, j) && (Known(s', j) <==> Known(s, j))
  {
  }

  lemma StepOnce(s: Cluster, s': Cluster)
    requires Once(s) && Step(s, s')
    ensures Once(s')
  {
    hide Works, Announces, Delivers, Announcements, Known;
    StepNodes(s, s');
    forall i, j | 0 <= i < |s'.nodes| ensures Announcements(s', i, j) <= if i != j && Known(s', j) then 1 else 0 {
      assert Announcements(s, i, j) <= if i != j && Known(s, j) then 1 else 0;
      if k :| Works(s, k, s') {
        WorksOnce(s, k, s', i, j);
      } else if k :| Announces(s, k, s') {
        AnnouncesOnce(s, k, s', i, j);
      } else {
        var k, m :| Delivers(s, k, m, s');
        DeliversOnce(s, k, m, s', i, j);
      }
    }
  }

  lemma StepNodes(s: Cluster, s': Cluster)
    requires Step(s, s')
    ensures |s'.nodes| == |s.nodes|
  {
    hide Local;
  }

  /** In every run each node is told by each other node at most once, and never by itself. */
  lemma {:induction false} ToldOnce(tr: seq<Cluster>, k: nat)
    requires IsRun(tr) && k < |tr|
    ensures Once(tr[k])
  {
    hide Step, Once;
    if k == 0 {
      NothingTold(tr[0]);
    } else {
      ToldOnce(tr, k - 1);
      assert Step(tr[k - 1], tr[k - 1 + 1]);
      StepOnce(tr[k - 1], tr[k]);
    }
  }

  lemma NothingTold(s: Cluster)
    requires Init(s)
    ensures Once(s)
  {
  }
}
