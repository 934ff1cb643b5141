/** The start-up of a cluster comes to its end. */
module StartUpProgress {
  import opened Basics
  import opened ControlMessages
  import opened StartUp

  // ---------------------------------------------------------------------------------------------
  // The reads of one loop.

  function Ranks(n: nat): nat { if n == 0 then 0 else Ranks(n - 1) + n + 1 }

  /** A read uses up a message, or sets one aside for the rest of the call. */
  function ReadWork(a: Node): nat { Ranks(|a.queue| + |a.stash|) + |a.queue| }

  lemma ReadCloser(a: Node, b: Node, n: nat)
    requires Reads(a, b, n)
    ensures ReadWork(b) < ReadWork(a)
  {
  }

  /** Node states joined by reads. */
  ghost predicate ReadRun(run: seq<Node>, n: nat) {
    |run| > 0 && forall k :: 0 <= k < |run| - 1 ==> Reads(run[k], run[k + 1], n)
  }

  ghost predicate CanRead(a: Node, n: nat) { exists b :: Reads(a, b, n) }

  lemma {:induction false} ReadsEnd(run: seq<Node>, n: nat, k: nat)
    requires ReadRun(run, n) && k < |run|
    ensures ReadWork(run[k]) + k <= ReadWork(run[0])
  {
    hide Reads, ReadWork;
    if k > 0 {
      ReadsEnd(run, n, k - 1);
      assert Reads(run[k - 1], run[k - 1 + 1], n);
      ReadCloser(run[k - 1], run[k], n);
    }
  }

  lemma WaitsForMore(a: Node, n: nat)
    requires !CanRead(a, n) && Incomplete(a.phase, n)
    ensures a.queue == []
  {
    if a.queue != [] {
      var m := a.queue[0];
      assert Reads(a, if WantedIn(a.phase).value.Matches(m)
        then a.(phase := Count(a.phase, m), queue := a.queue[1..] + a.stash, stash := [])
        else a.(queue := a.queue[1..], stash := a.stash + [m]), n);
    }
  }

  // ---------------------------------------------------------------------------------------------
  // Connections.

  /** The node knows, or will read, that the task for node j is set up. */
  predicate Heard(a: Node, side: Side, j: NodeId) {
    a.phase.Connecting? && (j in a.phase.up.Of(side) || Holds(a, Initialized(side, j)))
  }

  ghost predicate AllConnections(a: Node, n: nat) { forall side, j :: 0 <= j < n ==> Heard(a, side, j) }

  lemma ReadKeepsHeard(a: Node, b: Node, n: nat, side: Side, j: NodeId)
    requires Reads(a, b, n) && Heard(a, side, j)
    ensures Heard(b, side, j)
  {
    var q := a.queue;
    assert q == [q[0]] + q[1..];
    if q[0].Initialized? { AddOf(a.phase.up, q[0].side, q[0].node); }
  }

  lemma ReadKeepsTidy(a: Node, b: Node, n: nat)
    requires Reads(a, b, n) && Tidy(a, n)
    ensures Tidy(b, n) && b.phase.Connecting? == a.phase.Connecting? && b.phase.Gathering? == a.phase.Gathering?
  {
  }

  lemma ConnectionsDone(a: Node, n: nat)
    requires Tidy(a, n) && AllConnections(a, n) && a.phase.Connecting? && !CanRead(a, n)
    ensures Connects(a, a.(phase := Starting({})), n)
  {
    if Incomplete(a.phase, n) {
      WaitsForMore(a, n);
      forall side ensures |a.phase.up.Of(side)| >= n {
        forall j <- Below(n) ensures j in a.phase.up.Of(side) {
          assert Heard(a, side, j) && Connections.Matches(Initialized(side, j));
        }
        SubsetSize(Below(n), a.phase.up.Of(side));
      }
    }
  }

  lemma {:induction false} ReadsKeepHeard(run: seq<Node>, n: nat, k: nat)
    requires ReadRun(run, n) && k < |run| && Tidy(run[0], n) && AllConnections(run[0], n) && run[0].phase.Connecting?
    ensures Tidy(run[k], n) && AllConnections(run[k], n) && run[k].phase.Connecting?
  {
    hide Reads, Tidy, Heard;
    if k > 0 {
      ReadsKeepHeard(run, n, k - 1);
      assert Reads(run[k - 1], run[k - 1 + 1], n);
      ReadKeepsTidy(run[k - 1], run[k], n);
      forall side, j | 0 <= j < n ensures Heard(run[k], side, j) { ReadKeepsHeard(run[k - 1], run[k], n, side, j); }
    }
  }

  /** Once a node has been told of all its connections, every sequence of reads is bounded, and one that cannot be
      continued has counted them all. */
  lemma ConnectingEnds(run: seq<Node>, n: nat)
    requires ReadRun(run, n) && Tidy(run[0], n) && AllConnections(run[0], n) && run[0].phase.Connecting?
    ensures |run| <= ReadWork(run[0]) + 1
    ensures var last := run[|run| - 1]; CanRead(last, n) || Connects(last, last.(phase := Starting({})), n)
  {
    hide ReadRun, Tidy, AllConnections, ReadWork, CanRead, Connects;
    NonEmpty(run, n);
    ReadsEnd(run, n, |run| - 1);
    ReadsKeepHeard(run, n, |run| - 1);
    if !CanRead(run[|run| - 1], n) { ConnectionsDone(run[|run| - 1], n); }
  }

  lemma NonEmpty(run: seq<Node>, n: nat)
    requires ReadRun(run, n)
    ensures |run| > 0
  {
  }

  // ---------------------------------------------------------------------------------------------
  // Operators.

  ghost predicate CollectRun(run: seq<Node>) {
    |run| > 0 && forall k :: 0 <= k < |run| - 1 ==> Collects(run[k], run[k + 1])
  }

  ghost predicate CanCollect(a: Node) { exists b :: Collects(a, b) }

  lemma OperatorsDone(a: Node)
    requires OwnOperators(a) && a.phase.Starting? && Set(a) && !CanCollect(a)
    ensures Starts(a, a.(phase := Announcing))
  {
    if |a.phase.seen| < |a.operators| {
      assert a.reports == [] by {
        if a.reports != [] { assert Collects(a, a.(phase := Starting(a.phase.seen + {a.reports[0]}), reports := a.reports[1..])); }
      }
      SubsetSize(a.operators, a.phase.seen);
    }
  }

  lemma CollectKeeps(a: Node, b: Node)
    requires OwnOperators(a) && Set(a) && Collects(a, b)
    ensures OwnOperators(b) && Set(b) && b.phase.Starting? && |b.reports| == |a.reports| - 1
  {
    assert a.reports == [a.reports[0]] + a.reports[1..];
  }

  lemma {:induction false} CollectsEnd(run: seq<Node>, k: nat)
    requires CollectRun(run) && k < |run| && OwnOperators(run[0]) && Set(run[0]) && run[0].phase.Starting?
    ensures OwnOperators(run[k]) && Set(run[k]) && run[k].phase.Starting? && |run[k].reports| + k == |run[0].reports|
  {
    hide OwnOperators, Collects, Set;
    if k > 0 {
      CollectsEnd(run, k - 1);
      assert Collects(run[k - 1], run[k - 1 + 1]);
      CollectKeeps(run[k - 1], run[k]);
    }
  }

  /** Once all operators of a node have reported, every sequence of collections is bounded, and one that cannot be
      continued has seen them all. */
  lemma StartingEnds(run: seq<Node>)
    requires CollectRun(run) && OwnOperators(run[0]) && Set(run[0]) && run[0].phase.Starting?
    ensures |run| <= |run[0].reports| + 1
    ensures var last := run[|run| - 1]; CanCollect(last) || Starts(last, last.(phase := Announcing))
  {
    hide OwnOperators, CanCollect, Set, Starts;
    CollectsEnd(run, |run| - 1);
    if !CanCollect(run[|run| - 1]) { OperatorsDone(run[|run| - 1]); }
  }

  // ---------------------------------------------------------------------------------------------
  // Announcements.

  predicate Gathered(a: Node, j: NodeId) {
    a.phase.Gathering? && (j in a.phase.nodes || Holds(a, AllOperatorsInitializedOnNode(j)))
  }

  ghost predicate AllAnnouncements(a: Node, n: nat) { forall j :: 0 <= j < n ==> Gathered(a, j) }

  lemma ReadKeepsGathered(a: Node, b: Node, n: nat, j: NodeId)
    requires Reads(a, b, n) && Gathered(a, j)
    ensures Gathered(b, j)
  {
    var q := a.queue;
    assert q == [q[0]] + q[1..];
  }

  lemma AnnouncementsDone(a: Node, n: nat)
    requires Tidy(a, n) && AllAnnouncements(a, n) && a.phase.Gathering? && !CanRead(a, n)
    ensures Gathers(a, a.(phase := Running), n)
  {
    if Incomplete(a.phase, n) {
      WaitsForMore(a, n);
      forall j <- Below(n) ensures j in a.phase.nodes {
        assert Gathered(a, j) && AllOperators.Matches(AllOperatorsInitializedOnNode(j));
      }
      SubsetSize(Below(n), a.phase.nodes);
    }
  }

  lemma {:induction false} ReadsKeepGathered(run: seq<Node>, n: nat, k: nat)
    requires ReadRun(run, n) && k < |run| && Tidy(run[0], n) && AllAnnouncements(run[0], n) && run[0].phase.Gathering?
    ensures Tidy(run[k], n) && AllAnnouncements(run[k], n) && run[k].phase.Gathering?
  {
    hide Reads, Tidy, Gathered;
    if k > 0 {
      ReadsKeepGathered(run, n, k - 1);
      assert Reads(run[k - 1], run[k - 1 + 1], n);
      ReadKeepsTidy(run[k - 1], run[k], n);
      forall j | 0 <= j < n ensures Gathered(run[k], j) { ReadKeepsGathered(run[k - 1], run[k], n, j); }
    }
  }

  /** Nothing for node i is under way. */
  ghost predicate Arrived(s: Cluster, i: int) { forall m :: (i, m) !in s.flight }

  ghost predicate AllAnnounced(s: Cluster) { forall j :: 0 <= j < |s.nodes| ==> Announced(s.nodes[j].phase) }

  lemma GatheredAll(s: Cluster, i: int)
    requires Invariant(s) && 0 <= i < |s.nodes| && s.nodes[i].phase.Gathering? && AllAnnounced(s) && Arrived(s, i)
    ensures Tidy(s.nodes[i], |s.nodes|) && AllAnnouncements(s.nodes[i], |s.nodes|)
  {
    hide Honest, Safe, OwnOperators;
    forall j | 0 <= j < |s.nodes| ensures Gathered(s.nodes[i], j) { assert Kept(s, i, j); }
  }

  /** When every node has announced and nothing for node i is under way any more, every sequence of node i's reads is
      bounded, and one that cannot be continued lets it run. */
  lemma GatheringEnds(tr: seq<Cluster>, k: nat, i: int, run: seq<Node>)
    requires IsRun(tr) && k < |tr| && 0 <= i < |tr[k].nodes| && tr[k].nodes[i].phase.Gathering?
    requires AllAnnounced(tr[k]) && Arrived(tr[k], i)
    requires ReadRun(run, |tr[k].nodes|) && run[0] == tr[k].nodes[i]
    ensures |run| <= ReadWork(run[0]) + 1
    ensures var last, n := run[|run| - 1], |tr[k].nodes|; CanRead(last, n) || Gathers(last, last.(phase := Running), n)
  {
    hide IsRun, Invariant, AllAnnounced, Arrived, ReadRun, Tidy, AllAnnouncements, ReadWork, CanRead, Gathers;
    var n := |tr[k].nodes|;
    NonEmpty(run, n);
    RunInvariant(tr, k);
    GatheredAll(tr[k], i);
    ReadsEnd(run, n, |run| - 1);
    ReadsKeepGathered(run, n, |run| - 1);
    if !CanRead(run[|run| - 1], n) { AnnouncementsDone(run[|run| - 1], n); }
  }

  // ---------------------------------------------------------------------------------------------
  // The whole cluster.

  /** An operator that has not reported yet does. */
  ghost predicate NewlyReports(a: Node, b: Node) {
    exists o :: o in a.operators && o !in a.ready && a.phase.Starting? && b == a.(ready := a.ready + {o}, reports := a.reports + [o])
  }

  /** What a node does of its own accord. */
  ghost predicate Acts(a: Node, b: Node, n: nat) {
    Reads(a, b, n) || Connects(a, b, n) || NewlyReports(a, b) || Collects(a, b) || Starts(a, b) || Gathers(a, b, n)
  }

  ghost predicate ActsAt(s: Cluster, i: int, s': Cluster) {
    && 0 <= i < |s.nodes| == |s'.nodes| && Acts(s.nodes[i], s'.nodes[i], |s.nodes|)
    && s' == s.(nodes := s.nodes[i := s'.nodes[i]])
  }

  ghost predicate Advances(s: Cluster, s': Cluster) {
    || (exists i :: ActsAt(s, i, s'))
    || (exists i :: Announces(s, i, s'))
    || (exists i, m :: Delivers(s, i, m, s'))
  }

  ghost predicate CanAdvance(s: Cluster) { exists s' :: Advances(s, s') }

  lemma AdvancesStep(s: Cluster, s': Cluster)
    requires Advances(s, s')
    ensures Step(s, s')
  {
    hide Reads, Connects, Collects, Starts, Gathers, Announces, Delivers;
    if i :| ActsAt(s, i, s') {
      assert Local(s.nodes[i], s'.nodes[i], |s.nodes|);
      assert Works(s, i, s');
    }
  }

  /** Every node that is still connecting has been told of all its connections. */
  ghost predicate AllHeard(s: Cluster) {
    forall i :: 0 <= i < |s.nodes| && s.nodes[i].phase.Connecting? ==> AllConnections(s.nodes[i], |s.nodes|)
  }

  lemma AdvancesHeard(s: Cluster, s': Cluster)
    requires AllHeard(s) && Advances(s, s')
    ensures AllHeard(s')
  {
    hide Heard;
    forall i | 0 <= i < |s'.nodes| && s'.nodes[i].phase.Connecting? ensures AllConnections(s'.nodes[i], |s'.nodes|) {
      assert |s'.nodes| == |s.nodes|;
      forall side, j | 0 <= j < |s.nodes| ensures Heard(s'.nodes[i], side, j) {
        if s'.nodes[i] != s.nodes[i] { StillHeard(s, s', i, side, j); }
      }
    }
  }

  lemma StillHeard(s: Cluster, s': Cluster, i: int, side: Side, j: NodeId)
    requires AllHeard(s) && Advances(s, s') && 0 <= i < |s.nodes| == |s'.nodes| && 0 <= j < |s.nodes|
    requires s'.nodes[i].phase.Connecting? && s'.nodes[i] != s.nodes[i]
    ensures Heard(s'.nodes[i], side, j)
  {
    hide Heard, Reads, ToOthers, AllConnections, Holds;
    var a, b := s.nodes[i], s'.nodes[i];
    if Reads(a, b, |s.nodes|) {
      ReadKeepsTold(a, b, |s.nodes|, side, j);
    } else {
      assert a.phase == b.phase && a.queue <= b.queue && a.stash == b.stash;
      ToldMore(a, b, |s.nodes|, side, j);
    }
  }

  lemma ReadKeepsTold(a: Node, b: Node, n: nat, side: Side, j: NodeId)
    requires Reads(a, b, n) && b.phase.Connecting? && (a.phase.Connecting? ==> AllConnections(a, n)) && 0 <= j < n
    ensures Heard(b, side, j)
  {
    hide Heard;
    assert Heard(a, side, j);
    ReadKeepsHeard(a, b, n, side, j);
  }

  lemma ToldMore(a: Node, b: Node, n: nat, side: Side, j: NodeId)
    requires a.phase == b.phase && a.queue <= b.queue && a.stash == b.stash
    requires b.phase.Connecting? && AllConnections(a, n) && 0 <= j < n
    ensures Heard(b, side, j)
  {
    assert Heard(a, side, j);
  }

  // Nothing left to do.

  lemma CannotAct(s: Cluster, i: int, b: Node)
    requires !CanAdvance(s) && 0 <= i < |s.nodes|
    ensures !Acts(s.nodes[i], b, |s.nodes|)
  {
    hide Acts;
    var s' := s.(nodes := s.nodes[i := b]);
    assert !Advances(s, s');
    assert !ActsAt(s, i, s');
  }

  lemma CannotRead(s: Cluster, i: int)
    requires !CanAdvance(s) && 0 <= i < |s.nodes|
    ensures !CanRead(s.nodes[i], |s.nodes|) && !CanCollect(s.nodes[i])
    ensures forall b :: !Connects(s.nodes[i], b, |s.nodes|)
    ensures forall b :: !Starts(s.nodes[i], b)
    ensures forall b :: !Gathers(s.nodes[i], b, |s.nodes|)
    ensures s.nodes[i].phase.Starting? ==> s.nodes[i].operators <= s.nodes[i].ready
  {
    hide CanAdvance, Reads, Connects, Collects, Starts, Gathers;
    var a, n := s.nodes[i], |s.nodes|;
    forall b ensures !Reads(a, b, n) { CannotAct(s, i, b); }
    forall b ensures !Collects(a, b) { CannotAct(s, i, b); }
    forall b ensures !Connects(a, b, n) { CannotAct(s, i, b); }
    forall b ensures !Starts(a, b) { CannotAct(s, i, b); }
    forall b ensures !Gathers(a, b, n) { CannotAct(s, i, b); }
    if a.phase.Starting? {
      forall o <- a.operators ensures o in a.ready {
        CannotAct(s, i, a.(ready := a.ready + {o}, reports := a.reports + [o]));
      }
    }
  }

  lemma CanAnnounce(s: Cluster, i: int)
    requires 0 <= i < |s.nodes| && s.nodes[i].phase.Announcing?
    ensures CanAdvance(s)
  {
    var others := set j <- Below(|s.nodes|) | j != i :: (j, AllOperatorsInitializedOnNode(i));
    var s' := Cluster(s.nodes[i := s.nodes[i].(phase := Gathering({i}))], s.flight + multiset(others));
    forall x ensures s'.flight[x] == s.flight[x] + if ToOthers(s, i, x) then 1 else 0 {
      assert x in others <==> ToOthers(s, i, x);
    }
    assert Announces(s, i, s');
    assert Advances(s, s');
  }

  lemma CanDeliver(s: Cluster, i: int, m: ControlMessage)
    requires 0 <= i < |s.nodes| && (i, m) in s.flight
    ensures CanAdvance(s)
  {
    var s' := Cluster(s.nodes[i := s.nodes[i].(queue := s.nodes[i].queue + [m])], s.flight - multiset{(i, m)});
    assert Delivers(s, i, m, s');
    assert Advances(s, s');
  }

  lemma CannotAnnounce(s: Cluster, i: int)
    requires !CanAdvance(s) && 0 <= i < |s.nodes|
    ensures !s.nodes[i].phase.Announcing? && Arrived(s, i)
  {
    hide CanAdvance;
    if s.nodes[i].phase.Announcing? { CanAnnounce(s, i); }
    forall m ensures (i, m) !in s.flight {
      if (i, m) in s.flight { CanDeliver(s, i, m); }
    }
  }

  lemma PastStart(s: Cluster, i: int)
    requires Invariant(s) && AllHeard(s) && !CanAdvance(s) && 0 <= i < |s.nodes|
    ensures Announced(s.nodes[i].phase)
  {
    hide Honest, Lossless, Safe, CanAdvance, Connects, Starts, Gathers, CanRead, CanCollect;
    CannotRead(s, i);
    CannotAnnounce(s, i);
    var a := s.nodes[i];
    if a.phase.Connecting? {
      ConnectionsDone(a, |s.nodes|);
    } else if a.phase.Starting? {
      OperatorsDone(a);
    }
  }

  /** A cluster whose nodes know of their connections and that can do nothing more is running. */
  lemma Quiescent(s: Cluster, i: int)
    requires Invariant(s) && AllHeard(s) && !CanAdvance(s) && 0 <= i < |s.nodes|
    ensures s.nodes[i].phase.Running?
  {
    hide Invariant, AllHeard, CanAdvance, Gathers, CanRead, Tidy, AllAnnouncements, Arrived;
    forall j | 0 <= j < |s.nodes| ensures Announced(s.nodes[j].phase) { PastStart(s, j); }
    CannotRead(s, i);
    CannotAnnounce(s, i);
    if s.nodes[i].phase.Gathering? {
      GatheredAll(s, i);
      AnnouncementsDone(s.nodes[i], |s.nodes|);
    }
  }

  // Getting closer.

  function Sum(nodes: seq<Node>, f: Node -> nat): nat {
    if nodes == [] then 0 else Sum(nodes[..|nodes| - 1], f) + f(nodes[|nodes| - 1])
  }

  lemma {:induction false} SumUpdate(nodes: seq<Node>, i: int, b: Node, f: Node -> nat)
    requires 0 <= i < |nodes|
    ensures Sum(nodes[i := b], f) + f(nodes[i]) == Sum(nodes, f) + f(b)
  {
    var n := |nodes| - 1;
    if i < n {
      SumUpdate(nodes[..n], i, b, f);
      assert nodes[i := b][..n] == nodes[..n][i := b];
    } else {
      assert nodes[i := b][..n] == nodes[..n];
    }
  }

  function Stage(a: Node): nat {
    match a.phase
    case Connecting(_) => 4
    case Starting(_) => 3
    case Announcing => 2
    case Gathering(_) => 1
    case Running => 0
  }

  function Unready(a: Node): nat { |a.operators - a.ready| }

  function Backlog(a: Node): nat { ReadWork(a) + |a.reports| }

  /** Phases still to go through, operators not ready, messages under way, messages to be read. */
  ghost predicate Closer(s: Cluster, s': Cluster) {
    || Sum(s'.nodes, Stage) < Sum(s.nodes, Stage)
    || (Sum(s'.nodes, Stage) == Sum(s.nodes, Stage) && (
          || Sum(s'.nodes, Unready) < Sum(s.nodes, Unready)
          || (Sum(s'.nodes, Unready) == Sum(s.nodes, Unready) && (
                || |s'.flight| < |s.flight|
                || (|s'.flight| == |s.flight| && Sum(s'.nodes, Backlog) < Sum(s.nodes, Backlog))))))
  }

  lemma ActCloser(a: Node, b: Node, n: nat)
    requires Acts(a, b, n)
    ensures || Stage(b) < Stage(a)
            || (Stage(b) == Stage(a) && (Unready(b) < Unready(a) || (Unready(b) == Unready(a) && Backlog(b) < Backlog(a))))
  {
    hide ReadWork;
    if Reads(a, b, n) {
      ReadCloser(a, b, n);
    } else if NewlyReports(a, b) {
      var o :| o in a.operators && o !in a.ready && b == a.(ready := a.ready + {o}, reports := a.reports + [o]);
      assert a.operators - b.ready == (a.operators - a.ready) - {o};
    } else if Collects(a, b) {
      SameWork(a, b);
    }
  }

  lemma SameWork(a: Node, b: Node)
    requires a.queue == b.queue && a.stash == b.stash
    ensures ReadWork(a) == ReadWork(b)
  {
  }

  lemma AdvancesCloser(s: Cluster, s': Cluster)
    requires Advances(s, s')
    ensures Closer(s, s')
  {
    hide Acts, Unready, Backlog, Sum;
    if i :| ActsAt(s, i, s') {
      ActCloser(s.nodes[i], s'.nodes[i], |s.nodes|);
      Sums(s, i, s');
    } else if i :| Announces(s, i, s') {
      Sums(s, i, s');
    } else {
      var i, m :| Delivers(s, i, m, s');
      Sums(s, i, s');
      assert Unready(s'.nodes[i]) == Unready(s.nodes[i]) by { SameUnready(s.nodes[i], s'.nodes[i]); }
    }
  }

  lemma SameUnready(a: Node, b: Node)
    requires a.operators == b.operators && a.ready == b.ready
    ensures Unready(a) == Unready(b)
  {
  }

  lemma Sums(s: Cluster, i: int, s': Cluster)
    requires 0 <= i < |s.nodes| == |s'.nodes| && s'.nodes == s.nodes[i := s'.nodes[i]]
    ensures Sum(s'.nodes, Stage) + Stage(s.nodes[i]) == Sum(s.nodes, Stage) + Stage(s'.nodes[i])
    ensures Sum(s'.nodes, Unready) + Unready(s.nodes[i]) == Sum(s.nodes, Unready) + Unready(s'.nodes[i])
    ensures Sum(s'.nodes, Backlog) + Backlog(s.nodes[i]) == Sum(s.nodes, Backlog) + Backlog(s'.nodes[i])
  {
    hide Sum, Stage, Unready, Backlog;
    SumUpdate(s.nodes, i, s'.nodes[i], Stage);
    SumUpdate(s.nodes, i, s'.nodes[i], Unready);
    SumUpdate(s.nodes, i, s'.nodes[i], Backlog);
  }

  ghost predicate AllRunning(s: Cluster) { forall i :: 0 <= i < |s.nodes| ==> s.nodes[i].phase.Running? }

  /** The cluster takes some step, whichever, as long as there is one. */
  ghost predicate Behaviour(tr: nat -> Cluster) {
    forall i: nat :: CanAdvance(tr(i)) ==> Advances(tr(i), tr(i + 1))
  }

  /** From any state of any run in which every node has been told of its connections, whatever is delivered and read in
      which order, every node comes to run. */
  lemma {:induction false} AlwaysStarts(tr: nat -> Cluster, i: nat) returns (k: nat)
    requires Behaviour(tr) && Invariant(tr(i)) && AllHeard(tr(i))
    ensures k >= i && Invariant(tr(k)) && AllRunning(tr(k))
    decreases Sum(tr(i).nodes, Stage), Sum(tr(i).nodes, Unready), |tr(i).flight|, Sum(tr(i).nodes, Backlog)
  {
    hide Invariant, AllHeard, Advances, CanAdvance, Sum;
    if CanAdvance(tr(i)) {
      assert Advances(tr(i), tr(i + 1));
      AdvancesStep(tr(i), tr(i + 1));
      StepInvariant(tr(i), tr(i + 1));
      AdvancesHeard(tr(i), tr(i + 1));
      AdvancesCloser(tr(i), tr(i + 1));
      k := AlwaysStarts(tr, i + 1);
    } else {
      k := i;
      forall j | 0 <= j < |tr(i).nodes| ensures tr(i).nodes[j].phase.Running? { Quiescent(tr(i), j); }
    }
  }

  /** The same for a run: it can be carried on to a state in which every node runs. */
  lemma {:induction false} RunStarts(tr: seq<Cluster>) returns (tr': seq<Cluster>)
    requires IsRun(tr) && AllHeard(tr[|tr| - 1])
    ensures IsRun(tr') && tr <= tr' && AllRunning(tr'[|tr'| - 1])
    decreases Sum(tr[|tr| - 1].nodes, Stage), Sum(tr[|tr| - 1].nodes, Unready), |tr[|tr| - 1].flight|,
      Sum(tr[|tr| - 1].nodes, Backlog)
  {
    hide Invariant, AllHeard, Advances, CanAdvance, Sum, Step;
    var s := tr[|tr| - 1];
    RunInvariant(tr, |tr| - 1);
    if CanAdvance(s) {
      var s' := Advance(s);
      AdvancesStep(s, s');
      AdvancesHeard(s, s');
      AdvancesCloser(s, s');
      Appended(tr, s');
      tr' := RunStarts(tr + [s']);
    } else {
      tr' := tr;
      forall j | 0 <= j < |s.nodes| ensures s.nodes[j].phase.Running? { Quiescent(s, j); }
    }
  }

  lemma Advance(s: Cluster) returns (s': Cluster)
    requires CanAdvance(s)
    ensures Advances(s, s')
  {
    s' :| Advances(s, s');
  }

  lemma Appended(tr: seq<Cluster>, s: Cluster)
    requires IsRun(tr) && Step(tr[|tr| - 1], s)
    ensures IsRun(tr + [s])
  {
    hide Step;
    var t := tr + [s];
    forall i | 0 <= i < |t| - 1 ensures Step(t[i], t[i + 1]) {
      if i < |tr| - 1 { assert Step(tr[i], tr[i + 1]); }
    }
  }
}
