/** What a node has heard before it leaves the first phase of start-up. */
module Connecting {
  import opened Basics
  import opened ControlMessages
  import opened StartUp

  /** The nodes that messages in q report for one side. */
  function Named(q: seq<ControlMessage>, side: Side): set<NodeId> {
    set m <- q | m.Initialized? && m.side == side :: m.node
  }

  /** The nodes reported to node i in its queue, up to state k of the run. */
  ghost function Reported(tr: seq<Cluster>, k: nat, i: int, side: Side): set<NodeId> {
    (if k == 0 then {} else Reported(tr, k - 1, i, side)) + Named(QueueAt(tr, k, i), side)
  }

  function QueueAt(tr: seq<Cluster>, k: nat, i: int): seq<ControlMessage> {
    if k < |tr| && 0 <= i < |tr[k].nodes| then tr[k].nodes[i].queue else []
  }

  lemma {:induction false} SameSize(tr: seq<Cluster>, k: nat)
    requires IsRun(tr) && k < |tr|
    ensures |tr[k].nodes| == |tr[0].nodes|
  {
    hide Local;
    if k > 0 {
      SameSize(tr, k - 1);
      assert Step(tr[k - 1], tr[k - 1 + 1]);
    }
  }

  /** `told` holds whatever the node has set aside or counted, itself excepted. */
  ghost predicate Grounded(a: Node, i: NodeId, told: Side -> set<NodeId>) {
    forall side ::
      && Named(a.queue, side) <= told(side) && Named(a.stash, side) <= told(side)
      && (a.phase.Connecting? ==> a.phase.up.Of(side) <= told(side) + {i})
  }

  /** Nodes enough, this one included, have been reported for every side. */
  ghost predicate Enough(n: nat, i: NodeId, told: Side -> set<NodeId>) { forall side :: |told(side) + {i}| >= n }

  ghost predicate Informed(a: Node, n: nat, i: NodeId, told: Side -> set<NodeId>) {
    Grounded(a, i, told) && (!a.phase.Connecting? ==> Enough(n, i, told))
  }

  // ---------------------------------------------------------------------------------------------
  // One step.

  lemma ReadsInformed(a: Node, b: Node, n: nat, i: NodeId, told: Side -> set<NodeId>)
    requires Informed(a, n, i, told) && Reads(a, b, n)
    ensures Informed(b, n, i, told)
  {
    var m := a.queue[0];
    assert a.queue == [m] + a.queue[1..];
    forall side
      ensures Named(b.queue, side) <= told(side) && Named(b.stash, side) <= told(side)
      ensures b.phase.Connecting? ==> b.phase.up.Of(side) <= told(side) + {i}
    {
      assert m.Initialized? && m.side == side ==> m.node in Named(a.queue, side);
      if a.phase.Connecting? && m.Initialized? { AddOf(a.phase.up, m.side, m.node); }
    }
  }

  /** Leaving the loop takes four full sets. */
  lemma ConnectsInformed(a: Node, b: Node, n: nat, i: NodeId, told: Side -> set<NodeId>)
    requires Informed(a, n, i, told) && Connects(a, b, n)
    ensures Informed(b, n, i, told)
  {
    forall side ensures |told(side) + {i}| >= n {
      assert |a.phase.up.Of(side)| >= n;
      SubsetSize(a.phase.up.Of(side), told(side) + {i});
    }
  }

  /** More may be told in the meantime. */
  lemma ToldMore(a: Node, n: nat, i: NodeId, told: Side -> set<NodeId>, more: Side -> set<NodeId>)
    requires Informed(a, n, i, told) && forall side :: told(side) <= more(side)
    ensures Informed(a, n, i, more)
  {
    forall side ensures |told(side) + {i}| <= |more(side) + {i}| { SubsetSize(told(side) + {i}, more(side) + {i}); }
  }

  /** A step that leaves what was heard alone, except for messages that arrive. */
  lemma OtherInformed(a: Node, b: Node, n: nat, i: NodeId, told: Side -> set<NodeId>)
    requires Informed(a, n, i, told) && b.stash == a.stash && (forall side :: Named(b.queue, side) <= told(side))
    requires if a.phase.Connecting? then b.phase == a.phase else !b.phase.Connecting?
    ensures Informed(b, n, i, told)
  {
  }

  lemma StepInformed(s: Cluster, s': Cluster, i: int, told: Side -> set<NodeId>)
    requires Step(s, s') && 0 <= i < |s.nodes| == |s'.nodes| && Informed(s.nodes[i], |s.nodes|, i, told)
    requires forall side :: Named(s'.nodes[i].queue, side) <= told(side)
    ensures Informed(s'.nodes[i], |s.nodes|, i, told)
  {
    hide Informed, Named;
    var a, b, n := s.nodes[i], s'.nodes[i], |s.nodes|;
    if a != b {
      if Reads(a, b, n) {
        ReadsInformed(a, b, n, i, told);
      } else if Connects(a, b, n) {
        ConnectsInformed(a, b, n, i, told);
      } else {
        OtherInformed(a, b, n, i, told);
      }
    }
  }

  // ---------------------------------------------------------------------------------------------
  // Every run.

  ghost function Told(tr: seq<Cluster>, k: nat, i: int): Side -> set<NodeId> {
    side => Reported(tr, k, i, side)
  }

  lemma {:induction false} RunInformed(tr: seq<Cluster>, k: nat, i: int)
    requires IsRun(tr) && k < |tr| && 0 <= i < |tr[k].nodes|
    ensures Informed(tr[k].nodes[i], |tr[k].nodes|, i, Told(tr, k, i))
  {
    hide Step, Informed, Named;
    if k == 0 {
      FirstInformed(tr, i);
    } else {
      SameSize(tr, k);
      SameSize(tr, k - 1);
      RunInformed(tr, k - 1, i);
      assert Step(tr[k - 1], tr[k - 1 + 1]);
      ToldMore(tr[k - 1].nodes[i], |tr[k].nodes|, i, Told(tr, k - 1, i), Told(tr, k, i));
      StepInformed(tr[k - 1], tr[k], i, Told(tr, k, i));
    }
  }

  lemma FirstInformed(tr: seq<Cluster>, i: int)
    requires IsRun(tr) && 0 <= i < |tr[0].nodes|
    ensures Informed(tr[0].nodes[i], |tr[0].nodes|, i, Told(tr, 0, i))
  {
    hide Step;
    var a := tr[0].nodes[i];
    assert a == Node(Connecting(Up({i}, {i}, {i}, {i})), [], [], [], {}, a.operators);
    forall side ensures a.phase.up.Of(side) == {i} { }
  }

  /** In every run a node that has left the first phase had, for each of the four sides, as many different nodes reported
      in its queue as there are nodes, itself included. */
  lemma ConnectedFirst(tr: seq<Cluster>, k: nat, i: int, side: Side)
    requires IsRun(tr) && k < |tr| && 0 <= i < |tr[k].nodes| && !tr[k].nodes[i].phase.Connecting?
    ensures |Reported(tr, k, i, side) + {i}| >= |tr[k].nodes|
  {
    hide IsRun, Grounded;
    RunInformed(tr, k, i);
    assert |Told(tr, k, i)(side) + {i}| >= |tr[k].nodes|;
  }

  /** If the reports name nodes of the cluster only, these are all of its nodes. */
  lemma AllConnected(tr: seq<Cluster>, k: nat, i: int, side: Side)
    requires IsRun(tr) && k < |tr| && 0 <= i < |tr[k].nodes| && !tr[k].nodes[i].phase.Connecting?
    requires Reported(tr, k, i, side) <= Below(|tr[k].nodes|)
    ensures Reported(tr, k, i, side) + {i} == Below(|tr[k].nodes|)
  {
    hide IsRun;
    ConnectedFirst(tr, k, i, side);
    Full(Reported(tr, k, i, side) + {i}, |tr[k].nodes|);
  }

  /** Together with the barrier: once any node tells its operators to run, every node has had all its connections reported. */
  lemma RunningIsConnected(tr: seq<Cluster>, k: nat, i: int, j: int, side: Side)
    requires IsRun(tr) && k < |tr| && 0 <= i < |tr[k].nodes| && 0 <= j < |tr[k].nodes| && tr[k].nodes[i].phase.Running?
    ensures |Reported(tr, k, j, side) + {j}| >= |tr[k].nodes|
  {
    hide IsRun, Honest, Lossless, OwnOperators, Tidy;
    RunInvariant(tr, k);
    assert Announced(tr[k].nodes[j].phase);
    ConnectedFirst(tr, k, j, side);
  }
}
