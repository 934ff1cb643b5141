/** The control message handler's queue: selective receive and the counting loops of a node's start-up. */
module ControlMessages {
  import opened Basics

  type NodeId = int
  type OperatorId = nat

  datatype Side = ControlSender | ControlReceiver | DataSender | DataReceiver

  datatype ControlMessage =
    | AllOperatorsInitializedOnNode(node: NodeId)
    | OperatorInitialized(operator: OperatorId)
    | RunOperator(operator: OperatorId)
    | Initialized(side: Side, node: NodeId)

  /** What a selective receive is looking for. */
  datatype Wanted = AllOperators | Connections {
    predicate Matches(m: ControlMessage) {
      match this
      case AllOperators => m.AllOperatorsInitializedOnNode?
      case Connections => m.Initialized?
    }
  }

  /** The nodes whose senders and receivers are known to be set up. */
  datatype Up = Up(controlSenders: set<NodeId>, controlReceivers: set<NodeId>, dataSenders: set<NodeId>, dataReceivers: set<NodeId>) {
    function Of(s: Side): set<NodeId> {
      match s
      case ControlSender => controlSenders
      case ControlReceiver => controlReceivers
      case DataSender => dataSenders
      case DataReceiver => dataReceivers
    }

    predicate Complete(n: nat)
      ensures Complete(n) <==> forall s :: |Of(s)| >= n
    {
      assert |Of(ControlSender)| == |controlSenders| && |Of(ControlReceiver)| == |controlReceivers|;
      assert |Of(DataSender)| == |dataSenders| && |Of(DataReceiver)| == |dataReceivers|;
      |controlSenders| >= n && |controlReceivers| >= n && |dataSenders| >= n && |dataReceivers| >= n
    }

    function Add(s: Side, n: NodeId): Up {
      match s
      case ControlSender => this.(controlSenders := controlSenders + {n})
      case ControlReceiver => this.(controlReceivers := controlReceivers + {n})
      case DataSender => this.(dataSenders := dataSenders + {n})
      case DataReceiver => this.(dataReceivers := dataReceivers + {n})
    }
  }

  lemma AddOf(up: Up, s: Side, n: NodeId)
    ensures forall s' :: up.Add(s, n).Of(s') == up.Of(s') + if s' == s then {n} else {}
  {
  }

  predicate Connected(q: seq<ControlMessage>, up: Up, s: Side, me: NodeId) {
    me in up.Of(s) && forall j <- up.Of(s) :: j == me || Initialized(s, j) in q
  }

  ghost predicate Pending(q: seq<ControlMessage>, queue: seq<ControlMessage>, up: Up) {
    forall s, j :: Initialized(s, j) in q ==> j in up.Of(s) || Initialized(s, j) in queue
  }

  /** The numbers below n. */
  function Below(n: nat): (s: set<NodeId>)
    ensures forall i :: i in s <==> 0 <= i < n
    ensures |s| == n
  {
    if n == 0 then {} else Below(n - 1) + {n - 1}
  }

  /** Pigeonhole: a set of node ids as large as the number of nodes is all of them. */
  lemma Full(s: set<NodeId>, n: nat)
    requires s <= Below(n) && |s| >= n
    ensures s == Below(n)
  {
    SubsetSize(s, Below(n));
  }

  lemma {:induction false} SubsetSize<T>(a: set<T>, b: set<T>)
    requires a <= b
    ensures |a| <= |b| && (|a| == |b| ==> a == b)
  {
    if exists x :: x in a {
      var x :| x in a;
      SubsetSize(a - {x}, b - {x});
      assert a == (a - {x}) + {x} && b == (b - {x}) + {x};
    } else if exists x :: x in b {
      var x :| x in b;
      assert |b - {x}| == |b| - 1;
    }
  }

  class ControlMessageHandler {
    var queue: seq<ControlMessage>

    constructor ()
      ensures queue == []
    {
      queue := [];
    }

    /** Reads until a wanted message turns up and puts the others back at the end. `None`: it is still waiting, with
        everything it read in hand. */
    method ReadMatching(w: Wanted) returns (r: Option<ControlMessage>)
      modifies this
      ensures r.None? <==> forall m <- old(queue) :: !w.Matches(m)
      ensures r.None? ==> queue == old(queue)
      ensures r.Some? ==> exists i :: TakesOut(w, old(queue), i, r, queue)
    {
      ghost var q := queue;
      var skipped: seq<ControlMessage> := [];
      r := None;
      ghost var i := 0;
      while r.None? && queue != []
        invariant 0 <= i <= |q| && r.None?
        invariant skipped == q[..i] && queue == q[i..]
        invariant forall k :: 0 <= k < i ==> !w.Matches(q[k])
        decreases |queue|
      {
        var m := queue[0];
        queue := queue[1..];
        if w.Matches(m) {
          r := Some(m);
          assert TakesOut(w, q, i, r, queue + skipped);
          break;
        }
        skipped := skipped + [m];
        i := i + 1;
      }
      if r.None? { assert q[..i] == q; }
      queue := queue + skipped;
    }

    /** Counts the nodes that have all their operators initialized. `done == false`: still waiting. */
    method WaitForAllOperators(me: NodeId, numNodes: nat) returns (done: bool, nodes: set<NodeId>)
      modifies this
      ensures done <==> |nodes| >= numNodes
      ensures forall j <- nodes :: j == me || AllOperatorsInitializedOnNode(j) in old(queue)
      ensures (forall j :: 0 <= j < numNodes && j != me ==> AllOperatorsInitializedOnNode(j) in old(queue)) ==> done
      ensures forall m | !AllOperators.Matches(m) :: multiset(queue)[m] == multiset(old(queue))[m]
    {
      ghost var q := queue;
      nodes := {me};
      while |nodes| < numNodes
        invariant me in nodes
        invariant forall j <- nodes :: j == me || AllOperatorsInitializedOnNode(j) in q
        invariant forall m <- queue :: m in q
        invariant forall j :: AllOperatorsInitializedOnNode(j) in q ==> j in nodes || AllOperatorsInitializedOnNode(j) in queue
        invariant forall m | !AllOperators.Matches(m) :: multiset(queue)[m] == multiset(q)[m]
        decreases |queue|
      {
        ghost var before := queue;
        var r := ReadMatching(AllOperators);
        if r.None? {
          ghost var j := Absent(nodes, numNodes);
          assert AllOperatorsInitializedOnNode(j) !in q;
          return false, nodes;
        }
        ghost var i :| TakesOut(AllOperators, before, i, r, queue);
        Rotated(before, i);
        nodes := nodes + {r.value.node};
      }
      done := true;
    }

    /** Counts senders and receivers in all four roles. */
    method WaitForConnections(me: NodeId, numNodes: nat) returns (done: bool, up: Up)
      modifies this
      ensures done <==> forall s :: |up.Of(s)| >= numNodes
      ensures forall s :: Connected(old(queue), up, s, me)
      ensures (forall s, j :: 0 <= j < numNodes && j != me ==> Initialized(s, j) in old(queue)) ==> done
      ensures forall m | !Connections.Matches(m) :: multiset(queue)[m] == multiset(old(queue))[m]
    {
      ghost var q := queue;
      up := Up({me}, {me}, {me}, {me});
      while !up.Complete(numNodes)
        invariant forall s :: Connected(q, up, s, me)
        invariant forall m <- queue :: m in q
        invariant Pending(q, queue, up)
        invariant forall m | !Connections.Matches(m) :: multiset(queue)[m] == multiset(q)[m]
        decreases |queue|
      {
        ghost var before := queue;
        var r := ReadMatching(Connections);
        if r.None? {
          StillMissing(q, queue, up, me, numNodes);
          return false, up;
        }
        ghost var i :| TakesOut(Connections, before, i, r, queue);
        Rotated(before, i);
        Counted(q, before, queue, up, i, me);
        up := up.Add(r.value.side, r.value.node);
      }
      done := true;
    }
  }

  lemma Counted(q: seq<ControlMessage>, before: seq<ControlMessage>, queue: seq<ControlMessage>, up: Up, i: int, me: NodeId)
    requires 0 <= i < |before| && TakesOut(Connections, before, i, Some(before[i]), queue)
    requires (forall m <- before :: m in q) && Pending(q, before, up) && forall s :: Connected(q, up, s, me)
    ensures var up' := up.Add(before[i].side, before[i].node);
      Pending(q, queue, up') && forall s :: Connected(q, up', s, me)
  {
    var side, node := before[i].side, before[i].node;
    var up' := up.Add(side, node);
    AddOf(up, side, node);
    Rotated(before, i);
    assert before[i] in before;
    forall s, j | Initialized(s, j) in q ensures j in up'.Of(s) || Initialized(s, j) in queue {
      if Initialized(s, j) in before { assert Initialized(s, j) == before[i] || Initialized(s, j) in queue; }
    }
    forall s ensures Connected(q, up', s, me) {
      assert Connected(q, up, s, me);
      forall j <- up'.Of(s) ensures j == me || Initialized(s, j) in q {
        if j !in up.Of(s) { assert Initialized(s, j) == before[i]; }
      }
    }
  }

  /** With no connection message queued, an incomplete count means some announcement has not arrived. */
  lemma StillMissing(q: seq<ControlMessage>, queue: seq<ControlMessage>, up: Up, me: NodeId, numNodes: nat)
    requires Pending(q, queue, up) && (forall m <- queue :: !Connections.Matches(m)) && forall s :: Connected(q, up, s, me)
    requires !(forall s :: |up.Of(s)| >= numNodes)
    ensures exists s, j :: 0 <= j < numNodes && j != me && Initialized(s, j) !in q
  {
    var s :| |up.Of(s)| < numNodes;
    assert Connected(q, up, s, me);
    forall j ensures Initialized(s, j) !in queue { assert Connections.Matches(Initialized(s, j)); }
    var j := Absent(up.Of(s), numNodes);
  }

  /** Some id below n is not in a set that is too small. */
  lemma Absent(nodes: set<NodeId>, n: nat) returns (j: NodeId)
    requires |nodes| < n
    ensures 0 <= j < n && j !in nodes
  {
    SubsetSize(nodes * Below(n), nodes);
    assert exists i :: i in Below(n) && i !in nodes by {
      assert nodes * Below(n) != Below(n);
    }
    j :| j in Below(n) && j !in nodes;
  }

  /** r is the first match in q, and `rest` what is then queued. */
  predicate TakesOut(w: Wanted, q: seq<ControlMessage>, i: int, r: Option<ControlMessage>, rest: seq<ControlMessage>) {
    && 0 <= i < |q| && w.Matches(q[i]) && (forall k :: 0 <= k < i ==> !w.Matches(q[k]))
    && r == Some(q[i]) && rest == q[i + 1..] + q[..i]
  }

  /** Taking out one message and moving the ones before it to the end loses and invents nothing. */
  lemma Rotated(q: seq<ControlMessage>, i: int)
    requires 0 <= i < |q|
    ensures multiset(q[i + 1..] + q[..i]) + multiset{q[i]} == multiset(q)
    ensures forall m :: m in q <==> m == q[i] || m in q[i + 1..] + q[..i]
  {
    assert q == q[..i] + [q[i]] + q[i + 1..];
    var r := q[i + 1..] + q[..i];
    assert multiset(r) + multiset{q[i]} == multiset(q);
    forall m ensures m in q <==> m == q[i] || m in r { assert m in q <==> m in multiset(q); }
  }
}
