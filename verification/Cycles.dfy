/** Events that wait for each other in a circle wait forever. */
module Cycles {
  import opened Basics
  import opened OperatorEvents
  import opened LatticeModel
  import LatticeSearch
  import opened LatticeOrder
  import opened LatticeSteps
  import opened MessageBarrier
  import opened LatticeRuns
  import opened Executor

  // ---------------------------------------------------------------------------------------------
  // One step.

  lemma FirstEdge(l: Lattice, x: Node, y: Node) returns (c: Node)
    requires DependsOn(l, x, y)
    ensures (x, c) in l.edges && Reaches(l, c, y)
  {
    var p :| Path(l, p) && |p| > 1 && p[0] == x && p[|p| - 1] == y;
    PathTail(l, p);
    c := p[1];
    assert p[1..][0] == c && p[1..][|p[1..]| - 1] == y;
  }

  lemma EdgeOn(l: Lattice, x: Node, c: Node, y: Node)
    requires (x, c) in l.edges && Reaches(l, c, y)
    ensures DependsOn(l, x, y)
  {
    var q :| Path(l, q) && q[0] == c && q[|q| - 1] == y;
    var p := [x] + q;
    forall i | 0 <= i < |p| - 1 ensures (p[i], p[i + 1]) in l.edges {
      if i > 0 { assert p[i] == q[i - 1] && p[i + 1] == q[i]; }
    }
    assert Path(l, p) && p[0] == x && p[|p| - 1] == y;
  }

  lemma InsertLocked(l: Lattice, e: OperatorEvent, n: Node, l': Lattice, v: Node)
    requires WellFormed(l) && LatticeSearch.Inserted(l, e, n, l') && DependsOn(l, v, v)
    ensures DependsOn(l', v, v)
  {
    hide WellFormed, LatticeSearch.Trace, LatticeSearch.Final, LatticeSearch.Inserted, DependsOn, Reaches;
    var tr := SearchOf(l, e, n, l');
    LatticeSearch.TraceSane(l, e, tr);
    ExactLeaves(l);
    var st := tr[|tr| - 1];
    var c := FirstEdge(l, v, v);
    SpliceReaches(l, e, n, st, c, v);
    if (v, c) in l'.edges {
      EdgeOn(l', v, c, v);
    } else {
      assert (v, n) in l'.edges && (n, c) in l'.edges;
      ReachEdge(l', n, c);
      ReachOn(l', n, c, v);
      EdgeOn(l', v, n, v);
    }
  }

  lemma FetchLocked(l: Lattice, n: Node, l': Lattice, v: Node)
    requires Fetched(l, n, l') && DependsOn(l, v, v)
    ensures DependsOn(l', v, v)
  {
    var p :| Path(l, p) && |p| > 1 && p[0] == v && p[|p| - 1] == v;
    assert Path(l', p);
  }

  lemma CompleteLocked(l: Lattice, n: Node, l': Lattice, v: Node)
    requires WellFormed(l) && Completed(l, n, l') && DependsOn(l, v, v)
    ensures DependsOn(l', v, v)
  {
    hide WellFormed, Completed, DependsOn;
    CompleteGraph(l, n, l');
    var c := FirstEdge(l, v, v);
    var q :| Path(l, q) && q[0] == c && q[|q| - 1] == v;
    if c == n {
      if |q| > 1 { PathTail(l, q); }
    } else {
      PathAvoids(l, n, l', q);
      EdgeOn(l', v, c, v);
    }
  }

  /** An event in a circle is waiting for something, so it is not handed out. */
  lemma LockedWaits(l: Lattice, v: Node)
    requires WellFormed(l) && DependsOn(l, v, v)
    ensures IsWaiting(l, v) && !IsSink(l, v)
  {
    hide DependsOn, Reaches;
    var c := FirstEdge(l, v, v);
    assert (v, c) in l.edges;
  }

  /** Locked: the event with serial number i is on node v, in a circle, and has not been handed out. */
  ghost predicate Locked(r: Run, v: Node, i: nat) {
    DependsOn(r.lattice, v, v) && v in r.tag && r.tag[v] == i && i !in r.handed
  }

  lemma LockedNow(r: Run, v: Node)
    requires LatticeRuns.Invariant(r) && DependsOn(r.lattice, v, v)
    ensures v in r.tag && Locked(r, v, r.tag[v])
  {
    hide DependsOn, WellFormed;
    LockedWaits(r.lattice, v);
    assert !IsExecuting(r.lattice, v);
  }

  lemma NextLocked(r: Run, r': Run, v: Node, i: nat)
    requires LatticeRuns.Invariant(r) && LatticeRuns.Invariant(r') && Locked(r, v, i) && Next(r, r')
    ensures Locked(r', v, i)
  {
    hide DependsOn, WellFormed, Tagged, Ledger, LatticeSearch.Inserted, Fetched, Completed, WaitingPairs;
    LockedWaits(r.lattice, v);
    if e, n :| Inserts(r, e, n, r') {
      InsertLocked(r.lattice, e, n, r'.lattice, v);
      assert n != v by { NotNew(r.lattice, e, n, r'.lattice); }
    } else if n :| Fetches(r, n, r') {
      FetchLocked(r.lattice, n, r'.lattice, v);
    } else {
      var n :| Completes(r, n, r');
      CompleteLocked(r.lattice, n, r'.lattice, v);
      CompleteWellFormed(r.lattice, n, r'.lattice);
    }
    LockedNow(r', v);
  }

  lemma NotNew(l: Lattice, e: OperatorEvent, n: Node, l': Lattice)
    requires LatticeSearch.Inserted(l, e, n, l')
    ensures n !in l.forest
  {
  }

  // ---------------------------------------------------------------------------------------------
  // Whole runs.

  /** Whatever else is inserted, handed out and completed, an event in a circle is never handed out. */
  lemma {:induction false} LockedForever(tr: seq<Run>, k: nat, m: nat, v: Node)
    requires IsRun(tr) && k <= m < |tr| && DependsOn(tr[k].lattice, v, v)
    ensures v in tr[k].tag && Locked(tr[m], v, tr[k].tag[v])
    decreases m
  {
    hide Next, LatticeRuns.Invariant, DependsOn, Locked;
    RunInvariant(tr, m);
    if m == k {
      LockedNow(tr[k], v);
    } else {
      LockedForever(tr, k, m - 1, v);
      RunInvariant(tr, m - 1);
      assert Next(tr[m - 1], tr[m - 1 + 1]);
      NextLocked(tr[m - 1], tr[m], v, tr[k].tag[v]);
    }
  }

  lemma StepLocked(s: State, s': State, input: seq<seq<OperatorEvent>>, v: Node, i: nat)
    requires Valid(s, input) && Locked(s.run, v, i) && Step(s, s')
    ensures Locked(s'.run, v, i)
  {
    hide Next, Step, LatticeRuns.Invariant, Locked, Owned, Logged, Phased, Fed, Drained;
    StepValid(s, input, s');
    StepNext(s, s');
    if s'.run != s.run { NextLocked(s.run, s'.run, v, i); }
  }

  lemma {:induction false} ExecutionLocked(tr: seq<State>, input: seq<seq<OperatorEvent>>, n: nat, k: nat, m: nat, v: Node)
    requires Execution(tr, input, n) && k <= m < |tr| && DependsOn(tr[k].run.lattice, v, v)
    ensures DependsOn(tr[m].run.lattice, v, v) && v in tr[k].run.tag && Locked(tr[m].run, v, tr[k].run.tag[v])
    decreases m
  {
    hide Step, LatticeRuns.Invariant, DependsOn, Owned, Logged, Phased, Fed, Drained;
    ExecutionValid(tr, input, n, m);
    if m == k {
      LockedNow(tr[k].run, v);
    } else {
      ExecutionLocked(tr, input, n, k, m - 1, v);
      ExecutionValid(tr, input, n, m - 1);
      assert Step(tr[m - 1], tr[m - 1 + 1]);
      StepLocked(tr[m - 1], tr[m], input, v, tr[k].run.tag[v]);
    }
  }

  /** Once all runners have exited, the lattice is empty and every callback was invoked exactly once, exactly if no events
      waited for each other in a circle at any time. */
  lemma DrainUnlessEverCycle(tr: seq<State>, input: seq<seq<OperatorEvent>>, n: nat, k: nat)
    requires Execution(tr, input, n) && k < |tr|
    requires |tr[k].runners| > 0 && forall r <- tr[k].runners :: r.Exited?
    ensures Clean(tr[k], input) <==> forall i :: 0 <= i <= k ==> NoCycle(tr[i].run.lattice)
  {
    hide Execution, Clean, DependsOn;
    DrainUnlessCycle(tr, input, n, k);
    forall i | 0 <= i <= k ensures NoCycle(tr[k].run.lattice) ==> NoCycle(tr[i].run.lattice) {
      forall v | DependsOn(tr[i].run.lattice, v, v) ensures DependsOn(tr[k].run.lattice, v, v) {
        ExecutionLocked(tr, input, n, i, k, v);
      }
    }
    assert NoCycle(tr[k].run.lattice) <==> forall i :: 0 <= i <= k ==> NoCycle(tr[i].run.lattice);
  }
}
