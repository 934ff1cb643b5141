/** The executor never gets stuck and never runs forever: on a finite input every behaviour comes to its end, and if the
    input is manageable every callback has been invoked by then. */
module ExecutorProgress {
  import opened OperatorEvents
  import opened Basics
  import opened LatticeModel
  import LatticeSearch
  import opened LatticeOrder
  import opened LatticeSteps
  import opened LatticeRuns
  import opened Executor
  import ExecutionLattices
  import Timestamps

  // ---------------------------------------------------------------------------------------------
  // Every lattice operation can be carried out.

  lemma {:induction false} Enumerate<T>(s: set<T>) returns (q: seq<T>)
    ensures Distinct(q) && forall x :: x in q <==> x in s
  {
    if s == {} {
      q := [];
    } else {
      var x :| x in s;
      q := Enumerate(s - {x});
      q := q + [x];
    }
  }

  /** The search can always continue, so it comes to its end. */
  lemma {:induction false} SearchEnds(l: Lattice, e: OperatorEvent, tr: seq<LatticeSearch.Search>)
    returns (tr': seq<LatticeSearch.Search>)
    requires WellFormed(l) && LatticeSearch.Trace(l, e, tr) && LatticeSearch.Sane(l, tr[|tr| - 1])
    requires forall v :: IsWaiting(l, v) ==>
      Compare(e, l.forest[v].value) != Circular && Compare(l.forest[v].value, e) != Circular
    ensures LatticeSearch.Trace(l, e, tr') && LatticeSearch.Final(l, tr'[|tr'| - 1])
    decreases |l.leaves| - tr[|tr| - 1].next, l.forest.Keys - tr[|tr| - 1].discovered, |tr[|tr| - 1].stack|
  {
    var st := tr[|tr| - 1];
    if LatticeSearch.Final(l, st) {
      tr' := tr;
    } else {
      var st' := NextStep(l, e, st);
      LatticeSearch.StepSane(l, e, st, st');
      assert LatticeSearch.Trace(l, e, tr + [st']) by {
        forall i | 0 <= i < |tr| ensures LatticeSearch.Step(l, e, (tr + [st'])[i], (tr + [st'])[i + 1]) { }
      }
      tr' := SearchEnds(l, e, tr + [st']);
    }
  }

  lemma NextStep(l: Lattice, e: OperatorEvent, st: LatticeSearch.Search) returns (st': LatticeSearch.Search)
    requires WellFormed(l) && LatticeSearch.Sane(l, st) && !LatticeSearch.Final(l, st)
    requires forall v :: IsWaiting(l, v) ==>
      Compare(e, l.forest[v].value) != Circular && Compare(l.forest[v].value, e) != Circular
    ensures LatticeSearch.Step(l, e, st, st')
    ensures st'.next >= st.next && st'.discovered >= st.discovered
    ensures st'.next > st.next || (exists v :: v in st'.discovered && v !in st.discovered) || |st'.stack| < |st.stack|
  {
    if st.stack == [] {
      st' := st.(stack := [l.leaves[st.next]], next := st.next + 1);
      assert LatticeSearch.Starts(l, st, st');
    } else {
      var v := st.stack[|st.stack| - 1];
      if v !in st.discovered {
        var more := Enumerate(set p <- l.forest | (p, v) in l.edges && p !in st.discovered + {v});
        st' := st.(discovered := st.discovered + {v}, stack := st.stack + more);
        assert st'.stack[|st.stack|..] == more;
        assert LatticeSearch.Discovers(l, st, st');
      } else if v in st.finished {
        st' := st.(stack := st.stack[..|st.stack| - 1]);
        assert LatticeSearch.Drops(l, st, st');
      } else {
        assert !LatticeSearch.Panics(l, e, st, v);
        st' := LatticeSearch.Visit(l, st, LatticeSearch.Verdict(l, e, v), LatticeSearch.Above(l, e, v));
        assert LatticeSearch.Visits(l, e, st, st');
      }
    }
  }

  lemma CanInsert(r: Run, e: OperatorEvent) returns (n: Node, r': Run)
    requires LatticeRuns.Invariant(r)
    requires forall v :: IsWaiting(r.lattice, v) ==>
      Compare(e, r.lattice.forest[v].value) != Circular && Compare(r.lattice.forest[v].value, e) != Circular
    ensures Inserts(r, e, n, r')
  {
    hide Compare, Tagged, Ledger, MetLive;
    var l := r.lattice;
    n := FreshNode(l.forest.Keys);
    var tr := SearchEnds(l, e, [LatticeSearch.START]);
    var l' := LatticeSearch.Splice(l, e, n, tr[|tr| - 1]);
    assert LatticeSearch.Inserted(l, e, n, l');
    var tag := r.tag[n := |r.events|];
    r' := Run(l', tag, r.events + [e], r.met + WaitingPairs(l', tag), r.handed, r.done);
  }

  lemma {:induction false} FreshNode(s: set<Node>) returns (n: Node)
    ensures n !in s && forall v <- s :: v < n
  {
    n := 0;
    var q := Enumerate(s);
    for i := 0 to |q|
      invariant forall j :: 0 <= j < i ==> q[j] < n
    {
      if q[i] >= n { n := q[i] + 1; }
    }
  }

  lemma CanFetch(r: Run) returns (n: Node, r': Run)
    requires LatticeRuns.Invariant(r) && r.lattice.runQueue != []
    ensures Fetches(r, n, r')
  {
    var l := r.lattice;
    var i := GreatestEntry(l.runQueue);
    n := l.runQueue[i].node;
    assert QueueNodes(l.runQueue)[i] == n && n in QueueNodes(l.runQueue);
    var l' := l.(forest := l.forest[n := None], runQueue := RemoveAt(l.runQueue, i));
    assert Fetched(l, n, l');
    r' := r.(lattice := l', handed := r.handed + [r.tag[n]]);
  }

  lemma {:induction false} GreatestEntry(q: seq<RunnableEvent>) returns (best: nat)
    requires |q| > 0 && forall r <- q :: r.timestamp.Some?
    ensures best < |q| && forall r <- q :: CmpRunnable(q[best], r) != Timestamps.Less
  {
    best := 0;
    if |q| > 1 {
      var k := GreatestEntry(q[1..]);
      k := k + 1;
      ExecutionLattices.RunnableTotal(q[0], q[k]);
      best := if CmpRunnable(q[0], q[k]) == Timestamps.Less then k else 0;
      forall r <- q[1..] ensures CmpRunnable(q[best], r) != Timestamps.Less {
        if best == 0 { ExecutionLattices.RunnableTransitive(q[0], q[k], r); }
      }
    }
    ExecutionLattices.RunnableTotal(q[0], q[0]);
    assert forall r <- q :: r == q[0] || r in q[1..];
  }

  lemma CanComplete(r: Run, n: Node) returns (r': Run)
    requires LatticeRuns.Invariant(r) && IsExecuting(r.lattice, n)
    ensures Completes(r, n, r')
  {
    var l := r.lattice;
    ExecutingIsSink(l, n);
    var i :| 0 <= i < |l.leaves| && l.leaves[i] == n;
    var up := Enumerate(set p <- l.forest | Promoted(l, n, p));
    forall p ensures p in up <==> Promoted(l, n, p) { }
    var l' := Unlink(l, n, i, up);
    assert Completed(l, n, l');
    r' := r.(lattice := l', tag := r.tag - {n}, done := r.done + [r.tag[n]]);
  }

  lemma ExecutingIsSink(l: Lattice, n: Node)
    requires WellFormed(l) && IsExecuting(l, n)
    ensures IsSink(l, n) && n in l.leaves
  {
  }

  // ---------------------------------------------------------------------------------------------
  // The executor is never stuck.

  /** The input as a family of events, by position. */
  ghost function Family(input: seq<seq<OperatorEvent>>): map<int, OperatorEvent> {
    var all := Flatten(input);
    map i | 0 <= i < |all| :: all[i]
  }

  /** No two events of the input read what the other one writes, so that no comparison panics. */
  ghost predicate CircularFree(input: seq<seq<OperatorEvent>>) {
    var w := Family(input);
    forall i <- w, j <- w | i != j :: Compare(w[i], w[j]) != Circular
  }

  ghost predicate ManageableInput(input: seq<seq<OperatorEvent>>) { Manageable(Family(input)) }

  lemma ManageableCircularFree(input: seq<seq<OperatorEvent>>)
    requires ManageableInput(input)
    ensures CircularFree(input)
  {
    hide Compare, WeakFamily, FewTies;
    var w := Family(input);
    forall i <- w, j <- w | i != j ensures Compare(w[i], w[j]) != Circular { CompareBothWays(w, i, j); }
  }

  /** Whatever waits is part of the input. */
  lemma ManageableState(s: State, input: seq<seq<OperatorEvent>>)
    requires Tagged(s.run) && Fed(s, input) && ManageableInput(input)
    ensures Manageable(Waiting(s.run.lattice))
  {
    hide Manageable;
    var w := Waiting(s.run.lattice);
    var place: map<Node, int> := map v | v in w :: s.run.tag[v];
    forall v <- w ensures place[v] in Family(input) && Family(input)[place[v]] == w[v] {
      assert IsWaiting(s.run.lattice, v);
    }
    forall u <- w, v <- w | u != v ensures place[u] != place[v] {
      assert IsWaiting(s.run.lattice, u) && IsWaiting(s.run.lattice, v);
    }
    Subfamily(w, Family(input), place);
  }

  lemma NextComparable(s: State, input: seq<seq<OperatorEvent>>, v: Node)
    requires Tagged(s.run) && Fed(s, input) && CircularFree(input)
    requires s.producer.Adding? && s.producer.batch != [] && IsWaiting(s.run.lattice, v)
    ensures var e, x := s.producer.batch[0], s.run.lattice.forest[v].value; Compare(e, x) != Circular && Compare(x, e) != Circular
  {
    hide Compare;
    InputAt(s, input);
    var w := Family(input);
    assert w[|s.run.events|] == s.producer.batch[0] && w[s.run.tag[v]] == s.run.lattice.forest[v].value;
  }

  lemma InputAt(s: State, input: seq<seq<OperatorEvent>>)
    requires Fed(s, input) && s.producer.Adding? && s.producer.batch != []
    ensures |s.run.events| < |Flatten(input)| && Flatten(input)[|s.run.events|] == s.producer.batch[0]
    ensures forall i :: 0 <= i < |s.run.events| ==> Flatten(input)[i] == s.run.events[i]
  {
  }

  /** Unless it has finished, the executor can take a step. */
  lemma NeverStuck(s: State, input: seq<seq<OperatorEvent>>) returns (s': State)
    requires Valid(s, input) && CircularFree(input) && !s.producer.Finished?
    ensures Step(s, s')
  {
    hide CircularFree;
    if s.producer.Joining? && exists k :: 0 <= k < |s.runners| && !s.runners[k].Exited? {
      var k :| 0 <= k < |s.runners| && !s.runners[k].Exited?;
      s' := RunnerCanStep(s, input, k);
    } else if s.producer.Joining? {
      s' := s.(producer := Finished);
      assert Joins(s, s');
    } else if s.producer.Adding? && s.producer.batch != [] {
      forall v | IsWaiting(s.run.lattice, v)
        ensures Compare(s.producer.batch[0], s.run.lattice.forest[v].value) != Circular
        ensures Compare(s.run.lattice.forest[v].value, s.producer.batch[0]) != Circular
      {
        NextComparable(s, input, v);
      }
      var n, r' := CanInsert(s.run, s.producer.batch[0]);
      s' := s.(run := r', producer := Adding(s.producer.batch[1..]));
      assert Adds(s, s');
    } else if s.producer.Adding? {
      s' := s.(producer := Polling, version := s.version + 1, notice := AddedEvents);
      assert Notifies(s, s');
    } else if s.pending == [] {
      s' := s.(producer := Joining, version := s.version + 1, notice := DestroyOperator);
      assert Stops(s, s');
    } else {
      s' := s.(producer := Adding(s.pending[0]), pending := s.pending[1..]);
      assert Takes(s, s');
    }
  }

  lemma RunnerCanStep(s: State, input: seq<seq<OperatorEvent>>, k: nat) returns (s': State)
    requires Valid(s, input) && k < |s.runners|
    requires Attends(s, s.runners[k]) || (s.producer.Joining? && !s.runners[k].Exited?)
    ensures RunnerStep(s, k, s')
  {
    var r := s.runners[k];
    assert r in s.runners && InTouch(s, r);
    match r {
      case Idle(seen) =>
        s' := s.(runners := s.runners[k := Looking(s.notice, s.version)]);
        assert Receives(s, k, s');
      case Looking(notice, seen) =>
        if s.run.lattice.runQueue == [] {
          s' := s.(runners := s.runners[k := if notice == DestroyOperator then Exited else Idle(seen)]);
          assert FindsNothing(s, k, s');
        } else {
          var n, run' := CanFetch(s.run);
          s' := s.(run := run', runners := s.runners[k := Holding(notice, seen, n)]);
          assert Gets(s, k, n, s');
        }
      case Holding(notice, seen, n) =>
        assert Holds(r);
        s' := s.(runners := s.runners[k := Called(notice, seen, n)], ran := s.ran + [s.run.tag[n]]);
        assert Calls(s, k, s');
      case Called(notice, seen, n) =>
        assert Holds(r);
        var run' := CanComplete(s.run, n);
        s' := s.(run := run', runners := s.runners[k := Looking(notice, seen)]);
        assert Marks(s, k, s');
    }
  }

  // ---------------------------------------------------------------------------------------------
  // Every step brings the end closer.

  function Backlog(b: seq<seq<OperatorEvent>>): nat {
    if b == [] then 0 else |b[0]| + 2 + Backlog(b[1..])
  }

  function ProducerWork(s: State): nat {
    match s.producer
    case Polling => 2 + Backlog(s.pending)
    case Adding(batch) => |batch| + 3 + Backlog(s.pending)
    case Joining => 1
    case Finished => 0
  }

  function HeldWork(r: Runner): nat {
    if r.Holding? then 2 else if r.Called? then 1 else 0
  }

  function HeldSum(rs: seq<Runner>): nat {
    if rs == [] then 0 else HeldWork(rs[0]) + HeldSum(rs[1..])
  }

  /** Callbacks and completions still owed by events in the lattice. */
  ghost function EventWork(s: State): nat {
    3 * |Waiting(s.run.lattice)| + HeldSum(s.runners)
  }

  /** What runner r may still do without touching the lattice. */
  function ChannelWork(version: nat, r: Runner): nat {
    match r
    case Exited => 0
    case Idle(seen) => if seen < version then 2 * (version - seen) else 0
    case _ => 1 + if r.seen < version then 2 * (version - r.seen) else 0
  }

  function IdleWork(version: nat, rs: seq<Runner>): nat {
    if rs == [] then 0 else ChannelWork(version, rs[0]) + IdleWork(version, rs[1..])
  }

  lemma {:induction false} WorkUpdate(version: nat, rs: seq<Runner>, k: nat, r: Runner)
    requires k < |rs|
    ensures HeldSum(rs[k := r]) == HeldSum(rs) - HeldWork(rs[k]) + HeldWork(r)
    ensures IdleWork(version, rs[k := r]) == IdleWork(version, rs) - ChannelWork(version, rs[k]) + ChannelWork(version, r)
  {
    var rs' := rs[k := r];
    assert HeldSum(rs') == HeldWork(rs'[0]) + HeldSum(rs'[1..]);
    assert IdleWork(version, rs') == ChannelWork(version, rs'[0]) + IdleWork(version, rs'[1..]);
    if k == 0 {
      assert rs'[1..] == rs[1..];
    } else {
      WorkUpdate(version, rs[1..], k - 1, r);
      assert rs'[1..] == rs[1..][k - 1 := r];
    }
  }

  /** The rank of producer, event and channel work decreases lexicographically. */
  ghost predicate Closer(s: State, s': State) {
    || ProducerWork(s') < ProducerWork(s)
    || (ProducerWork(s') == ProducerWork(s)
        && (|| EventWork(s') < EventWork(s)
            || (EventWork(s') == EventWork(s) && IdleWork(s'.version, s'.runners) < IdleWork(s.version, s.runners))))
  }

  lemma QuietCloser(s: State, k: nat, s': State)
    requires Receives(s, k, s') || FindsNothing(s, k, s') || Calls(s, k, s')
    ensures Closer(s, s')
  {
    WorkUpdate(s.version, s.runners, k, s'.runners[k]);
  }

  lemma GetsCloser(s: State, k: nat, n: Node, s': State)
    requires Gets(s, k, n, s') && n in Waiting(s.run.lattice)
    requires Waiting(s'.run.lattice) == Waiting(s.run.lattice) - {n}
    ensures Closer(s, s')
  {
    WorkUpdate(s.version, s.runners, k, s'.runners[k]);
    assert (Waiting(s.run.lattice) - {n}).Keys == Waiting(s.run.lattice).Keys - {n};
  }

  lemma MarksCloser(s: State, k: nat, s': State)
    requires Marks(s, k, s') && Waiting(s'.run.lattice) == Waiting(s.run.lattice)
    ensures Closer(s, s')
  {
    WorkUpdate(s.version, s.runners, k, s'.runners[k]);
  }

  /** Every step of the executor brings it closer to its end. */
  lemma StepCloser(s: State, s': State)
    requires WellFormed(s.run.lattice) && Step(s, s')
    ensures Closer(s, s')
  {
    if !ProducerStep(s, s') {
      var k: nat :| RunnerStep(s, k, s');
      if n :| Gets(s, k, n, s') {
        FetchWellFormed(s.run.lattice, n, s'.run.lattice);
        GetsCloser(s, k, n, s');
      } else if Marks(s, k, s') {
        CompleteWellFormed(s.run.lattice, s.runners[k].node, s'.run.lattice);
        MarksCloser(s, k, s');
      } else {
        QuietCloser(s, k, s');
      }
    }
  }

  ghost predicate CanStep(s: State) { exists s' :: Step(s, s') }

  /** A behaviour of the executor: it takes some step, whichever, as long as there is one. */
  ghost predicate Behaviour(tr: nat -> State) {
    forall i: nat :: CanStep(tr(i)) ==> Step(tr(i), tr(i + 1))
  }

  /** Every behaviour comes to its end, and there it is clean exactly if no events wait for each other in a circle. */
  lemma {:induction false} AlwaysFinishes(tr: nat -> State, i: nat, input: seq<seq<OperatorEvent>>) returns (k: nat)
    requires Valid(tr(i), input) && |tr(i).runners| > 0 && Behaviour(tr) && CircularFree(input)
    ensures k >= i && tr(k).producer.Finished? && Valid(tr(k), input) && (Clean(tr(k), input) <==> NoCycle(tr(k).run.lattice))
    ensures ManageableInput(input) && Lined(tr(i).run) ==> Lined(tr(k).run)
    decreases ProducerWork(tr(i)), EventWork(tr(i)), IdleWork(tr(i).version, tr(i).runners)
  {
    hide Valid, Clean, Behaviour, WellFormed, NoCycle, Lined, ManageableInput, CircularFree, Step;
    if tr(i).producer.Finished? {
      k := i;
      ValidWellFormed(tr(i), input);
      CleanUnlessCycle(tr(i), input);
    } else {
      StepsOn(tr, i, input);
      k := AlwaysFinishes(tr, i + 1, input);
    }
  }

  lemma StepsOn(tr: nat -> State, i: nat, input: seq<seq<OperatorEvent>>)
    requires Valid(tr(i), input) && Behaviour(tr) && CircularFree(input) && !tr(i).producer.Finished?
    ensures Valid(tr(i + 1), input) && |tr(i + 1).runners| == |tr(i).runners| && Closer(tr(i), tr(i + 1))
    ensures ManageableInput(input) && Lined(tr(i).run) ==> Lined(tr(i + 1).run)
  {
    hide Valid, Step, Closer, WellFormed, Lined, ManageableInput, CircularFree;
    var s' := NeverStuck(tr(i), input);
    assert CanStep(tr(i)) && Step(tr(i), tr(i + 1));
    ValidWellFormed(tr(i), input);
    StepValid(tr(i), input, tr(i + 1));
    StepCloser(tr(i), tr(i + 1));
    StepRunners(tr(i), tr(i + 1));
    if ManageableInput(input) && Lined(tr(i).run) { StepLined(tr(i), tr(i + 1), input); }
  }

  lemma StepLined(s: State, s': State, input: seq<seq<OperatorEvent>>)
    requires Valid(s, input) && Valid(s', input) && Step(s, s') && ManageableInput(input) && Lined(s.run)
    ensures Lined(s'.run)
  {
    hide Step, Lined, Next, ManageableInput, Owned, Logged, Phased, Drained, Fed, WellFormed, Ledger, MetLive, Tagged, Manageable;
    StepNext(s, s');
    if s'.run != s.run {
      ManageableState(s', input);
      NextLined(s.run, s'.run);
    }
  }

  /** On a manageable input every behaviour ends with the lattice empty and every callback invoked exactly once. */
  lemma AlwaysDrains(tr: nat -> State, input: seq<seq<OperatorEvent>>, n: nat) returns (k: nat)
    requires Init(tr(0), input, n) && n > 0 && Behaviour(tr) && ManageableInput(input)
    ensures tr(k).producer.Finished? && Clean(tr(k), input)
  {
    hide Valid, Clean, Behaviour, NoCycle, ManageableInput, CircularFree;
    ManageableCircularFree(input);
    InitValid(tr(0), input, n);
    FreshInvariant();
    k := AlwaysFinishes(tr, 0, input);
    FinishedClean(tr(k), input);
  }

  lemma FinishedClean(s: State, input: seq<seq<OperatorEvent>>)
    requires Valid(s, input) && Lined(s.run) && (Clean(s, input) <==> NoCycle(s.run.lattice))
    ensures Clean(s, input)
  {
    hide Clean, DependsOn, Ordered, Held, InOrder, WellFormed, Owned, Logged, Phased, Drained, Fed;
    forall v ensures !DependsOn(s.run.lattice, v, v) { Acyclic(s.run.lattice, s.run.tag, v); }
  }

  lemma ValidWellFormed(s: State, input: seq<seq<OperatorEvent>>)
    requires Valid(s, input)
    ensures WellFormed(s.run.lattice)
    ensures s.producer.Finished? ==> forall r <- s.runners :: r.Exited?
  {
  }

  lemma StepRunners(s: State, s': State)
    requires Step(s, s')
    ensures |s'.runners| == |s.runners|
  {
  }
}
