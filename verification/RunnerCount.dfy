/** When an earlier event is certain to have completed before a later one starts: with one event runner always,
    with more runners not. */
module RunnerCount {
  import opened Timestamps
  import opened OperatorEvents
  import opened Basics
  import opened LatticeModel
  import opened LatticeOrder
  import opened LatticeSteps
  import opened MessageBarrier
  import opened LatticeRuns
  import opened Executor
  import opened ExecutorProgress
  import LatticeSearch

  type Relation = (OperatorEvent, OperatorEvent) -> bool

  /** An event starts only after every event before it, in the relation and in arrival, has completed. */
  ghost predicate InArrivalOrder(r: Run, first: Relation) {
    forall i, j :: 0 <= i < j < |r.events| && first(r.events[i], r.events[j]) && j in r.handed ==> i in r.done
  }

  /** Event x goes before event y if x is the older one. */
  predicate GoesFirst(x: OperatorEvent, y: OperatorEvent) { Compare(x, y) == Precedes || Tied(x, y) }

  /** No runnable event has an event before it among those that wait. */
  ghost predicate Leading(r: Run, first: Relation)
    requires Tagged(r)
  {
    forall a, n :: IsWaiting(r.lattice, a) && IsWaiting(r.lattice, n) && IsSink(r.lattice, n) && r.tag[a] < r.tag[n] ==>
      !first(r.events[r.tag[a]], r.events[r.tag[n]])
  }

  // ---------------------------------------------------------------------------------------------
  // One runner.

  lemma GuardingLeads(r: Run)
    requires Guarding(r)
    ensures Leading(r, MessageFirst)
  {
    hide Fit, Kept;
    forall a, n | IsWaiting(r.lattice, a) && IsWaiting(r.lattice, n) && IsSink(r.lattice, n) && r.tag[a] < r.tag[n]
      ensures !MessageFirst(r.events[r.tag[a]], r.events[r.tag[n]])
    {
      SinkWaitsForNone(r.lattice, a, n);
      assert !Bound(r, a, n);
    }
  }

  lemma LinedLeads(r: Run)
    requires Tagged(r) && Lined(r)
    ensures Leading(r, GoesFirst)
  {
    hide Ordered, Held, InOrder;
    forall a, n | IsWaiting(r.lattice, a) && IsWaiting(r.lattice, n) && IsSink(r.lattice, n) && r.tag[a] < r.tag[n]
      ensures !GoesFirst(r.events[r.tag[a]], r.events[r.tag[n]])
    {
      SinkIsFirst(r.lattice, r.tag, n);
      var w := Waiting(r.lattice);
      assert a in w && n in w && (a, n) !in Before(w, r.tag);
    }
  }

  lemma OneRunnerGets(s: State, k: nat, n: Node, s': State, first: Relation)
    requires LatticeRuns.Invariant(s.run) && Owned(s) && |s.runners| <= 1 && Gets(s, k, n, s')
    requires InArrivalOrder(s.run, first) && Leading(s.run, first)
    ensures InArrivalOrder(s'.run, first)
  {
    hide WellFormed, Tagged, Ledger, MetLive, InArrivalOrder, Fetched, Leading;
    FetchWellFormed(s.run.lattice, n, s'.run.lattice);
    NextUp(s.run, n, s'.run, first);
  }

  /** With nothing executing, the event handed out follows nothing that is not completed. */
  lemma NextUp(r: Run, n: Node, r': Run, first: Relation)
    requires Tagged(r) && Ledger(r) && InArrivalOrder(r, first) && Leading(r, first) && Fetches(r, n, r')
    requires IsSink(r.lattice, n) && IsWaiting(r.lattice, n) && forall v :: !IsExecuting(r.lattice, v)
    ensures InArrivalOrder(r', first)
  {
    hide Fetched;
    forall i, j | 0 <= i < j < |r.events| && first(r.events[i], r.events[j]) && j in r'.handed
      ensures i in r.done
    {
      if j == r.tag[n] { NotAhead(r, n, i, first); }
    }
  }

  lemma NotAhead(r: Run, n: Node, i: nat, first: Relation)
    requires Tagged(r) && Leading(r, first) && IsSink(r.lattice, n) && IsWaiting(r.lattice, n) && i < r.tag[n]
    requires forall v :: !IsExecuting(r.lattice, v)
    ensures first(r.events[i], r.events[r.tag[n]]) ==> !Live(r, i)
  {
    forall a <- r.tag | r.tag[a] == i ensures !first(r.events[i], r.events[r.tag[n]]) {
      assert !IsExecuting(r.lattice, a);
    }
  }

  lemma OneRunnerStep(s: State, input: seq<seq<OperatorEvent>>, s': State, first: Relation)
    requires Valid(s, input) && |s.runners| <= 1 && Step(s, s') && InArrivalOrder(s.run, first) && Leading(s.run, first)
    ensures InArrivalOrder(s'.run, first) && |s'.runners| <= 1
  {
    hide WellFormed, Inserts, Completed, Fetched, Owned, Logged, Phased, Fed, Drained, Leading;
    if k, n :| Gets(s, k, n, s') {
      OneRunnerGets(s, k, n, s', first);
    } else {
      assert s.run.events <= s'.run.events && s'.run.handed == s.run.handed && s.run.done <= s'.run.done by {
        if ProducerStep(s, s') {
          if Adds(s, s') { AddsRecords(s, s'); }
        } else {
          var k :| RunnerStep(s, k, s');
        }
      }
      LaterOnly(s.run, s'.run, first);
    }
  }

  lemma AddsRecords(s: State, s': State)
    requires Adds(s, s')
    ensures s.run.events <= s'.run.events && s'.run.handed == s.run.handed && s.run.done == s'.run.done
  {
  }

  /** New events have not been handed out, and completions only help. */
  lemma LaterOnly(r: Run, r': Run, first: Relation)
    requires Ledger(r) && InArrivalOrder(r, first)
    requires r.events <= r'.events && r'.handed == r.handed && r.done <= r'.done
    ensures InArrivalOrder(r', first)
  {
    forall i, j | 0 <= i < j < |r'.events| && first(r'.events[i], r'.events[j]) && j in r'.handed
      ensures i in r'.done
    {
      assert j < |r.events| && r.events[i] == r'.events[i] && r.events[j] == r'.events[j];
    }
  }

  ghost predicate AllLeading(tr: seq<State>, first: Relation) {
    forall s <- tr :: Tagged(s.run) && Leading(s.run, first)
  }

  lemma {:induction false} OneRunnerRun(tr: seq<State>, input: seq<seq<OperatorEvent>>, k: nat, first: Relation)
    requires Execution(tr, input, 1) && AllLeading(tr, first) && k < |tr|
    ensures InArrivalOrder(tr[k].run, first) && |tr[k].runners| <= 1
  {
    hide Step, Valid, InArrivalOrder, Leading, Tagged;
    if k == 0 {
      NothingStarted(tr[0], input, first);
    } else {
      OneRunnerRun(tr, input, k - 1, first);
      ExecutionValid(tr, input, 1, k - 1);
      assert tr[k - 1] in tr;
      assert Step(tr[k - 1], tr[k - 1 + 1]);
      OneRunnerStep(tr[k - 1], input, tr[k], first);
    }
  }

  lemma NothingStarted(s: State, input: seq<seq<OperatorEvent>>, first: Relation)
    requires Init(s, input, 1)
    ensures InArrivalOrder(s.run, first)
  {
  }

  /** With a single event runner no watermark starts before the messages that arrived before it, up to its time, have
      completed. The watermarks may be tied or conflict in any way. */
  lemma OneRunnerMessagesFirst(tr: seq<State>, input: seq<seq<OperatorEvent>>, k: nat)
    requires Execution(tr, input, 1) && MadeInput(input) && k < |tr|
    ensures InArrivalOrder(tr[k].run, MessageFirst)
  {
    hide Execution, Guarding, Leading, Tagged, InArrivalOrder;
    forall s <- tr ensures Tagged(s.run) && Leading(s.run, MessageFirst) {
      var i: nat :| i < |tr| && tr[i] == s;
      ExecutionGuarding(tr, input, 1, i);
      GuardingTagged(s.run);
      GuardingLeads(s.run);
    }
    OneRunnerRun(tr, input, k, MessageFirst);
  }

  lemma GuardingTagged(r: Run)
    requires Guarding(r)
    ensures Tagged(r)
  {
  }

  /** With a single event runner and manageable events every run completes earlier events first, the older one of two
      tied events included. */
  lemma OneRunnerInOrder(tr: seq<State>, input: seq<seq<OperatorEvent>>, k: nat)
    requires Execution(tr, input, 1) && ManageableExecution(tr) && k < |tr|
    ensures InArrivalOrder(tr[k].run, GoesFirst)
  {
    hide Execution, ManageableExecution, Lined, Leading, WellFormed, Tagged, InArrivalOrder;
    forall s <- tr ensures Tagged(s.run) && Leading(s.run, GoesFirst) {
      var i: nat :| i < |tr| && tr[i] == s;
      ExecutionValid(tr, input, 1, i);
      ExecutionLined(tr, input, 1, i);
      LinedLeads(s.run);
    }
    OneRunnerRun(tr, input, k, GoesFirst);
  }

  // ---------------------------------------------------------------------------------------------
  // Two runners.

  /** An event inserted while nothing waits depends on nothing. */
  lemma LonelyInsert(l: Lattice, e: OperatorEvent, n: Node, l': Lattice)
    requires WellFormed(l) && Waiting(l) == map[] && LatticeSearch.Inserted(l, e, n, l')
    ensures WellFormed(l') && l'.forest == l.forest[n := Some(e)] && l'.runQueue != []
  {
    InsertWellFormed(l, e, n, l');
    var tr: seq<LatticeSearch.Search> :| LatticeSearch.Trace(l, e, tr) && LatticeSearch.Final(l, tr[|tr| - 1])
      && l' == LatticeSearch.Splice(l, e, n, tr[|tr| - 1]);
    LatticeSearch.TraceSane(l, e, tr);
    LonelySplice(l, e, n, tr[|tr| - 1]);
  }

  lemma LonelySplice(l: Lattice, e: OperatorEvent, n: Node, st: LatticeSearch.Search)
    requires EdgesLive(l) && Waiting(l) == map[] && n !in l.forest && LatticeSearch.Sane(l, st)
    requires QueueExact(LatticeSearch.Splice(l, e, n, st))
    ensures LatticeSearch.Splice(l, e, n, st).runQueue != []
  {
    var l' := LatticeSearch.Splice(l, e, n, st);
    forall v ensures !IsWaiting(l, v) { assert v !in Waiting(l); }
    forall c ensures c !in st.children {}
    forall c ensures (n, c) !in l'.edges {
      assert (n, c) !in l.edges;
    }
    assert IsSink(l', n) && IsWaiting(l', n);
    assert n in QueueNodes(l'.runQueue);
  }

  /** Inserting an event while nothing waits and handing it out at once. */
  lemma InsertAndFetch(r: Run, e: OperatorEvent) returns (n: Node, r': Run, n': Node, r'': Run)
    requires LatticeRuns.Invariant(r) && Waiting(r.lattice) == map[]
    ensures Inserts(r, e, n, r') && Fetches(r', n', r'') && LatticeRuns.Invariant(r'') && Waiting(r''.lattice) == map[]
    ensures r''.handed == r.handed + [|r.events|] && r''.done == r.done && r''.events == r.events + [e]
  {
    hide Tagged, Ledger, MetLive, Fetched, LatticeSearch.Inserted, WaitingPairs;
    forall v ensures !IsWaiting(r.lattice, v) { assert v !in Waiting(r.lattice); }
    n, r' := CanInsert(r, e);
    InsertInvariant(r, e, n, r');
    LonelyInsert(r.lattice, e, n, r'.lattice);
    n', r'' := CanFetch(r');
    FetchInvariant(r', n', r'');
    FetchWellFormed(r'.lattice, n', r''.lattice);
    OnlyOne(r, e, n, r', n');
    assert Waiting(r''.lattice) == Waiting(r'.lattice) - {n};
  }

  lemma OnlyOne(r: Run, e: OperatorEvent, n: Node, r': Run, n': Node)
    requires Waiting(r.lattice) == map[] && Inserts(r, e, n, r') && r'.lattice.forest == r.lattice.forest[n := Some(e)]
    requires IsWaiting(r'.lattice, n')
    ensures n' == n && r'.tag[n] == |r.events| && Waiting(r'.lattice) == map[n := e]
  {
    hide LatticeSearch.Inserted, WaitingPairs;
    forall v ensures !IsWaiting(r.lattice, v) { assert v !in Waiting(r.lattice); }
    forall v | IsWaiting(r'.lattice, v) ensures v == n { assert !IsWaiting(r.lattice, v); }
    assert Waiting(r'.lattice)[n] == e;
  }

  ghost function Loaded(s: State, run: Run): State { s.(run := run, producer := Polling, version := s.version + 1, notice := AddedEvents) }

  /** The producer takes the next batch, which is one event, adds it and tells the runners. */
  lemma FeedOne(s: State, e: OperatorEvent, n: Node, run: Run) returns (tr: seq<State>)
    requires s.producer.Polling? && s.pending != [] && s.pending[0] == [e] && Inserts(s.run, e, n, run)
    ensures |tr| == 3 && Step(s, tr[0]) && Step(tr[0], tr[1]) && Step(tr[1], tr[2])
    ensures tr[2] == Loaded(s, run).(pending := s.pending[1..])
  {
    hide Inserts;
    var s1 := s.(producer := Adding([e]), pending := s.pending[1..]);
    var s2 := s1.(run := run, producer := Adding([]));
    var s3 := s2.(producer := Polling, version := s.version + 1, notice := AddedEvents);
    assert Takes(s, s1);
    assert [e][1..] == [];
    assert Inserts(s1.run, s1.producer.batch[0], n, s2.run);
    assert Adds(s1, s2);
    assert Notifies(s2, s3);
    tr := [s1, s2, s3];
  }

  /** Idle runner k hears of new events and is handed one. */
  lemma HandOne(s: State, k: nat, n: Node, run: Run) returns (tr: seq<State>)
    requires k < |s.runners| && s.runners[k].Idle? && s.runners[k].seen < s.version && Fetches(s.run, n, run)
    ensures |tr| == 2 && Step(s, tr[0]) && Step(tr[0], tr[1])
    ensures tr[1] == s.(run := run, runners := s.runners[k := Holding(s.notice, s.version, n)])
  {
    hide Fetches;
    var s1 := s.(runners := s.runners[k := Looking(s.notice, s.version)]);
    var s2 := s.(run := run, runners := s.runners[k := Holding(s.notice, s.version, n)]);
    assert Receives(s, k, s1) && RunnerStep(s, k, s1);
    assert s2.runners == s1.runners[k := Holding(s.notice, s.version, n)];
    assert Gets(s1, k, n, s2) && RunnerStep(s1, k, s2);
    tr := [s1, s2];
  }

  ghost predicate Consecutive(tr: seq<State>) { forall i :: 0 <= i < |tr| - 1 ==> Step(tr[i], tr[i + 1]) }

  /** While nothing waits, the producer adds the next event and idle runner k is handed it. */
  lemma FeedAndHand(s: State, e: OperatorEvent, k: nat) returns (tr: seq<State>, n: Node)
    requires LatticeRuns.Invariant(s.run) && Waiting(s.run.lattice) == map[]
    requires s.producer.Polling? && s.pending != [] && s.pending[0] == [e]
    requires k < |s.runners| && s.runners[k].Idle? && s.runners[k].seen <= s.version
    ensures |tr| == 5 && Consecutive([s] + tr)
    ensures var r, r' := s.run, tr[4].run;
      && LatticeRuns.Invariant(r') && Waiting(r'.lattice) == map[]
      && r'.handed == r.handed + [|r.events|] && r'.done == r.done && r'.events == r.events + [e]
      && tr[4] == Loaded(s, r').(pending := s.pending[1..], runners := s.runners[k := Holding(AddedEvents, s.version + 1, n)])
  {
    hide Inserts, Fetches, LatticeRuns.Invariant, Step, Waiting;
    var a, r1, b, r2 := InsertAndFetch(s.run, e);
    var t1 := FeedOne(s, e, a, r1);
    var t2 := HandOne(t1[2], k, b, r2);
    tr, n := t1 + t2, b;
    assert tr[0] == t1[0] && tr[1] == t1[1] && tr[2] == t1[2] && tr[3] == t2[0] && tr[4] == t2[1];
    var all := [s] + tr;
    assert all[0] == s && forall i :: 1 <= i < 6 ==> all[i] == tr[i - 1];
  }

  /** With two or more runners any message can still be executing when a watermark it precedes is started:
      the watermark does not wait for a message that was handed out before it arrived. */
  lemma TwoRunnersRace(m: OperatorEvent, w: OperatorEvent, n: nat) returns (tr: seq<State>)
    requires StreamMade(m) && w.isWatermark && Le(m.timestamp, w.timestamp) && n >= 2
    ensures Execution(tr, [[m], [w]], n)
    ensures var r := tr[|tr| - 1].run;
      r.events == [m, w] && Compare(m, w) == Precedes && r.handed == [0, 1] && r.done == []
    ensures !InArrivalOrder(tr[|tr| - 1].run, MessageFirst) && !InArrivalOrder(tr[|tr| - 1].run, GoesFirst)
  {
    hide LatticeRuns.Invariant, Step, Compare, InArrivalOrder, MessageFirst, GoesFirst, Waiting;
    var s0 := State(FRESH, [[m], [w]], Polling, 1, AddedEvents, seq(n, _ => Idle(0)), []);
    FreshInvariant();
    NoneWaitFresh();
    var t1, a := FeedAndHand(s0, m, 0);
    var t2, b := FeedAndHand(t1[4], w, 1);
    tr := [s0] + t1 + t2;
    Joined(s0, t1, t2);
    assert tr[0] == s0 && tr[|tr| - 1] == t2[4];
    Raced(t2[4].run, m, w);
  }

  lemma NoneWaitFresh()
    ensures Waiting(FRESH.lattice) == map[]
  {
  }

  lemma Joined(s: State, a: seq<State>, b: seq<State>)
    requires a != [] && Consecutive([s] + a) && Consecutive([a[|a| - 1]] + b)
    ensures Consecutive([s] + a + b)
  {
    hide Step;
    var x, y, z := [s] + a, [a[|a| - 1]] + b, [s] + a + b;
    forall i | 0 <= i < |z| - 1 ensures Step(z[i], z[i + 1]) {
      if i < |a| {
        assert Step(x[i], x[i + 1]);
      } else {
        assert Step(y[i - |a|], y[i - |a| + 1]);
      }
    }
  }

  lemma Raced(r: Run, m: OperatorEvent, w: OperatorEvent)
    requires StreamMade(m) && w.isWatermark && Le(m.timestamp, w.timestamp)
    requires r.events == [m, w] && r.handed == [0, 1] && r.done == []
    ensures Compare(m, w) == Precedes && !InArrivalOrder(r, MessageFirst) && !InArrivalOrder(r, GoesFirst)
  {
    MessageBeforeWatermark(m, w);
    assert r.events[0] == m && r.events[1] == w && r.handed[1] == 1;
  }
}
