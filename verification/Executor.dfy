/** The operator executor: one producer that feeds the lattice from the merged input streams and
    any number of event runners, interleaved arbitrarily. */
module Executor {
  import opened OperatorEvents
  import opened Basics
  import opened LatticeModel
  import opened LatticeOrder
  import opened LatticeSteps
  import opened LatticeRuns
  import opened MessageBarrier

  datatype Notice = AddedEvents | DestroyOperator

  /** The producer: about to poll the event stream, adding a batch, waiting for the runners, done. */
  datatype Producer = Polling | Adding(batch: seq<OperatorEvent>) | Joining | Finished

  /** An event runner; `seen` is the last version of the watch channel it has received. */
  datatype Runner =
    | Idle(seen: nat)
    | Looking(notice: Notice, seen: nat)
    | Holding(notice: Notice, seen: nat, node: Node)
    | Called(notice: Notice, seen: nat, node: Node)
    | Exited

  /** `ran` logs the callbacks in the order they were invoked. */
  datatype State = State(
    run: Run,
    pending: seq<seq<OperatorEvent>>,
    producer: Producer,
    version: nat,
    notice: Notice,
    runners: seq<Runner>,
    ran: seq<nat>
  )

  ghost predicate Init(s: State, input: seq<seq<OperatorEvent>>, n: nat) {
    s == State(FRESH, input, Polling, 1, AddedEvents, seq(n, _ => Idle(0)), [])
  }

  // ---------------------------------------------------------------------------------------------
  // Steps.

  ghost predicate Takes(s: State, s': State) {
    && s.producer.Polling? && s.pending != []
    && s' == s.(producer := Adding(s.pending[0]), pending := s.pending[1..])
  }

  ghost predicate Adds(s: State, s': State) {
    && s.producer.Adding? && s.producer.batch != []
    && (exists n :: Inserts(s.run, s.producer.batch[0], n, s'.run))
    && s' == s.(run := s'.run, producer := Adding(s.producer.batch[1..]))
  }

  ghost predicate Notifies(s: State, s': State) {
    && s.producer == Adding([])
    && s' == s.(producer := Polling, version := s.version + 1, notice := AddedEvents)
  }

  /** The event stream has ended. */
  ghost predicate Stops(s: State, s': State) {
    && s.producer.Polling? && s.pending == []
    && s' == s.(producer := Joining, version := s.version + 1, notice := DestroyOperator)
  }

  ghost predicate Joins(s: State, s': State) {
    && s.producer.Joining? && (forall r <- s.runners :: r.Exited?)
    && s' == s.(producer := Finished)
  }

  ghost predicate Receives(s: State, k: nat, s': State) {
    && k < |s.runners| && s.runners[k].Idle? && s.runners[k].seen < s.version
    && s' == s.(runners := s.runners[k := Looking(s.notice, s.version)])
  }

  ghost predicate Gets(s: State, k: nat, n: Node, s': State) {
    && k < |s.runners| && s.runners[k].Looking?
    && Fetches(s.run, n, s'.run)
    && s' == s.(run := s'.run, runners := s.runners[k := Holding(s.runners[k].notice, s.runners[k].seen, n)])
  }

  ghost predicate FindsNothing(s: State, k: nat, s': State) {
    && k < |s.runners| && s.runners[k].Looking? && s.run.lattice.runQueue == []
    && s' == s.(runners := s.runners[k :=
          if s.runners[k].notice == DestroyOperator then Exited else Idle(s.runners[k].seen)])
  }

  ghost predicate Calls(s: State, k: nat, s': State) {
    && k < |s.runners| && s.runners[k].Holding?
    && var r := s.runners[k];
    && r.node in s.run.tag
    && s' == s.(runners := s.runners[k := Called(r.notice, r.seen, r.node)], ran := s.ran + [s.run.tag[r.node]])
  }

  ghost predicate Marks(s: State, k: nat, s': State) {
    && k < |s.runners| && s.runners[k].Called?
    && var r := s.runners[k];
    && Completes(s.run, r.node, s'.run)
    && s' == s.(run := s'.run, runners := s.runners[k := Looking(r.notice, r.seen)])
  }

  ghost predicate RunnerStep(s: State, k: nat, s': State) {
    || Receives(s, k, s') || FindsNothing(s, k, s') || Calls(s, k, s') || Marks(s, k, s')
    || exists n :: Gets(s, k, n, s')
  }

  ghost predicate ProducerStep(s: State, s': State) {
    Takes(s, s') || Adds(s, s') || Notifies(s, s') || Stops(s, s') || Joins(s, s')
  }

  ghost predicate Step(s: State, s': State) {
    ProducerStep(s, s') || exists k :: RunnerStep(s, k, s')
  }

  // ---------------------------------------------------------------------------------------------
  // The invariant.

  predicate Holds(r: Runner) { r.Holding? || r.Called? }

  /** The runners hold exactly the executing nodes, one each. */
  ghost predicate Owned(s: State) {
    && (forall k :: 0 <= k < |s.runners| && Holds(s.runners[k]) ==> IsExecuting(s.run.lattice, s.runners[k].node))
    && (forall j, k :: 0 <= j < k < |s.runners| && Holds(s.runners[j]) && Holds(s.runners[k]) ==>
          s.runners[j].node != s.runners[k].node)
    && (forall v :: IsExecuting(s.run.lattice, v) ==>
          exists k :: 0 <= k < |s.runners| && Holds(s.runners[k]) && s.runners[k].node == v)
  }

  /** The callback of event i has been invoked but not marked as completed. */
  ghost predicate CalledBack(s: State, i: nat) {
    exists k :: 0 <= k < |s.runners| && s.runners[k].Called? && s.runners[k].node in s.run.tag
      && s.run.tag[s.runners[k].node] == i
  }

  ghost predicate Logged(s: State) {
    && Distinct(s.ran)
    && (forall i :: i in s.ran <==> i in s.run.done || CalledBack(s, i))
  }

  /** What a runner knows of the watch channel; it hears of the end before it exits. */
  ghost predicate InTouch(s: State, r: Runner) {
    match r
    case Idle(seen) => seen <= s.version && (seen == s.version ==> s.notice == AddedEvents)
    case Exited => s.notice == DestroyOperator
    case _ =>
      && r.seen <= s.version && (r.seen == s.version ==> r.notice == s.notice)
      && (r.notice == DestroyOperator ==> s.notice == DestroyOperator)
  }

  /** A runner has heard `DestroyOperator` only once the producer has stopped adding. */
  ghost predicate Phased(s: State) {
    && (s.notice == DestroyOperator <==> s.producer.Joining? || s.producer.Finished?)
    && (s.notice == DestroyOperator ==> s.pending == [])
    && (s.producer.Finished? ==> forall r <- s.runners :: r.Exited?)
    && (forall r <- s.runners :: InTouch(s, r))
  }

  function Flatten<T>(b: seq<seq<T>>): seq<T> {
    if b == [] then [] else b[0] + Flatten(b[1..])
  }

  /** The events added so far and those still to come are the input, in order. */
  ghost predicate Fed(s: State, input: seq<seq<OperatorEvent>>) {
    s.run.events + (if s.producer.Adding? then s.producer.batch else []) + Flatten(s.pending) == Flatten(input)
  }

  /** Runners exit only when there is nothing left to run. */
  ghost predicate Drained(s: State) {
    |s.runners| > 0 && (forall r <- s.runners :: r.Exited?) ==>
      s.run.lattice.runQueue == [] && forall v :: !IsExecuting(s.run.lattice, v)
  }

  /** The runner is at work, or has yet to hear of the newest version. */
  predicate Attends(s: State, r: Runner) { r.Looking? || Holds(r) || (r.Idle? && r.seen < s.version) }

  ghost predicate Valid(s: State, input: seq<seq<OperatorEvent>>) {
    LatticeRuns.Invariant(s.run) && Owned(s) && Logged(s) && Phased(s) && Fed(s, input) && Drained(s)
  }

  lemma InitValid(s: State, input: seq<seq<OperatorEvent>>, n: nat)
    requires Init(s, input, n)
    ensures Valid(s, input)
  {
    FreshInvariant();
    InitRest(s, input, n);
  }

  lemma InitRest(s: State, input: seq<seq<OperatorEvent>>, n: nat)
    requires Init(s, input, n)
    ensures Owned(s) && Logged(s) && Phased(s) && Fed(s, input) && Drained(s)
  {
    assert forall i :: !CalledBack(s, i);
    assert [] + [] + Flatten(input) == Flatten(input);
  }

  // ---------------------------------------------------------------------------------------------
  // Producer steps.

  lemma AddsValid(s: State, input: seq<seq<OperatorEvent>>, s': State)
    requires Valid(s, input) && Adds(s, s')
    ensures Valid(s', input)
  {
    var e := s.producer.batch[0];
    var n :| Inserts(s.run, e, n, s'.run);
    InsertInvariant(s.run, e, n, s'.run);
    InsertKeepsRunning(s.run.lattice, e, n, s'.run.lattice);
    AddsOwned(s, e, n, s');
    AddsLogged(s, e, n, s');
    AddsRest(s, input, s');
  }

  lemma AddsRest(s: State, input: seq<seq<OperatorEvent>>, s': State)
    requires Phased(s) && Fed(s, input) && Adds(s, s')
    ensures Phased(s') && Fed(s', input) && Drained(s')
  {
    var batch := s.producer.batch;
    assert batch == [batch[0]] + batch[1..];
    assert s'.run.events + s'.producer.batch == s.run.events + batch;
    hide Inserts;
    forall r <- s'.runners ensures InTouch(s', r) { assert InTouch(s, r); }
    if |s'.runners| > 0 { assert s.runners[0] in s.runners && InTouch(s, s.runners[0]); }
  }

  lemma AddsOwned(s: State, e: OperatorEvent, n: Node, s': State)
    requires Owned(s) && s'.runners == s.runners
    requires n !in s.run.lattice.forest && s'.run.lattice.forest == s.run.lattice.forest[n := Some(e)]
    ensures Owned(s')
  {
    assert forall v :: IsExecuting(s'.run.lattice, v) <==> IsExecuting(s.run.lattice, v);
  }

  lemma AddsLogged(s: State, e: OperatorEvent, n: Node, s': State)
    requires Tagged(s.run) && Owned(s) && Logged(s) && Inserts(s.run, e, n, s'.run)
    requires s'.runners == s.runners && s'.ran == s.ran
    ensures Logged(s')
  {
    forall i ensures CalledBack(s', i) <==> CalledBack(s, i) {
      forall k | 0 <= k < |s.runners| && s.runners[k].Called?
        ensures s.runners[k].node in s.run.tag && s.runners[k].node != n
      {
        assert Holds(s.runners[k]);
      }
    }
  }

  lemma ProducerValid(s: State, input: seq<seq<OperatorEvent>>, s': State)
    requires Valid(s, input) && ProducerStep(s, s')
    ensures Valid(s', input)
  {
    if Adds(s, s') {
      AddsValid(s, input, s');
    } else {
      assert forall i :: CalledBack(s', i) <==> CalledBack(s, i);
      if Takes(s, s') {
        assert s.run.events + [] + (s.pending[0] + Flatten(s.pending[1..]))
          == s.run.events + s.pending[0] + Flatten(s.pending[1..]);
      }
      forall r <- s'.runners ensures InTouch(s', r) { assert InTouch(s, r); }
    }
  }

  // ---------------------------------------------------------------------------------------------
  // Runner steps.

  /** Runner k moves on while the producer and the channel stand still. */
  ghost predicate Moves(s: State, k: nat, s': State) {
    && k < |s.runners| && |s'.runners| == |s.runners| && s'.runners == s.runners[k := s'.runners[k]]
    && s'.version == s.version && s'.notice == s.notice && s'.producer == s.producer && s'.pending == s.pending
  }

  lemma MovesPhased(s: State, k: nat, s': State)
    requires Phased(s) && Moves(s, k, s') && !s.runners[k].Exited?
    requires InTouch(s, s.runners[k]) ==> InTouch(s', s'.runners[k])
    ensures Phased(s')
    ensures !s'.runners[k].Exited? ==> Drained(s')
  {
    assert s.runners[k] in s.runners && s'.runners[k] in s'.runners;
    forall r <- s'.runners ensures InTouch(s', r) {
      if r in s.runners { assert InTouch(s, r); }
    }
  }

  lemma GetsValid(s: State, input: seq<seq<OperatorEvent>>, k: nat, n: Node, s': State)
    requires Valid(s, input) && Gets(s, k, n, s')
    ensures Valid(s', input)
  {
    FetchInvariant(s.run, n, s'.run);
    FetchWellFormed(s.run.lattice, n, s'.run.lattice);
    GetsOwned(s, k, n, s');
    GetsLogged(s, k, n, s');
    MovesPhased(s, k, s');
  }

  lemma GetsLogged(s: State, k: nat, n: Node, s': State)
    requires Logged(s) && Gets(s, k, n, s')
    ensures Logged(s')
  {
    forall i ensures CalledBack(s', i) <==> CalledBack(s, i) { SameCalled(s, k, s', i); }
  }

  lemma SameCalled(s: State, k: nat, s': State, i: nat)
    requires k < |s.runners| == |s'.runners| && s'.runners == s.runners[k := s'.runners[k]]
    requires !s.runners[k].Called? && !s'.runners[k].Called? && s'.run.tag == s.run.tag
    ensures CalledBack(s', i) <==> CalledBack(s, i)
  {
    forall j | 0 <= j < |s.runners| ensures s.runners[j].Called? <==> s'.runners[j].Called? { }
    if CalledBack(s, i) {
      var j :| 0 <= j < |s.runners| && s.runners[j].Called? && s.runners[j].node in s.run.tag
        && s.run.tag[s.runners[j].node] == i;
      assert s'.runners[j] == s.runners[j];
    }
  }

  lemma GetsOwned(s: State, k: nat, n: Node, s': State)
    requires Owned(s) && Gets(s, k, n, s') && IsWaiting(s.run.lattice, n)
    requires s'.run.lattice.forest == s.run.lattice.forest[n := None]
    ensures Owned(s')
  {
    var l, l' := s.run.lattice, s'.run.lattice;
    assert forall v :: IsExecuting(l', v) <==> IsExecuting(l, v) || v == n;
    forall v | IsExecuting(l', v)
      ensures exists j :: 0 <= j < |s'.runners| && Holds(s'.runners[j]) && s'.runners[j].node == v
    {
      if v == n {
        assert Holds(s'.runners[k]) && s'.runners[k].node == v;
      } else {
        var j :| 0 <= j < |s.runners| && Holds(s.runners[j]) && s.runners[j].node == v;
        assert s'.runners[j] == s.runners[j];
      }
    }
  }

  /** A step of runner k that touches neither the lattice nor the log. */
  lemma QuietValid(s: State, input: seq<seq<OperatorEvent>>, k: nat, s': State)
    requires Valid(s, input) && (Receives(s, k, s') || FindsNothing(s, k, s'))
    ensures Valid(s', input)
  {
    forall i ensures CalledBack(s', i) <==> CalledBack(s, i) { SameCalled(s, k, s', i); }
    QuietOwned(s, k, s');
    MovesPhased(s, k, s');
    if FindsNothing(s, k, s') && (forall r <- s'.runners :: r.Exited?) {
      NoneExecuting(s, k, s');
    }
  }

  lemma QuietOwned(s: State, k: nat, s': State)
    requires Owned(s) && (Receives(s, k, s') || FindsNothing(s, k, s'))
    ensures Owned(s')
  {
    forall v | IsExecuting(s.run.lattice, v)
      ensures exists j :: 0 <= j < |s'.runners| && Holds(s'.runners[j]) && s'.runners[j].node == v
    {
      var j :| 0 <= j < |s.runners| && Holds(s.runners[j]) && s.runners[j].node == v;
      assert s'.runners[j] == s.runners[j];
    }
  }

  /** The last runner to find nothing leaves nobody executing. */
  lemma NoneExecuting(s: State, k: nat, s': State)
    requires Owned(s) && FindsNothing(s, k, s') && forall r <- s'.runners :: r.Exited?
    ensures forall v :: !IsExecuting(s.run.lattice, v)
  {
    forall j | 0 <= j < |s.runners| ensures !Holds(s.runners[j]) {
      assert s'.runners[j] in s'.runners;
    }
  }

  lemma CallsValid(s: State, input: seq<seq<OperatorEvent>>, k: nat, s': State)
    requires Valid(s, input) && Calls(s, k, s')
    ensures Valid(s', input)
  {
    MovesPhased(s, k, s');
    assert Owned(s') by {
      forall j | 0 <= j < |s.runners|
        ensures Holds(s'.runners[j]) <==> Holds(s.runners[j])
        ensures Holds(s.runners[j]) ==> s'.runners[j].node == s.runners[j].node
      { }
    }
    CallsLogged(s, k, s');
  }

  lemma CallsLogged(s: State, k: nat, s': State)
    requires Tagged(s.run) && Ledger(s.run) && Owned(s) && Logged(s) && Calls(s, k, s')
    ensures Logged(s')
  {
    var v := s.runners[k].node;
    var i0 := s.run.tag[v];
    assert Live(s.run, i0) && i0 !in s.run.done;
    assert !CalledBack(s, i0) by {
      forall j | 0 <= j < |s.runners| && s.runners[j].Called? && s.runners[j].node in s.run.tag
        ensures s.run.tag[s.runners[j].node] != i0
      {
        assert Holds(s.runners[j]) && Holds(s.runners[k]);
      }
    }
    assert s'.runners[k].Called? && CalledBack(s', i0);
    forall i ensures CalledBack(s', i) <==> CalledBack(s, i) || i == i0 {
      if CalledBack(s, i) {
        var j :| 0 <= j < |s.runners| && s.runners[j].Called? && s.runners[j].node in s.run.tag
          && s.run.tag[s.runners[j].node] == i;
        assert s'.runners[j] == s.runners[j];
      }
    }
  }

  lemma MarksValid(s: State, input: seq<seq<OperatorEvent>>, k: nat, s': State)
    requires Valid(s, input) && Marks(s, k, s')
    ensures Valid(s', input)
  {
    var n := s.runners[k].node;
    CompleteInvariant(s.run, n, s'.run);
    CompleteWellFormed(s.run.lattice, n, s'.run.lattice);
    MovesPhased(s, k, s');
    MarksOwned(s, k, s');
    MarksLogged(s, k, s');
  }

  lemma MarksOwned(s: State, k: nat, s': State)
    requires Owned(s) && Marks(s, k, s')
    requires s'.run.lattice.forest == s.run.lattice.forest - {s.runners[k].node}
    ensures Owned(s')
  {
    var n := s.runners[k].node;
    assert Holds(s.runners[k]);
    assert forall v :: IsExecuting(s'.run.lattice, v) <==> IsExecuting(s.run.lattice, v) && v != n;
    forall v | IsExecuting(s'.run.lattice, v)
      ensures exists j :: 0 <= j < |s'.runners| && Holds(s'.runners[j]) && s'.runners[j].node == v
    {
      var j :| 0 <= j < |s.runners| && Holds(s.runners[j]) && s.runners[j].node == v;
      assert s'.runners[j] == s.runners[j];
    }
  }

  lemma MarksLogged(s: State, k: nat, s': State)
    requires Tagged(s.run) && Owned(s) && Logged(s) && Marks(s, k, s')
    ensures Logged(s')
  {
    var n := s.runners[k].node;
    var i0 := s.run.tag[n];
    assert CalledBack(s, i0);
    forall i ensures CalledBack(s', i) <==> CalledBack(s, i) && i != i0 {
      if CalledBack(s, i) && i != i0 {
        var j :| 0 <= j < |s.runners| && s.runners[j].Called? && s.runners[j].node in s.run.tag
          && s.run.tag[s.runners[j].node] == i;
        assert s'.runners[j] == s.runners[j] && s.runners[j].node in s'.run.tag;
      }
    }
  }

  // ---------------------------------------------------------------------------------------------
  // Every run of the executor.

  lemma StepValid(s: State, input: seq<seq<OperatorEvent>>, s': State)
    requires Valid(s, input) && Step(s, s')
    ensures Valid(s', input)
  {
    if ProducerStep(s, s') {
      ProducerValid(s, input, s');
    } else {
      var k :| RunnerStep(s, k, s');
      if n :| Gets(s, k, n, s') {
        GetsValid(s, input, k, n, s');
      } else if Calls(s, k, s') {
        CallsValid(s, input, k, s');
      } else if Marks(s, k, s') {
        MarksValid(s, input, k, s');
      } else {
        QuietValid(s, input, k, s');
      }
    }
  }

  ghost predicate Execution(tr: seq<State>, input: seq<seq<OperatorEvent>>, n: nat) {
    |tr| > 0 && Init(tr[0], input, n) && forall i :: 0 <= i < |tr| - 1 ==> Step(tr[i], tr[i + 1])
  }

  lemma {:induction false} ExecutionValid(tr: seq<State>, input: seq<seq<OperatorEvent>>, n: nat, k: nat)
    requires Execution(tr, input, n) && k < |tr|
    ensures Valid(tr[k], input)
  {
    if k == 0 {
      InitValid(tr[0], input, n);
    } else {
      ExecutionValid(tr, input, n, k - 1);
      assert Step(tr[k - 1], tr[k - 1 + 1]);
      StepValid(tr[k - 1], input, tr[k]);
    }
  }

  /** Every step of the executor is at most one step of the lattice. */
  lemma StepNext(s: State, s': State)
    requires Step(s, s')
    ensures s'.run == s.run || Next(s.run, s'.run)
  {
    hide Inserts, Fetches, Completes;
    if ProducerStep(s, s') {
      if Adds(s, s') {
        var n :| Inserts(s.run, s.producer.batch[0], n, s'.run);
      }
    } else {
      var k: nat :| RunnerStep(s, k, s');
      if n :| Gets(s, k, n, s') {
        assert Fetches(s.run, n, s'.run);
      } else if Marks(s, k, s') {
        assert Completes(s.run, s.runners[k].node, s'.run);
      }
    }
  }

  // ---------------------------------------------------------------------------------------------
  // Inputs whose events are as the streams make them.

  ghost predicate MadeInput(input: seq<seq<OperatorEvent>>) { forall e <- Flatten(input) :: IsMade(e) }

  lemma FedMade(s: State, input: seq<seq<OperatorEvent>>)
    requires Fed(s, input) && MadeInput(input)
    ensures AllEventsMade(s.run)
  {
    forall e <- s.run.events ensures e in Flatten(input) {
      var i :| 0 <= i < |s.run.events| && s.run.events[i] == e;
      assert Flatten(input)[i] == e;
    }
  }

  lemma {:induction false} ExecutionGuarding(tr: seq<State>, input: seq<seq<OperatorEvent>>, n: nat, k: nat)
    requires Execution(tr, input, n) && MadeInput(input) && k < |tr|
    ensures Guarding(tr[k].run)
  {
    hide Step, Guarding, LatticeRuns.Invariant, MadeInput, Owned, Logged, Phased, Drained, Fed, AllEventsMade;
    if k == 0 {
      FreshInvariant();
    } else {
      ExecutionGuarding(tr, input, n, k - 1);
      ExecutionValid(tr, input, n, k - 1);
      ExecutionValid(tr, input, n, k);
      assert Step(tr[k - 1], tr[k - 1 + 1]);
      StepNext(tr[k - 1], tr[k]);
      if tr[k].run != tr[k - 1].run {
        FedMade(tr[k], input);
        NextGuarding(tr[k - 1].run, tr[k].run);
      }
    }
  }

  // ---------------------------------------------------------------------------------------------
  // Executions whose waiting events are manageable.

  ghost predicate ManageableExecution(tr: seq<State>) { forall s <- tr :: Manageable(Waiting(s.run.lattice)) }

  lemma {:induction false} ExecutionLined(tr: seq<State>, input: seq<seq<OperatorEvent>>, n: nat, k: nat)
    requires Execution(tr, input, n) && ManageableExecution(tr) && k < |tr|
    ensures Lined(tr[k].run)
  {
    hide Step, Lined, LatticeRuns.Invariant, Manageable, Owned, Logged, Phased, Drained, Fed, Waiting;
    if k == 0 {
      FreshInvariant();
    } else {
      ExecutionLined(tr, input, n, k - 1);
      ExecutionValid(tr, input, n, k - 1);
      assert Step(tr[k - 1], tr[k - 1 + 1]);
      StepNext(tr[k - 1], tr[k]);
      assert tr[k] in tr;
      if tr[k].run != tr[k - 1].run {
        NextLined(tr[k - 1].run, tr[k].run);
      }
    }
  }

  // ---------------------------------------------------------------------------------------------
  // After the runners have exited.

  /** The lattice is empty and the callback of every event of the input has been invoked exactly once. */
  ghost predicate Clean(s: State, input: seq<seq<OperatorEvent>>) {
    && s.run.lattice.forest == map[]
    && s.run.events == Flatten(input)
    && Distinct(s.ran) && forall i :: i in s.ran <==> 0 <= i < |Flatten(input)|
  }

  /** No event depends on itself. */
  ghost predicate NoCycle(l: Lattice) { forall v :: !DependsOn(l, v, v) }

  /** Everything has been added, and an event was invoked exactly if it is not left in the lattice. */
  lemma AllExitedBooks(s: State, input: seq<seq<OperatorEvent>>)
    requires Valid(s, input) && |s.runners| > 0 && forall r <- s.runners :: r.Exited?
    ensures s.run.events == Flatten(input) && Distinct(s.ran)
    ensures forall i :: i in s.ran <==> 0 <= i < |Flatten(input)| && !Live(s.run, i)
    ensures s.run.lattice.runQueue == [] && forall v :: !IsExecuting(s.run.lattice, v)
  {
    hide WellFormed, Tagged, MetLive, Owned;
    assert s.runners[0] in s.runners && InTouch(s, s.runners[0]);
    assert s.notice == DestroyOperator && Flatten(s.pending) == [];
    assert s.run.events == s.run.events + [] + [];
    forall k | 0 <= k < |s.runners| ensures !s.runners[k].Called? { assert s.runners[k] in s.runners; }
    assert forall i :: !CalledBack(s, i);
  }

  /** Once all runners have exited, the executor is clean exactly if the lattice has no dependency cycle. */
  lemma CleanUnlessCycle(s: State, input: seq<seq<OperatorEvent>>)
    requires Valid(s, input) && |s.runners| > 0 && forall r <- s.runners :: r.Exited?
    ensures Clean(s, input) <==> NoCycle(s.run.lattice)
  {
    hide Owned, Logged, Phased, Fed, Drained, Ledger, MetLive, DependsOn;
    AllExitedBooks(s, input);
    var l := s.run.lattice;
    if forall v :: v !in l.forest {
      assert l.forest == map[] && forall i :: !Live(s.run, i);
      EmptyNoCycle(l);
    } else {
      var v :| v in l.forest;
      assert Live(s.run, s.run.tag[v]);
      NothingRunnable(l);
      var u := NoLeafCycle(l, v);
    }
  }

  lemma EmptyNoCycle(l: Lattice)
    requires EdgesLive(l) && l.forest == map[]
    ensures NoCycle(l)
  {
    forall v ensures !DependsOn(l, v, v) {
      forall p | Path(l, p) && |p| > 1 ensures p[0] in l.forest {
        var x, y := p[0], p[1];
        assert (x, y) in l.edges by { assert (p[0], p[0 + 1]) in l.edges; }
      }
    }
  }

  lemma NothingRunnable(l: Lattice)
    requires WellFormed(l) && l.runQueue == [] && forall v :: !IsExecuting(l, v)
    ensures forall v <- l.forest :: !IsSink(l, v)
  {
    forall v <- l.forest ensures !IsSink(l, v) {
      assert IsWaiting(l, v) || IsExecuting(l, v);
      assert v !in QueueNodes(l.runQueue);
    }
  }

  /** For any number of runners and any interleaving: once all runners have exited, the lattice is empty and every
      callback was invoked exactly once, exactly if no events wait for each other in a circle. */
  lemma DrainUnlessCycle(tr: seq<State>, input: seq<seq<OperatorEvent>>, n: nat, k: nat)
    requires Execution(tr, input, n) && k < |tr|
    requires |tr[k].runners| > 0 && forall r <- tr[k].runners :: r.Exited?
    ensures Clean(tr[k], input) <==> NoCycle(tr[k].run.lattice)
  {
    hide Execution, Clean, NoCycle, Valid;
    ExecutionValid(tr, input, n, k);
    CleanUnlessCycle(tr[k], input);
  }

  lemma LinedClean(s: State, input: seq<seq<OperatorEvent>>)
    requires Valid(s, input) && Lined(s.run) && |s.runners| > 0 && forall r <- s.runners :: r.Exited?
    ensures Clean(s, input)
  {
    hide Owned, Logged, Phased, Fed, Drained, Ledger, MetLive, DependsOn, Clean, Tagged, Ordered, Held, InOrder, WellFormed;
    CleanUnlessCycle(s, input);
    forall v ensures !DependsOn(s.run.lattice, v, v) { Acyclic(s.run.lattice, s.run.tag, v); }
  }

  /** Executor drain: in every execution whose waiting events are manageable, the exit of the runners is a clean one. */
  lemma Drain(tr: seq<State>, input: seq<seq<OperatorEvent>>, n: nat, k: nat)
    requires Execution(tr, input, n) && ManageableExecution(tr) && k < |tr|
    requires |tr[k].runners| > 0 && forall r <- tr[k].runners :: r.Exited?
    ensures Clean(tr[k], input)
  {
    hide Execution, Clean, Valid, Lined, ManageableExecution;
    ExecutionValid(tr, input, n, k);
    ExecutionLined(tr, input, n, k);
    LinedClean(tr[k], input);
  }
}
