/** No wake-up is lost: the runners work while the streams are open, not only once they have ended. */
module WakeUps {
  import opened OperatorEvents
  import opened Basics
  import opened LatticeModel
  import opened LatticeOrder
  import opened LatticeSteps
  import opened LatticeRuns
  import opened Executor
  import opened ExecutorProgress

  ghost predicate SomeAttends(s: State) { exists k :: 0 <= k < |s.runners| && Attends(s, s.runners[k]) }

  /** Unless the producer is just adding events, somebody will get to what is runnable. */
  ghost predicate Awake(s: State) { !s.producer.Adding? && s.run.lattice.runQueue != [] ==> SomeAttends(s) }

  // ---------------------------------------------------------------------------------------------
  // Every step keeps it.

  /** A new version reaches everyone: before the end no runner has exited. */
  lemma NewsWakes(s: State, input: seq<seq<OperatorEvent>>, s': State)
    requires Valid(s, input) && |s.runners| > 0 && (Notifies(s, s') || Stops(s, s'))
    ensures SomeAttends(s')
  {
    var r := s.runners[0];
    assert r in s.runners && InTouch(s, r);
    assert Attends(s', s'.runners[0]);
  }

  lemma ProducerWakes(s: State, input: seq<seq<OperatorEvent>>, s': State)
    requires Valid(s, input) && |s.runners| > 0 && ProducerStep(s, s')
    ensures Awake(s')
  {
    hide Valid, Inserts;
    if Notifies(s, s') || Stops(s, s') {
      NewsWakes(s, input, s');
    } else if Joins(s, s') {
      NothingLeft(s, input);
    }
  }

  lemma NothingLeft(s: State, input: seq<seq<OperatorEvent>>)
    requires Valid(s, input) && |s.runners| > 0 && forall r <- s.runners :: r.Exited?
    ensures s.run.lattice.runQueue == []
  {
  }

  /** A runner goes to sleep only when nothing is runnable. */
  lemma RunnerWakes(s: State, k: nat, s': State)
    requires RunnerStep(s, k, s')
    ensures Awake(s')
  {
    hide Fetches, Completes;
    if !FindsNothing(s, k, s') { assert Attends(s', s'.runners[k]); }
  }

  lemma {:induction false} ExecutionAwake(tr: seq<State>, input: seq<seq<OperatorEvent>>, n: nat, k: nat)
    requires Execution(tr, input, n) && n > 0 && k < |tr|
    ensures Awake(tr[k]) && |tr[k].runners| == n
  {
    hide Step, Valid, Awake;
    if k == 0 {
      AwakeAtFirst(tr[0], input, n);
    } else {
      ExecutionAwake(tr, input, n, k - 1);
      ExecutionValid(tr, input, n, k - 1);
      assert Step(tr[k - 1], tr[k - 1 + 1]);
      StepRunners(tr[k - 1], tr[k]);
      StepAwake(tr[k - 1], input, tr[k]);
    }
  }

  lemma AwakeAtFirst(s: State, input: seq<seq<OperatorEvent>>, n: nat)
    requires Init(s, input, n)
    ensures Awake(s)
  {
  }

  lemma StepAwake(s: State, input: seq<seq<OperatorEvent>>, s': State)
    requires Valid(s, input) && |s.runners| > 0 && Step(s, s')
    ensures Awake(s')
  {
    hide Valid, Awake, ProducerStep, RunnerStep;
    if ProducerStep(s, s') {
      ProducerWakes(s, input, s');
    } else {
      var k: nat :| RunnerStep(s, k, s');
      RunnerWakes(s, k, s');
    }
  }

  /** In every state of every execution, whether the streams are open or have ended: if something is runnable and the
      producer is not just adding events, some runner is at work or has yet to hear of the newest version. */
  lemma NoLostWakeUp(tr: seq<State>, input: seq<seq<OperatorEvent>>, n: nat, k: nat)
    requires Execution(tr, input, n) && n > 0 && k < |tr|
    requires !tr[k].producer.Adding? && tr[k].run.lattice.runQueue != []
    ensures exists i :: 0 <= i < |tr[k].runners| && Attends(tr[k], tr[k].runners[i])
  {
    hide Execution;
    ExecutionAwake(tr, input, n, k);
  }

  // ---------------------------------------------------------------------------------------------
  // When the runners have come to rest.

  ghost predicate SomeRuns(s: State, s': State) { exists k: nat :: RunnerStep(s, k, s') }

  ghost predicate CanRun(s: State) { exists s' :: SomeRuns(s, s') }

  lemma CanRunOn(s: State, input: seq<seq<OperatorEvent>>, k: nat)
    requires Valid(s, input) && k < |s.runners| && Attends(s, s.runners[k])
    ensures CanRun(s)
  {
    hide Valid, RunnerStep;
    var s' := RunnerCanStep(s, input, k);
    assert SomeRuns(s, s');
  }

  /** While the streams are open: when no runner can take a step, nothing is runnable and nothing is executing. */
  lemma AtRestOnlyWhenDone(s: State, input: seq<seq<OperatorEvent>>)
    requires Valid(s, input) && Awake(s) && !s.producer.Adding? && !CanRun(s)
    ensures s.run.lattice.runQueue == [] && forall v :: !IsExecuting(s.run.lattice, v)
  {
    hide LatticeRuns.Invariant, Logged, Phased, Fed, Drained;
    forall k: nat | k < |s.runners| ensures !Attends(s, s.runners[k]) {
      if Attends(s, s.runners[k]) { CanRunOn(s, input, k); }
    }
  }

  lemma QuietWhileOpen(tr: seq<State>, input: seq<seq<OperatorEvent>>, n: nat, k: nat)
    requires Execution(tr, input, n) && n > 0 && k < |tr| && tr[k].producer.Polling? && !CanRun(tr[k])
    ensures tr[k].run.lattice.runQueue == [] && forall v :: !IsExecuting(tr[k].run.lattice, v)
  {
    hide Execution, Valid, Awake, CanRun;
    ExecutionAwake(tr, input, n, k);
    ExecutionValid(tr, input, n, k);
    AtRestOnlyWhenDone(tr[k], input);
  }

  /** Every callback of the batches added so far has been invoked. */
  ghost predicate CaughtUp(s: State) {
    s.run.lattice.forest == map[] && Distinct(s.ran) && forall i :: i in s.ran <==> 0 <= i < |s.run.events|
  }

  lemma RestIsCaughtUp(s: State, input: seq<seq<OperatorEvent>>)
    requires Valid(s, input) && Lined(s.run) && s.run.lattice.runQueue == [] && forall v :: !IsExecuting(s.run.lattice, v)
    ensures CaughtUp(s)
  {
    hide Held, InOrder, Ordered, MetLive, Phased, Fed, Drained, WellFormed;
    Progress(s.run.lattice, s.run.tag);
    assert forall i :: !Live(s.run, i);
    forall i ensures !CalledBack(s, i) { }
  }

  /** From some state on the runners keep taking steps, whichever, as long as there is one, and the producer waits for its
      streams. */
  ghost predicate RunnersOnly(tr: nat -> State) {
    forall i: nat :: CanRun(tr(i)) ==> SomeRuns(tr(i), tr(i + 1))
  }

  /** They come to rest with nothing runnable and nothing executing, without waiting for more input or for its end; and if
      the events are manageable, every callback of the batches added so far has been invoked by then. */
  lemma {:induction false} RunnersCatchUp(tr: nat -> State, i: nat, input: seq<seq<OperatorEvent>>) returns (k: nat)
    requires RunnersOnly(tr) && Valid(tr(i), input) && Awake(tr(i)) && |tr(i).runners| > 0 && !tr(i).producer.Adding?
    ensures k >= i && tr(k).run.lattice.runQueue == [] && forall v :: !IsExecuting(tr(k).run.lattice, v)
    ensures tr(k).run.events == tr(i).run.events
    ensures ManageableInput(input) && Lined(tr(i).run) ==> CaughtUp(tr(k))
    decreases ProducerWork(tr(i)), EventWork(tr(i)), IdleWork(tr(i).version, tr(i).runners)
  {
    hide Valid, Awake, CanRun, RunnerStep, Lined, ManageableInput, CaughtUp, IdleWork, EventWork, ProducerWork;
    if CanRun(tr(i)) {
      assert SomeRuns(tr(i), tr(i + 1));
      var j: nat :| RunnerStep(tr(i), j, tr(i + 1));
      OnwardRunner(tr(i), j, tr(i + 1), input);
      k := RunnersCatchUp(tr, i + 1, input);
    } else {
      k := i;
      AtRestOnlyWhenDone(tr(i), input);
      if ManageableInput(input) && Lined(tr(i).run) { RestIsCaughtUp(tr(i), input); }
    }
  }

  lemma OnwardRunner(s: State, j: nat, s': State, input: seq<seq<OperatorEvent>>)
    requires Valid(s, input) && |s.runners| > 0 && RunnerStep(s, j, s')
    ensures Valid(s', input) && Awake(s') && |s'.runners| == |s.runners| && s'.producer == s.producer && s'.run.events == s.run.events
    ensures Closer(s, s') && (ManageableInput(input) && Lined(s.run) ==> Lined(s'.run))
  {
    hide Valid, Awake, Lined, ManageableInput, Closer, WellFormed;
    SameEvents(s, j, s');
    hide RunnerStep;
    assert Step(s, s');
    ValidWellFormed(s, input);
    StepValid(s, input, s');
    StepRunners(s, s');
    StepCloser(s, s');
    RunnerWakes(s, j, s');
    if ManageableInput(input) && Lined(s.run) { StepLined(s, s', input); }
  }

  lemma SameEvents(s: State, j: nat, s': State)
    requires RunnerStep(s, j, s')
    ensures s'.producer == s.producer && s'.run.events == s.run.events
  {
    hide Fetched, Completed;
  }
}
