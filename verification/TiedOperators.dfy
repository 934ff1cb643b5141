/** An operator with four watermark callbacks of one priority on one stream can shut down without ever invoking them. */
module TiedOperators {
  import opened Timestamps
  import opened OperatorEvents
  import opened Basics
  import opened WriteStreams
  import opened Bundles
  import opened BundleTrees
  import opened LowWatermarks
  import opened EventMakers
  import opened OperatorSetup
  import opened LatticeModel
  import opened LatticeSteps
  import opened LatticeRuns
  import opened Executor
  import opened ExecutorProgress
  import opened Ties
  import opened TieRuns
  import Cycles
  import MessageBarrier
  import Pipeline
  import RunnerCount

  // ---------------------------------------------------------------------------------------------
  // An execution that adds all six events before it runs any.

  ghost function Batches(x: Tie): seq<seq<OperatorEvent>> { [[x.m0], [x.m1], [x.w0, x.w1, x.w2, x.w3]] }

  lemma BatchEvents(x: Tie)
    ensures Flatten(Batches(x)) == Events(x)
  {
    var b := Batches(x);
    assert b[1..] == [[x.m1], [x.w0, x.w1, x.w2, x.w3]];
    assert b[1..][1..] == [[x.w0, x.w1, x.w2, x.w3]];
    assert b[1..][1..][1..] == [];
    assert Flatten(b[1..][1..]) == [x.w0, x.w1, x.w2, x.w3] + [];
  }

  /** The last batch is taken and its first j events are added. */
  ghost function Loading(x: Tie, n: nat, j: nat): State
    requires j <= 4
  {
    State(StageRun(x, 2 + j), [], Adding(Batches(x)[2][j..]), 3, AddedEvents, seq(n, _ => Idle(0)), [])
  }

  lemma LoadStep(x: Tie, n: nat, j: nat)
    requires IsTie(x) && j < 4
    ensures Step(Loading(x, n, j), Loading(x, n, j + 1))
  {
    hide IsTie, Inserts, StageRun;
    var s, s' := Loading(x, n, j), Loading(x, n, j + 1);
    StageInserts(x, 2 + j);
    assert s.producer.batch[0] == Events(x)[2 + j];
    assert s.producer.batch[1..] == s'.producer.batch;
    assert Adds(s, s');
  }

  lemma Load(x: Tie, n: nat) returns (tr: seq<State>)
    requires IsTie(x)
    ensures Execution(tr, Batches(x), n) && tr[|tr| - 1] == Loading(x, n, 4)
  {
    hide IsTie, Inserts, StageRun, Step;
    var b := Batches(x);
    var s0 := State(FRESH, b, Polling, 1, AddedEvents, seq(n, _ => Idle(0)), []);
    StartsFresh(x);
    StageInserts(x, 0);
    StageInserts(x, 1);
    var t1 := RunnerCount.FeedOne(s0, x.m0, 0, StageRun(x, 1));
    var t2 := RunnerCount.FeedOne(t1[2], x.m1, 1, StageRun(x, 2));
    TakeLast(t2[2], Loading(x, n, 0), b);
    var t3 := [Loading(x, n, 0), Loading(x, n, 1), Loading(x, n, 2), Loading(x, n, 3), Loading(x, n, 4)];
    LoadStep(x, n, 0);
    LoadStep(x, n, 1);
    LoadStep(x, n, 2);
    LoadStep(x, n, 3);
    RunnerCount.Joined(s0, t1, t2);
    assert ([s0] + t1 + t2) == [s0] + (t1 + t2);
    RunnerCount.Joined(s0, t1 + t2, t3);
    tr := [s0] + (t1 + t2) + t3;
  }

  lemma TakeLast(s: State, s': State, b: seq<seq<OperatorEvent>>)
    requires |b| == 3 && s.producer.Polling? && s.pending == b[1..][1..]
    requires s' == s.(producer := Adding(b[2][0..]), pending := [])
    ensures Step(s, s')
  {
    assert s.pending == [b[2]] && s.pending[1..] == [] && b[2][0..] == b[2];
    assert Takes(s, s');
  }

  // ---------------------------------------------------------------------------------------------
  // From there to the end.

  lemma TieCircularFree(x: Tie)
    requires IsTie(x)
    ensures CircularFree(Batches(x))
  {
    hide Compare, StreamMade, Le;
    Relations(x);
    MessagesUnordered(x.m0, x.m1);
    BatchEvents(x);
    var e := Events(x);
    forall i, j | 0 <= i < 6 && 0 <= j < 6 && i != j ensures Compare(e[i], e[j]) != Circular {
      if i < 2 && j < 2 { } else if i < j { assert Relates(e[i], e[j]); } else { assert Relates(e[j], e[i]); }
    }
  }

  lemma TieMade(x: Tie)
    requires IsTie(x)
    ensures MadeInput(Batches(x))
  {
    hide Compare, StreamMade;
    BatchEvents(x);
  }

  /** Every execution of an input without circular pairs can be carried on to its end. */
  lemma {:induction false} CarryOn(tr: seq<State>, input: seq<seq<OperatorEvent>>, n: nat) returns (tr': seq<State>)
    requires Execution(tr, input, n) && CircularFree(input)
    ensures Execution(tr', input, n) && tr <= tr' && tr'[|tr'| - 1].producer.Finished?
    decreases ProducerWork(tr[|tr| - 1]), EventWork(tr[|tr| - 1]), IdleWork(tr[|tr| - 1].version, tr[|tr| - 1].runners)
  {
    hide Valid, CircularFree, Step, Closer, WellFormed, ProducerWork, EventWork, IdleWork;
    var s := tr[|tr| - 1];
    if s.producer.Finished? {
      tr' := tr;
    } else {
      ExecutionValid(tr, input, n, |tr| - 1);
      ValidWellFormed(s, input);
      var s' := NeverStuck(s, input);
      StepCloser(s, s');
      CloserDecreases(s, s');
      Carried(tr, input, n, s');
      tr' := CarryOn(tr + [s'], input, n);
    }
  }

  lemma CloserDecreases(s: State, s': State)
    requires Closer(s, s')
    ensures || ProducerWork(s') < ProducerWork(s)
            || (ProducerWork(s') == ProducerWork(s) && EventWork(s') < EventWork(s))
            || (ProducerWork(s') == ProducerWork(s) && EventWork(s') == EventWork(s)
                && IdleWork(s'.version, s'.runners) < IdleWork(s.version, s.runners))
  {
  }

  lemma Carried(tr: seq<State>, input: seq<seq<OperatorEvent>>, n: nat, s': State)
    requires Execution(tr, input, n) && Step(tr[|tr| - 1], s')
    ensures Execution(tr + [s'], input, n)
  {
    hide Step;
    var t := tr + [s'];
    forall i | 0 <= i < |t| - 1 ensures Step(t[i], t[i + 1]) {
      if i < |tr| - 1 { assert Step(tr[i], tr[i + 1]); }
    }
  }

  /** With any number of runners there is an execution that ends with the two messages processed and the four watermark
      callbacks never invoked. */
  lemma NeverInvoked(x: Tie, n: nat) returns (tr: seq<State>)
    requires IsTie(x) && n > 0
    ensures Execution(tr, Batches(x), n)
    ensures var s := tr[|tr| - 1]; s.producer.Finished? && Distinct(s.ran) && forall i: nat :: i in s.ran <==> i < 2
  {
    hide IsTie, Execution, CircularFree, Loading;
    var t := Load(x, n);
    ExecutionLong(t, Batches(x), n);
    TieCircularFree(x);
    tr := CarryOn(t, Batches(x), n);
    assert tr[|t| - 1] == t[|t| - 1];
    Ended(x, n, tr, |t| - 1);
  }

  /** Once all six events are loaded, every end of the execution is the same. */
  lemma Ended(x: Tie, n: nat, tr: seq<State>, k: nat)
    requires IsTie(x) && n > 0 && Execution(tr, Batches(x), n) && k < |tr| && tr[k] == Loading(x, n, 4)
    requires tr[|tr| - 1].producer.Finished?
    ensures var s := tr[|tr| - 1]; Distinct(s.ran) && forall i: nat :: i in s.ran <==> i < 2
  {
    hide IsTie, Execution, DependsOn, Valid, Loading, Live, Distinct;
    var input, m := Batches(x), |tr| - 1;
    ExecutionValid(tr, input, n, m);
    ExecutionRunners(tr, input, n, m);
    AllOut(tr[m], input);
    AllExitedBooks(tr[m], input);
    BatchEvents(x);
    forall i: nat ensures i in tr[m].ran <==> i < 2 {
      if 2 <= i < 6 {
        MarkLeft(x, n, tr, k, i);
      } else if i < 2 {
        MessageRan(x, n, tr, i);
      }
    }
  }

  lemma MarkLeft(x: Tie, n: nat, tr: seq<State>, k: nat, i: nat)
    requires Execution(tr, Batches(x), n) && k < |tr| && tr[k] == Loading(x, n, 4) && 2 <= i < 6
    ensures Live(tr[|tr| - 1].run, i)
  {
    hide Execution, DependsOn, Loading, Six, Cycles.Locked, Live, Batches;
    FullyLoaded(x, n);
    InACircle(x, i);
    Cycles.ExecutionLocked(tr, Batches(x), n, k, |tr| - 1, i);
    LockedLives(tr[|tr| - 1].run, i, i);
  }

  lemma ExecutionLong(tr: seq<State>, input: seq<seq<OperatorEvent>>, n: nat)
    requires Execution(tr, input, n)
    ensures |tr| > 0
  {
  }

  lemma FullyLoaded(x: Tie, n: nat)
    ensures var r := Loading(x, n, 4).run; r.lattice == Six(x) && forall v :: 2 <= v < 6 ==> v in r.tag && r.tag[v] == v
  {
    hide StageRun, Six;
    StageFacts(x, 6);
    SixStage(x);
  }

  lemma SixStage(x: Tie)
    ensures Stage(x, 6) == Six(x)
  {
  }

  lemma {:induction false} ExecutionRunners(tr: seq<State>, input: seq<seq<OperatorEvent>>, n: nat, k: nat)
    requires Execution(tr, input, n) && k < |tr|
    ensures |tr[k].runners| == n
  {
    hide Step;
    if k > 0 {
      ExecutionRunners(tr, input, n, k - 1);
      assert Step(tr[k - 1], tr[k - 1 + 1]);
      StepRunners(tr[k - 1], tr[k]);
    }
  }

  lemma AllOut(s: State, input: seq<seq<OperatorEvent>>)
    requires Valid(s, input) && s.producer.Finished?
    ensures forall r <- s.runners :: r.Exited?
  {
  }

  lemma MessageRan(x: Tie, n: nat, tr: seq<State>, i: nat)
    requires IsTie(x) && Execution(tr, Batches(x), n) && |tr| > 0 && i < 2
    requires var s := tr[|tr| - 1]; s.run.events == Events(x) && AtRest(s.run.lattice)
    ensures !Live(tr[|tr| - 1].run, i)
  {
    hide IsTie, Execution, MadeInput, Guarding, LatticeRuns.Invariant, Owned, Logged, Phased, Fed, Drained, Live;
    TieMade(x);
    ExecutionValid(tr, Batches(x), n, |tr| - 1);
    ExecutionGuarding(tr, Batches(x), n, |tr| - 1);
    Settings(x);
    NotAtRest(tr[|tr| - 1].run, i);
  }

  // ---------------------------------------------------------------------------------------------
  // The operators.

  lemma Then(xs: seq<Attach>, x: Attach)
    requires Buildable(xs) && Exists(Built(xs), x)
    ensures Buildable(xs + [x]) && Built(xs + [x]) == Apply(Built(xs), x)
  {
    assert (xs + [x])[..|xs + [x]| - 1] == xs;
  }

  function Data<D>(s: StreamId, t: Timestamp, d: D): Pipeline.Item<D> { Pipeline.Item(s, TimestampedData(t, d)) }

  /** Two messages and the watermark of their timestamp. */
  function TwoAndMark<D>(s: StreamId, t: Timestamp, d: D): seq<Pipeline.Item<D>> {
    [Data(s, t, d), Data(s, t, d), Pipeline.Item(s, Watermark(t))]
  }

  /** A stateless callback and four stateless watermark callbacks on one stream. */
  function PlainCalls(s: StreamId): seq<Attach> {
    var w := AddStatelessWatermarkCallback(s);
    [AddStatelessCallback(s)] + [w] + [w] + [w] + [w]
  }

  lemma PlainBuilt(s: StreamId)
    ensures Buildable(PlainCalls(s)) && Built(PlainCalls(s)) == Operator(map[s := Plain(1, 4)], [], [])
  {
    hide Buildable, Built;
    var w := AddStatelessWatermarkCallback(s);
    var a := [AddStatelessCallback(s)];
    NothingBuilt();
    Then([], AddStatelessCallback(s));
    assert [] + a == a;
    Then(a, w);
    Then(a + [w], w);
    Then(a + [w] + [w], w);
    Then(a + [w] + [w] + [w], w);
  }

  lemma NothingBuilt()
    ensures Buildable([]) && Built([]) == EMPTY_OPERATOR
  {
  }

  /** A callback and four watermark callbacks of priority p on one stateful stream. */
  function StatefulCalls(s: StreamId, id: Uuid, p: Priority): seq<Attach> {
    var w := AddWatermarkCallback(0, p);
    [AddState(s, id)] + [AddCallback(0)] + [w] + [w] + [w] + [w]
  }

  lemma StatefulBuilt(s: StreamId, id: Uuid, p: Priority)
    ensures Buildable(StatefulCalls(s, id, p))
    ensures Built(StatefulCalls(s, id, p)) == WithMarks(s, id, [p, p, p, p])
  {
    hide Buildable, Built;
    var w := AddWatermarkCallback(0, p);
    var a := [AddState(s, id)];
    NothingBuilt();
    Then([], AddState(s, id));
    assert [] + a == a;
    var b := a + [AddCallback(0)];
    Then(a, AddCallback(0));
    assert Built(b) == WithMarks(s, id, []);
    assert [] + [p] == [p] && [p] + [p] == [p, p] && [p, p] + [p] == [p, p, p] && [p, p, p] + [p] == [p, p, p, p];
    Then(b, w);
    OneMoreMark(s, id, [], p);
    Then(b + [w], w);
    OneMoreMark(s, id, [p], p);
    Then(b + [w] + [w], w);
    OneMoreMark(s, id, [p, p], p);
    Then(b + [w] + [w] + [w], w);
    OneMoreMark(s, id, [p, p, p], p);
  }

  function WithMarks(s: StreamId, id: Uuid, ps: seq<Priority>): Operator {
    Operator(map[], [Stateful(s, id, 1, ps, [])], [])
  }

  lemma OneMoreMark(s: StreamId, id: Uuid, ps: seq<Priority>, p: Priority)
    ensures Exists(WithMarks(s, id, ps), AddWatermarkCallback(0, p))
    ensures Apply(WithMarks(s, id, ps), AddWatermarkCallback(0, p)) == WithMarks(s, id, ps + [p])
  {
  }

  /** What three items make of an operator without bundles. */
  lemma ThreeBatches<D>(op: Operator, s: StreamId, t: Timestamp, d: D, x: Tie)
    requires WellBuilt(op) && op.forest == []
    requires Pipeline.EventsOf(MakeEvents(op, s, Message.TimestampedData(t, d)).1) == [x.m0] == [x.m1]
    requires Pipeline.EventsOf(MakeEvents(op, s, Message<D>.Watermark(t)).1) == [x.w0, x.w1, x.w2, x.w3]
    ensures Pipeline.Input(op, TwoAndMark(s, t, d)) == Batches(x)
  {
    hide MakeEvents, WellBuilt;
    var items := TwoAndMark(s, t, d);
    forall c | 0 <= c < 3 ensures Pipeline.After(op, items[..c]) == op {
      var g := Pipeline.After(op, items[..c]);
      assert g.forest == [];
    }
    assert Pipeline.Batch(op, items, 0) == MakeEvents(op, s, Message.TimestampedData(t, d)).1;
    assert Pipeline.Batch(op, items, 1) == MakeEvents(op, s, Message.TimestampedData(t, d)).1;
    assert Pipeline.Batch(op, items, 2) == MakeEvents(op, s, Message<D>.Watermark(t)).1;
  }

  /** Four stateless watermark callbacks: the two messages and the watermark arrive as a tie. */
  lemma PlainTie<D>(s: StreamId, t: Timestamp, d: D)
    ensures Buildable(PlainCalls(s))
    ensures Pipeline.Input(Built(PlainCalls(s)), TwoAndMark(s, t, d)) == Batches(SameKey(t, 0, {}))
  {
    hide Pipeline.Input, Built, Buildable, WellBuilt;
    PlainBuilt(s);
    SetUp(PlainCalls(s));
    var op := Operator(map[s := Plain(1, 4)], [], []);
    var x := SameKey(t, 0, {});
    PlainMade(op, s, t, d, x);
    ThreeBatches(op, s, t, d, x);
  }

  lemma PlainMade<D>(op: Operator, s: StreamId, t: Timestamp, d: D, x: Tie)
    requires WellBuilt(op) && op == Operator(map[s := Plain(1, 4)], [], []) && x == SameKey(t, 0, {})
    ensures Pipeline.EventsOf(MakeEvents(op, s, Message.TimestampedData(t, d)).1) == [x.m0]
    ensures Pipeline.EventsOf(MakeEvents(op, s, Message<D>.Watermark(t)).1) == [x.w0, x.w1, x.w2, x.w3]
  {
    var made := EmissionMade(op, s, t, Stateless);
    assert EmissionsMade(op, s, t, [Stateless]) == [] + made;
  }

  /** Four watermark callbacks of one priority on a stateful stream: the same. */
  lemma StatefulTie<D>(s: StreamId, id: Uuid, p: Priority, t: Timestamp, d: D)
    ensures Buildable(StatefulCalls(s, id, p))
    ensures Pipeline.Input(Built(StatefulCalls(s, id, p)), TwoAndMark(s, t, d)) == Batches(SameKey(t, p, {id}))
  {
    hide Pipeline.Input, Built, Buildable, WellBuilt;
    StatefulBuilt(s, id, p);
    SetUp(StatefulCalls(s, id, p));
    var op := WithMarks(s, id, [p, p, p, p]);
    var x := SameKey(t, p, {id});
    StatefulEvents(op, s, id, p, t, d, x);
    ThreeBatches(op, s, t, d, x);
  }

  lemma StatefulEvents<D>(op: Operator, s: StreamId, id: Uuid, p: Priority, t: Timestamp, d: D, x: Tie)
    requires WellBuilt(op) && op == WithMarks(s, id, [p, p, p, p]) && x == SameKey(t, p, {id})
    ensures Pipeline.EventsOf(MakeEvents(op, s, Message.TimestampedData(t, d)).1) == [x.m0]
    ensures Pipeline.EventsOf(MakeEvents(op, s, Message<D>.Watermark(t)).1) == [x.w0, x.w1, x.w2, x.w3]
  {
    assert DataMade(op, 0, s, t) == [];
    var es := Notified(op, 1, s, t).1;
    assert Notified(op, 0, s, t).1 == [Stateless];
    assert es == [Stateless, Callbacks(0)];
    assert es[..1] == [Stateless] && es[..1][..0] == [];
    assert EmissionMade(op, s, t, Stateless) == [];
    assert EmissionsMade(op, s, t, es[..1]) == [];
  }

  /** For every stream, timestamp and number of runners, a stateless callback and four stateless watermark callbacks: two
      messages and their watermark can leave the operator shut down with the watermark callbacks never invoked. */
  lemma PlainOperatorStuck<D>(s: StreamId, t: Timestamp, d: D, n: nat) returns (tr: seq<State>)
    requires n > 0
    ensures Buildable(PlainCalls(s))
    ensures Execution(tr, Pipeline.Input(Built(PlainCalls(s)), TwoAndMark(s, t, d)), n)
    ensures var s := tr[|tr| - 1]; s.producer.Finished? && forall i: nat :: i in s.ran <==> i < 2
  {
    hide Pipeline.Input, Built, Buildable, WellBuilt, Execution, SameKey, IsTie;
    PlainTie(s, t, d);
    SameKeyTies(t, 0, {});
    tr := NeverInvoked(SameKey(t, 0, {}), n);
  }

  /** The same for every priority, on a stateful stream. */
  lemma StatefulOperatorStuck<D>(s: StreamId, id: Uuid, p: Priority, t: Timestamp, d: D, n: nat) returns (tr: seq<State>)
    requires n > 0
    ensures Buildable(StatefulCalls(s, id, p))
    ensures Execution(tr, Pipeline.Input(Built(StatefulCalls(s, id, p)), TwoAndMark(s, t, d)), n)
    ensures var s := tr[|tr| - 1]; s.producer.Finished? && forall i: nat :: i in s.ran <==> i < 2
  {
    hide Pipeline.Input, Built, Buildable, WellBuilt, Execution, SameKey, IsTie;
    StatefulTie(s, id, p, t, d);
    SameKeyTies(t, p, {id});
    tr := NeverInvoked(SameKey(t, p, {id}), n);
  }
}
