/** Three tied watermarks are the most that every run copes with. */
module TieRuns {
  import opened Timestamps
  import opened OperatorEvents
  import opened Basics
  import opened LatticeModel
  import LatticeSearch
  import opened LatticeSteps
  import opened MessageBarrier
  import opened LatticeRuns
  import opened ExecutorProgress
  import opened Ties
  import Cycles
  import Executor

  // ---------------------------------------------------------------------------------------------
  // The run that adds the six events.

  ghost function Added(r: Run, e: OperatorEvent, n: Node, l: Lattice): Run {
    var tag := r.tag[n := |r.events|];
    Run(l, tag, r.events + [e], r.met + WaitingPairs(l, tag), r.handed, r.done)
  }

  ghost function Events(x: Tie): seq<OperatorEvent> { [x.m0, x.m1, x.w0, x.w1, x.w2, x.w3] }

  /** The lattice after n of the six events. */
  ghost function Stage(x: Tie, n: nat): Lattice
    requires n <= 6
  {
    if n == 0 then EMPTY else if n == 1 then One(x) else if n == 2 then Two(x) else if n == 3 then Three(x)
    else if n == 4 then Four(x) else if n == 5 then Five(x) else Six(x)
  }

  ghost function StageRun(x: Tie, n: nat): Run
    requires n <= 6
  {
    if n == 0 then FRESH else Added(StageRun(x, n - 1), Events(x)[n - 1], n - 1, Stage(x, n))
  }

  lemma {:induction false} StageFacts(x: Tie, n: nat)
    requires n <= 6
    ensures var r := StageRun(x, n);
      && r.lattice == Stage(x, n) && r.events == Events(x)[..n] && r.handed == [] && r.done == []
      && (forall v :: v in r.tag <==> 0 <= v < n) && forall v <- r.tag :: r.tag[v] == v
  {
    hide Stage, WaitingPairs;
    if n == 0 {
      assert Stage(x, 0) == EMPTY by { StageNone(x); }
    } else {
      StageFacts(x, n - 1);
      assert Events(x)[..n] == Events(x)[..n - 1] + [Events(x)[n - 1]];
    }
  }

  lemma StageNone(x: Tie)
    ensures Stage(x, 0) == EMPTY
  {
  }

  lemma StageInserts(x: Tie, n: nat)
    requires IsTie(x) && n < 6
    ensures Inserts(StageRun(x, n), Events(x)[n], n, StageRun(x, n + 1))
  {
    hide IsTie, WaitingPairs, DependsOn, LatticeSearch.Inserted;
    StageFacts(x, n);
    SixInsertions(x);
  }

  ghost function SixRun(x: Tie): seq<Run> { seq(7, n requires 0 <= n < 7 => StageRun(x, n)) }

  lemma SixIsRun(x: Tie)
    requires IsTie(x)
    ensures IsRun(SixRun(x))
  {
    hide IsTie, Inserts, StageRun;
    assert SixRun(x)[0] == FRESH by { StartsFresh(x); }
    forall i | 0 <= i < 6 ensures Next(SixRun(x)[i], SixRun(x)[i + 1]) { StageInserts(x, i); }
  }

  lemma StartsFresh(x: Tie)
    ensures StageRun(x, 0) == FRESH
  {
  }

  // ---------------------------------------------------------------------------------------------
  // Running down: hand out and complete whatever can be.

  function Last(tr: seq<Run>): Run
    requires tr != []
  {
    tr[|tr| - 1]
  }

  ghost predicate Part(w: map<Node, OperatorEvent>, big: map<Node, OperatorEvent>) { forall v <- w :: v in big && big[v] == w[v] }

  ghost predicate AtRest(l: Lattice) { l.runQueue == [] && forall v :: !IsExecuting(l, v) }

  lemma MoveOn(r: Run) returns (r': Run)
    requires LatticeRuns.Invariant(r) && !AtRest(r.lattice)
    ensures Next(r, r') && r'.events == r.events && Part(Waiting(r'.lattice), Waiting(r.lattice))
    ensures |Waiting(r'.lattice)| + |r'.lattice.forest| < |Waiting(r.lattice)| + |r.lattice.forest|
  {
    hide WellFormed, Tagged, Ledger, MetLive, Fetched, Completed;
    if v :| IsExecuting(r.lattice, v) {
      r' := CanComplete(r, v);
      CompleteWellFormed(r.lattice, v, r'.lattice);
      assert r'.lattice.forest.Keys == r.lattice.forest.Keys - {v};
      assert |r'.lattice.forest| == |r'.lattice.forest.Keys| && |r.lattice.forest| == |r.lattice.forest.Keys|;
    } else {
      var n;
      n, r' := CanFetch(r);
      FetchWellFormed(r.lattice, n, r'.lattice);
      FetchKeys(r.lattice, n, r'.lattice);
      assert n in Waiting(r.lattice);
      assert Waiting(r'.lattice).Keys == Waiting(r.lattice).Keys - {n};
      assert |Waiting(r'.lattice)| == |Waiting(r'.lattice).Keys| && |Waiting(r.lattice)| == |Waiting(r.lattice).Keys|;
    }
  }

  lemma FetchKeys(l: Lattice, n: Node, l': Lattice)
    requires Fetched(l, n, l') && IsWaiting(l, n)
    ensures l'.forest.Keys == l.forest.Keys && |l'.forest| == |l.forest|
  {
    assert |l'.forest| == |l'.forest.Keys| && |l.forest| == |l.forest.Keys|;
  }

  lemma Appended(tr: seq<Run>, r: Run)
    requires IsRun(tr) && Next(Last(tr), r)
    ensures IsRun(tr + [r])
  {
    hide Next;
    var tr' := tr + [r];
    forall i | 0 <= i < |tr'| - 1 ensures Next(tr'[i], tr'[i + 1]) {
      if i < |tr| - 1 { assert Next(tr[i], tr[i + 1]); }
    }
  }

  /** Every run can be carried on, without new events, until nothing can be handed out or completed. */
  lemma {:induction false} RunDown(tr: seq<Run>) returns (tr': seq<Run>)
    requires IsRun(tr)
    ensures IsRun(tr') && tr <= tr' && AtRest(Last(tr').lattice) && Last(tr').events == Last(tr).events
    ensures forall i :: |tr| <= i < |tr'| ==> Part(Waiting(tr'[i].lattice), Waiting(Last(tr).lattice))
    decreases |Waiting(Last(tr).lattice)| + |Last(tr).lattice.forest|
  {
    hide IsRun, LatticeRuns.Invariant, Next, AtRest, Waiting;
    NonEmpty(tr);
    if AtRest(Last(tr).lattice) {
      tr' := tr;
    } else {
      RunInvariant(tr, |tr| - 1);
      var r := MoveOn(Last(tr));
      Appended(tr, r);
      tr' := RunDown(tr + [r]);
      assert Last(tr + [r]) == r;
      forall i | |tr| <= i < |tr'| ensures Part(Waiting(tr'[i].lattice), Waiting(Last(tr).lattice)) {
        if i == |tr| { assert tr'[i] == (tr + [r])[i]; }
      }
    }
  }

  lemma NonEmpty(tr: seq<Run>)
    requires IsRun(tr)
    ensures |tr| > 0
  {
  }

  // ---------------------------------------------------------------------------------------------
  // The standstill.

  /** Two messages and four watermarks that tie, added in this order to an empty lattice: however the run goes on from
      there, none of the watermarks is ever handed out. */
  lemma TiedWatermarksDeadlock(x: Tie, tr: seq<Run>, m: nat, i: nat)
    requires IsTie(x) && IsRun(tr) && SixRun(x) <= tr && 6 <= m < |tr| && 2 <= i < 6
    ensures tr[6].events == Events(x) && i !in tr[m].handed && Live(tr[m], i)
  {
    hide IsTie, IsRun, DependsOn, SixRun, Six, Live;
    SixthState(x, tr);
    SixInsertions(x);
    Cycles.LockedForever(tr, 6, m, i);
    LockedLives(tr[m], i, i);
  }

  lemma SixthState(x: Tie, tr: seq<Run>)
    requires SixRun(x) <= tr && |tr| > 6
    ensures tr[6].lattice == Six(x) && tr[6].events == Events(x) && forall v :: 2 <= v < 6 ==> v in tr[6].tag && tr[6].tag[v] == v
  {
    hide StageRun;
    assert tr[6] == SixRun(x)[6];
    StageFacts(x, 6);
    assert Events(x)[..6] == Events(x);
  }

  lemma LockedLives(r: Run, v: Node, i: nat)
    requires Cycles.Locked(r, v, i)
    ensures Live(r, i) && i !in r.handed
  {
  }

  /** The run can go on to a state in which both messages have completed, the four watermarks wait, and nothing can be
      handed out or completed any more. */
  lemma Standstill(x: Tie) returns (tr: seq<Run>)
    requires IsTie(x)
    ensures IsRun(tr) && SixRun(x) <= tr
    ensures var r := Last(tr); r.events == Events(x) && AtRest(r.lattice) && forall i: nat :: Live(r, i) <==> 2 <= i < 6
    ensures forall i :: 6 <= i < |tr| ==> Part(Waiting(tr[i].lattice), Waiting(Six(x)))
  {
    hide IsTie, IsRun, SixRun, AtRest, Live, Waiting, Six;
    SixIsRun(x);
    SixLong(x);
    tr := RunDown(SixRun(x));
    SixthState(x, tr);
    SixthState(x, SixRun(x));
    forall i: nat ensures Live(Last(tr), i) <==> 2 <= i < 6 {
      if 2 <= i < 6 {
        TiedWatermarksDeadlock(x, tr, |tr| - 1, i);
      } else {
        MessageDone(x, tr, i);
      }
    }
  }

  lemma SixLong(x: Tie)
    ensures |SixRun(x)| == 7
  {
  }

  lemma MessageDone(x: Tie, tr: seq<Run>, i: nat)
    requires IsTie(x) && IsRun(tr) && tr != [] && Last(tr).events == Events(x) && AtRest(Last(tr).lattice) && !(2 <= i < 6)
    ensures !Live(Last(tr), i)
  {
    hide IsRun, IsTie, LatticeRuns.Invariant, Guarding, MadeRun, AtRest;
    AllMadeSoFar(x, tr);
    RunInvariant(tr, |tr| - 1);
    RunGuarding(tr, |tr| - 1);
    assert i < 2 ==> !Events(x)[i].isWatermark by { Settings(x); }
    NotAtRest(Last(tr), i);
  }

  /** Where nothing can be handed out or completed, no message is left. */
  lemma NotAtRest(r: Run, i: nat)
    requires LatticeRuns.Invariant(r) && Guarding(r) && AtRest(r.lattice) && (i < |r.events| ==> !r.events[i].isWatermark)
    ensures !Live(r, i)
  {
    hide LeavesExact, QueueExact, EdgesLive, Ledger, MetLive, Barred, MessagesFirst, AllMade;
    Executor.NothingRunnable(r.lattice);
    forall v <- r.tag ensures r.tag[v] != i {
      assert IsWaiting(r.lattice, v) && !IsSink(r.lattice, v);
    }
  }

  lemma AllMadeSoFar(x: Tie, tr: seq<Run>)
    requires IsTie(x) && IsRun(tr) && tr != [] && Last(tr).events == Events(x)
    ensures MadeRun(tr)
  {
    hide IsRun, Compare;
    forall r <- tr ensures AllEventsMade(r) {
      var k: nat :| k < |tr| && tr[k] == r;
      EventsGrow(tr, k, |tr| - 1);
      forall e <- r.events ensures IsMade(e) {
        var j :| 0 <= j < |r.events| && r.events[j] == e;
        assert Events(x)[j] == e;
      }
    }
  }

  lemma {:induction false} EventsGrow(tr: seq<Run>, k: nat, m: nat)
    requires IsRun(tr) && k <= m < |tr|
    ensures tr[k].events <= tr[m].events
    decreases m
  {
    hide LatticeSearch.Inserted, Fetched, Completed;
    if k < m {
      EventsGrow(tr, k, m - 1);
      assert Next(tr[m - 1], tr[m - 1 + 1]);
    }
  }

  // ---------------------------------------------------------------------------------------------
  // The bound.

  /** In every state of the run priorities decide between the waiting events, and at most n of the watermarks among them
      share a timestamp and a priority. */
  ghost predicate TiedRun(tr: seq<Run>, n: nat) { forall r <- tr :: TiesAtMost(Waiting(r.lattice), n) }

  ghost predicate GetsOn(tr: seq<Run>) {
    forall r <- tr :: Executor.NoCycle(r.lattice) && (r.lattice.forest == map[] || !AtRest(r.lattice))
  }

  ghost predicate Suffices(n: nat) { forall tr :: IsRun(tr) && TiedRun(tr, n) ==> GetsOn(tr) }

  lemma ThreeSuffice(tr: seq<Run>, n: nat)
    requires IsRun(tr) && TiedRun(tr, n) && n <= 3
    ensures GetsOn(tr)
  {
    hide IsRun, DependsOn, Manageable, Waiting, PriorityOrdered, TieClass;
    forall r <- tr ensures Manageable(Waiting(r.lattice)) { ThreeTiesManageable(Waiting(r.lattice)); }
    forall r <- tr ensures Executor.NoCycle(r.lattice) && (r.lattice.forest == map[] || !AtRest(r.lattice)) {
      var k: nat :| k < |tr| && tr[k] == r;
      forall v ensures !DependsOn(r.lattice, v, v) { RunAcyclic(tr, k, v); }
      RunProgress(tr, k);
    }
  }

  /** Two messages and four watermarks of timestamp t, the latter with priority p and the access they all have. */
  function SameKey(t: Timestamp, p: Priority, ids: set<Uuid>): Tie {
    var m, w := OperatorEvent(t, false, 0, {}, ids), OperatorEvent(t, true, p, {}, ids);
    Tie(m, m, w, w, w, w)
  }

  lemma SameKeyTies(t: Timestamp, p: Priority, ids: set<Uuid>)
    requires |ids| <= 1
    ensures IsTie(SameKey(t, p, ids))
  {
    TotalOrder(t, t);
  }

  lemma PartTies(w: map<Node, OperatorEvent>, x: Tie)
    requires IsTie(x) && Part(w, Waiting(Six(x))) && x.w0 == x.w1 == x.w2 == x.w3
    ensures TiesAtMost(w, 4)
  {
    forall t, p ensures |TieClass(w, t, p)| <= 4 {
      forall v <- TieClass(w, t, p) ensures v in {2, 3, 4, 5} {
        assert IsWaiting(Six(x), v) && Six(x).forest[v].value.isWatermark;
      }
      Fewer(TieClass(w, t, p), {2, 3, 4, 5});
    }
  }

  lemma Fewer(a: set<Node>, b: set<Node>)
    requires a <= b
    ensures |a| <= |b|
  {
    assert b == a + (b - a);
  }

  lemma StagePart(x: Tie, n: nat)
    requires n <= 6
    ensures Part(Waiting(StageRun(x, n).lattice), Waiting(Six(x)))
  {
    hide StageRun;
    StageFacts(x, n);
    forall v <- Stage(x, n).forest ensures v in Six(x).forest && Six(x).forest[v] == Stage(x, n).forest[v] { }
  }

  /** Runs stay acyclic and never come to a standstill with at most n watermarks to a timestamp and priority exactly if n
      is at most three. */
  lemma TieBound(n: nat)
    ensures Suffices(n) <==> n <= 3
  {
    hide IsRun, TiedRun, GetsOn;
    if n <= 3 {
      forall tr | IsRun(tr) && TiedRun(tr, n) ensures GetsOn(tr) { ThreeSuffice(tr, n); }
    } else {
      var tr := FourFail(Bottom(), 0);
      MoreTied(tr, 4, n);
    }
  }

  /** For every timestamp and priority there is a run that never has more than four watermarks to a timestamp and
      priority, adds just two messages and four watermarks of those, and comes to a standstill. */
  lemma FourFail(t: Timestamp, p: Priority) returns (tr: seq<Run>)
    ensures IsRun(tr) && TiedRun(tr, 4) && !GetsOn(tr) && Last(tr).events == Events(SameKey(t, p, {}))
  {
    hide IsRun, IsTie, StageRun, Waiting, Live, TiesAtMost;
    SameKeyTies(t, p, {});
    var x := SameKey(t, p, {});
    tr := Standstill(x);
    forall r <- tr ensures TiesAtMost(Waiting(r.lattice), 4) {
      var k: nat :| k < |tr| && tr[k] == r;
      if k < 7 {
        assert tr[k] == SixRun(x)[k];
        StagePart(x, k);
      }
      PartTies(Waiting(r.lattice), x);
    }
    assert Live(Last(tr), 2);
    LiveForest(tr, 2);
    assert Last(tr) in tr;
  }

  lemma MoreTied(tr: seq<Run>, m: nat, n: nat)
    requires TiedRun(tr, m) && m <= n
    ensures TiedRun(tr, n)
  {
    hide Waiting, TieClass, PriorityOrdered;
  }

  lemma LiveForest(tr: seq<Run>, i: nat)
    requires IsRun(tr) && tr != [] && Live(Last(tr), i)
    ensures Last(tr).lattice.forest != map[]
  {
    hide IsRun;
    RunInvariant(tr, |tr| - 1);
  }
}
