/** Runs of the lattice: any interleaving of insertions, hand-outs and completions. Every inserted
    event gets a serial number, so that claims survive the reuse of node indices. */
module LatticeRuns {
  import opened Basics
  import opened OperatorEvents
  import opened LatticeModel
  import opened LatticeSearch
  import opened LatticeOrder
  import opened LatticeSteps
  import opened MessageBarrier

  /** `met` holds the pairs of events that were ever waiting at the same time; `handed` and `done`
      list the events that were handed out and completed, in order. */
  datatype Run = Run(
    lattice: Lattice,
    tag: map<Node, nat>,
    events: seq<OperatorEvent>,
    met: set<(nat, nat)>,
    handed: seq<nat>,
    done: seq<nat>
  )

  const FRESH: Run := Run(EMPTY, map[], [], {}, [], [])

  ghost function WaitingPairs(l: Lattice, tag: map<Node, nat>): set<(nat, nat)> {
    set u <- tag, v <- tag | IsWaiting(l, u) && IsWaiting(l, v) :: (tag[u], tag[v])
  }

  ghost predicate Inserts(r: Run, e: OperatorEvent, n: Node, r': Run) {
    && Inserted(r.lattice, e, n, r'.lattice)
    && var tag := r.tag[n := |r.events|];
    && r' == Run(r'.lattice, tag, r.events + [e], r.met + WaitingPairs(r'.lattice, tag), r.handed, r.done)
  }

  ghost predicate Fetches(r: Run, n: Node, r': Run) {
    && Fetched(r.lattice, n, r'.lattice)
    && n in r.tag
    && r' == r.(lattice := r'.lattice, handed := r.handed + [r.tag[n]])
  }

  ghost predicate Completes(r: Run, n: Node, r': Run) {
    && Completed(r.lattice, n, r'.lattice)
    && n in r.tag
    && r' == r.(lattice := r'.lattice, tag := r.tag - {n}, done := r.done + [r.tag[n]])
  }

  ghost predicate Next(r: Run, r': Run) {
    || (exists e, n :: Inserts(r, e, n, r'))
    || (exists n :: Fetches(r, n, r'))
    || (exists n :: Completes(r, n, r'))
  }

  // ---------------------------------------------------------------------------------------------
  // What holds in every run, whatever the events.

  ghost predicate Tagged(r: Run) {
    && r.tag.Keys == r.lattice.forest.Keys
    && (forall u <- r.tag, v <- r.tag | u != v :: r.tag[u] != r.tag[v])
    && (forall v <- r.tag :: r.tag[v] < |r.events|)
    && (forall v <- r.tag :: IsWaiting(r.lattice, v) ==> r.lattice.forest[v].value == r.events[r.tag[v]])
  }

  ghost predicate Live(r: Run, i: nat) { exists v :: v in r.tag && r.tag[v] == i }

  /** Every event is waiting, executing or completed, and it gets there in that order, once. */
  ghost predicate Ledger(r: Run) {
    && Distinct(r.handed) && Distinct(r.done)
    && (forall i :: i in r.done ==> i in r.handed && !Live(r, i))
    && (forall i :: i in r.handed ==> i < |r.events|)
    && (forall v <- r.tag :: r.tag[v] in r.handed <==> IsExecuting(r.lattice, v))
    && (forall i :: 0 <= i < |r.events| ==> i in r.done || Live(r, i))
  }

  ghost predicate MetLive(r: Run) {
    forall i, j :: (i, j) in r.met ==> i < |r.events| && j < |r.events|
  }

  ghost predicate Invariant(r: Run) { WellFormed(r.lattice) && Tagged(r) && Ledger(r) && MetLive(r) }

  // ---------------------------------------------------------------------------------------------
  // What holds when the events are as the streams make them: messages go first.

  ghost predicate AllEventsMade(r: Run) { forall e <- r.events :: IsMade(e) }

  /** The event of a is a message that the event of b must wait for, and the two have met. */
  ghost predicate Bound(r: Run, a: Node, b: Node)
    requires a in r.tag && b in r.tag && r.tag[a] < |r.events| && r.tag[b] < |r.events|
  {
    && MessageFirst(r.events[r.tag[a]], r.events[r.tag[b]])
    && (IsWaiting(r.lattice, a) || (r.tag[a], r.tag[b]) in r.met)
  }

  ghost predicate Barred(r: Run)
    requires Tagged(r)
  {
    forall a <- r.tag, b <- r.tag | IsWaiting(r.lattice, b) && Bound(r, a, b) :: Kept(r.lattice, a, b)
  }

  ghost predicate MessagesFirst(r: Run) {
    forall i, j :: (i, j) in r.met && i < |r.events| && j < |r.events| && MessageFirst(r.events[i], r.events[j]) && j in r.handed ==>
      i in r.done
  }

  ghost predicate Guarding(r: Run) { Fit(r.lattice) && Tagged(r) && Barred(r) && MessagesFirst(r) }

  // ---------------------------------------------------------------------------------------------
  // What holds as long as the waiting events are manageable.

  /** The executing event a holds back the waiting event b. */
  ghost predicate Guarded(l: Lattice, age: map<Node, nat>, a: Node, b: Node) {
    (b, a) in l.edges || exists c :: (c, b) in Before(Waiting(l), age) && (c, a) in l.edges
  }

  /** Event i goes before event j, and the two have waited together. */
  ghost predicate Precedence(r: Run, i: nat, j: nat) {
    && (i, j) in r.met && i < |r.events| && j < |r.events|
    && (Compare(r.events[i], r.events[j]) == Precedes || (Tied(r.events[i], r.events[j]) && i < j))
  }

  ghost predicate Held(r: Run) {
    forall a <- r.tag, b <- r.tag | IsExecuting(r.lattice, a) && IsWaiting(r.lattice, b) ::
      Precedence(r, r.tag[a], r.tag[b]) ==> Guarded(r.lattice, r.tag, a, b)
  }

  /** An event is handed out only after every event before it that it ever waited with is completed. */
  ghost predicate InOrder(r: Run) {
    forall i, j :: Precedence(r, i, j) && j in r.handed ==> i in r.done
  }

  ghost predicate Lined(r: Run) { Ordered(r.lattice, r.tag) && Held(r) && InOrder(r) }

  // ---------------------------------------------------------------------------------------------
  // Insertion.

  lemma InsertKeepsRunning(l: Lattice, e: OperatorEvent, n: Node, l': Lattice)
    requires WellFormed(l) && Inserted(l, e, n, l')
    ensures l'.forest == l.forest[n := Some(e)] && n !in l.forest
    ensures forall x, a :: (x, a) in l.edges && IsExecuting(l, a) ==> (x, a) in l'.edges
  {
    var tr: seq<Search> :| Trace(l, e, tr) && Final(l, tr[|tr| - 1]) && l' == Splice(l, e, n, tr[|tr| - 1]);
    TraceSane(l, e, tr);
    forall x, a | (x, a) in l.edges && IsExecuting(l, a) ensures (x, a) in l'.edges {
      assert (x, a) !in tr[|tr| - 1].redundant;
    }
  }

  lemma InsertInvariant(r: Run, e: OperatorEvent, n: Node, r': Run)
    requires Invariant(r) && Inserts(r, e, n, r')
    ensures Invariant(r')
  {
    hide WellFormed, Tagged, Ledger, Inserted, MetLive;
    InsertWellFormed(r.lattice, e, n, r'.lattice);
    InsertKeepsRunning(r.lattice, e, n, r'.lattice);
    InsertTagged(r, e, n, r');
    InsertLedger(r, e, n, r');
    NewlyMet(r, e, n, r');
  }

  lemma InsertTagged(r: Run, e: OperatorEvent, n: Node, r': Run)
    requires Tagged(r) && Inserts(r, e, n, r')
    requires r'.lattice.forest == r.lattice.forest[n := Some(e)]
    ensures Tagged(r')
  {
    assert forall v :: IsWaiting(r'.lattice, v) <==> IsWaiting(r.lattice, v) || v == n;
  }

  lemma InsertLedger(r: Run, e: OperatorEvent, n: Node, r': Run)
    requires Tagged(r) && Ledger(r) && Inserts(r, e, n, r')
    requires r'.lattice.forest == r.lattice.forest[n := Some(e)]
    ensures Ledger(r')
  {
    assert forall v :: IsExecuting(r'.lattice, v) <==> IsExecuting(r.lattice, v) && v != n;
    assert r'.tag[n] == |r.events|;
    forall i ensures Live(r', i) <==> Live(r, i) || i == |r.events| {
      if Live(r, i) {
        var v :| v in r.tag && r.tag[v] == i;
        assert r'.tag[v] == i;
      }
    }
  }

  /** Only events that have not been handed out meet for the first time. */
  lemma NewlyMet(r: Run, e: OperatorEvent, n: Node, r': Run)
    requires Tagged(r') && Ledger(r') && MetLive(r) && Inserts(r, e, n, r')
    ensures MetLive(r')
    ensures forall i, j :: (i, j) in r'.met && (i in r'.handed || j in r'.handed) ==> (i, j) in r.met
  {
    forall i, j | (i, j) in r'.met && (i, j) !in r.met
      ensures i !in r'.handed && j !in r'.handed && i < |r'.events| && j < |r'.events|
    {
      assert (i, j) in WaitingPairs(r'.lattice, r'.tag);
    }
  }

  /** Old pairs that wait or met are bound as before. */
  lemma InsertBarred(r: Run, e: OperatorEvent, n: Node, r': Run, a: Node, b: Node)
    requires Invariant(r) && Guarding(r) && IsMade(e) && Inserts(r, e, n, r') && Tagged(r') && Ledger(r')
    requires r'.lattice.forest == r.lattice.forest[n := Some(e)] && n !in r.lattice.forest
    requires a in r'.tag && b in r'.tag && IsWaiting(r'.lattice, b) && Bound(r', a, b)
    requires forall i, j :: (i, j) in r'.met && (i in r'.handed || j in r'.handed) ==> (i, j) in r.met
    ensures Kept(r'.lattice, a, b)
  {
    hide Fit, Inserted, Ledger, MessagesFirst, WellFormed, Kept;
    var l, l' := r.lattice, r'.lattice;
    if a != n && b != n {
      assert IsWaiting(l, b) && IsWaiting(l, a) == IsWaiting(l', a) && r'.tag[a] == r.tag[a] && r'.tag[b] == r.tag[b];
      assert !IsWaiting(l, a) ==> r'.tag[a] in r'.handed by { LiveRuns(r', a); }
      assert Bound(r, a, b);
      InsertKeeps(l, e, n, l', a, b);
    } else {
      NotBoundToItself(r', a, b);
      InsertMeets(l, e, n, l', if a == n then b else a);
    }
  }

  lemma LiveRuns(r: Run, a: Node)
    requires Tagged(r) && Ledger(r) && a in r.tag
    ensures IsWaiting(r.lattice, a) || r.tag[a] in r.handed
  {
    assert a in r.lattice.forest;
  }

  lemma NotBoundToItself(r: Run, a: Node, b: Node)
    requires a in r.tag && b in r.tag && r.tag[a] < |r.events| && r.tag[b] < |r.events| && Bound(r, a, b)
    ensures a != b
  {
  }

  lemma InsertGuarding(r: Run, e: OperatorEvent, n: Node, r': Run)
    requires Invariant(r) && Guarding(r) && IsMade(e) && Inserts(r, e, n, r')
    ensures Guarding(r')
  {
    hide WellFormed, Inserted, Fit, Tagged, Ledger, MetLive, Kept, Bound, MessageFirst;
    InsertInvariant(r, e, n, r');
    InsertKeepsRunning(r.lattice, e, n, r'.lattice);
    InsertFit(r.lattice, e, n, r'.lattice);
    NewlyMet(r, e, n, r');
    InsertAllBarred(r, e, n, r');
    InsertMessagesFirst(r, e, n, r');
  }

  lemma InsertAllBarred(r: Run, e: OperatorEvent, n: Node, r': Run)
    requires Invariant(r) && Guarding(r) && IsMade(e) && Inserts(r, e, n, r') && Tagged(r') && Ledger(r')
    requires r'.lattice.forest == r.lattice.forest[n := Some(e)] && n !in r.lattice.forest
    requires forall i, j :: (i, j) in r'.met && (i in r'.handed || j in r'.handed) ==> (i, j) in r.met
    ensures Barred(r')
  {
    hide Invariant, Guarding, Inserts, Ledger, Kept, Bound, IsMade;
    forall a <- r'.tag, b <- r'.tag | IsWaiting(r'.lattice, b) && Bound(r', a, b) ensures Kept(r'.lattice, a, b) {
      InsertBarred(r, e, n, r', a, b);
    }
  }

  lemma InsertMessagesFirst(r: Run, e: OperatorEvent, n: Node, r': Run)
    requires MessagesFirst(r) && MetLive(r) && Inserts(r, e, n, r')
    requires forall i, j :: (i, j) in r'.met && (i in r'.handed || j in r'.handed) ==> (i, j) in r.met
    ensures MessagesFirst(r')
  {
    forall i, j | (i, j) in r'.met && i < |r'.events| && j < |r'.events| && MessageFirst(r'.events[i], r'.events[j]) && j in r'.handed
      ensures i in r'.done
    {
      assert (i, j) in r.met;
    }
  }

  lemma InsertLined(r: Run, e: OperatorEvent, n: Node, r': Run)
    requires Invariant(r) && Lined(r) && Inserts(r, e, n, r') && Manageable(Waiting(r'.lattice))
    ensures Lined(r')
  {
    hide WellFormed, Ordered, Tagged, Ledger, Held, Inserted, Admissible, Manageable, MetLive;
    InsertInvariant(r, e, n, r');
    InsertKeepsRunning(r.lattice, e, n, r'.lattice);
    InsertAdmissible(r, e, n, r');
    InsertOrdered(r.lattice, e, n, r'.tag, r'.lattice);
    NewlyMet(r, e, n, r');
    InsertHeld(r, e, n, r');
    InsertInOrder(r, e, n, r');
  }

  lemma InsertAdmissible(r: Run, e: OperatorEvent, n: Node, r': Run)
    requires WellFormed(r.lattice) && Tagged(r) && Ordered(r.lattice, r.tag) && Inserts(r, e, n, r') && Manageable(Waiting(r'.lattice))
    ensures Admissible(r.lattice, e, n, r'.tag) && Ordered(r.lattice, r'.tag)
  {
    hide Manageable, Ordered, Inserted;
    InsertWellFormed(r.lattice, e, n, r'.lattice);
    InsertKeepsRunning(r.lattice, e, n, r'.lattice);
    SameAges(r.lattice, r.tag, r'.tag);
  }

  lemma InsertInOrder(r: Run, e: OperatorEvent, n: Node, r': Run)
    requires InOrder(r) && MetLive(r) && Inserts(r, e, n, r')
    requires forall i, j :: (i, j) in r'.met && (i in r'.handed || j in r'.handed) ==> (i, j) in r.met
    ensures InOrder(r')
  {
    forall i, j | Precedence(r', i, j) && j in r'.handed ensures i in r'.done {
      assert (i, j) in r.met && Precedence(r, i, j);
    }
  }

  lemma InsertHeld(r: Run, e: OperatorEvent, n: Node, r': Run)
    requires WellFormed(r.lattice) && Tagged(r) && MetLive(r) && Held(r) && Inserts(r, e, n, r')
    requires Ledger(r') && r'.lattice.forest == r.lattice.forest[n := Some(e)] && n !in r.lattice.forest
    requires forall x, a :: (x, a) in r.lattice.edges && IsExecuting(r.lattice, a) ==> (x, a) in r'.lattice.edges
    requires forall i, j :: (i, j) in r'.met && (i in r'.handed || j in r'.handed) ==> (i, j) in r.met
    ensures Held(r')
  {
    hide Compare, Tied;
    var l, l' := r.lattice, r'.lattice;
    InsertWellFormed(l, e, n, l');
    SameAges(l, r.tag, r'.tag);
    BeforeExtends(Waiting(l), n, e, r'.tag);
    forall a <- r'.tag, b <- r'.tag |
      IsExecuting(l', a) && IsWaiting(l', b) && Precedence(r', r'.tag[a], r'.tag[b])
      ensures Guarded(l', r'.tag, a, b)
    {
      assert IsExecuting(l, a) && IsWaiting(l, b) && Precedence(r, r.tag[a], r.tag[b]);
      assert Guarded(l, r.tag, a, b);
    }
  }

  // ---------------------------------------------------------------------------------------------
  // Handing out.

  lemma FetchInvariant(r: Run, n: Node, r': Run)
    requires Invariant(r) && Fetches(r, n, r')
    ensures Invariant(r')
  {
    hide WellFormed, Tagged, Ledger;
    FetchWellFormed(r.lattice, n, r'.lattice);
    FetchBooks(r, n, r');
  }

  lemma FetchBooks(r: Run, n: Node, r': Run)
    requires Tagged(r) && Ledger(r) && Fetches(r, n, r') && IsWaiting(r.lattice, n)
    requires r'.lattice.forest == r.lattice.forest[n := None]
    ensures Tagged(r') && Ledger(r')
  {
    hide Fetched;
    assert forall v :: IsExecuting(r'.lattice, v) <==> IsExecuting(r.lattice, v) || v == n;
    assert forall v :: IsWaiting(r'.lattice, v) ==> IsWaiting(r.lattice, v) && v != n;
    FetchLedger(r, n, r');
  }

  lemma FetchLedger(r: Run, n: Node, r': Run)
    requires Tagged(r) && Ledger(r) && n in r.tag && IsWaiting(r.lattice, n)
    requires r' == r.(lattice := r'.lattice, handed := r.handed + [r.tag[n]])
    requires forall v :: IsExecuting(r'.lattice, v) <==> IsExecuting(r.lattice, v) || v == n
    ensures Ledger(r')
  {
    forall i ensures Live(r', i) <==> Live(r, i) { }
    assert r.tag[n] !in r.handed && Live(r, r.tag[n]);
    forall v <- r'.tag ensures r'.tag[v] in r'.handed <==> IsExecuting(r'.lattice, v) { }
  }

  /** A runnable event is bound to no live message. */
  lemma NoMessageBefore(r: Run, n: Node, a: Node)
    requires Guarding(r) && IsSink(r.lattice, n) && IsWaiting(r.lattice, n) && a in r.tag && n in r.tag
    ensures !Bound(r, a, n)
  {
    hide Kept, Fit;
    if Bound(r, a, n) {
      NotBoundToItself(r, a, n);
      SinkWaitsForNone(r.lattice, a, n);
    }
  }

  lemma FetchGuarding(r: Run, n: Node, r': Run)
    requires Invariant(r) && Guarding(r) && Fetches(r, n, r')
    ensures Guarding(r')
  {
    hide WellFormed, Fit, Ledger, Kept, MessageFirst;
    FetchWellFormed(r.lattice, n, r'.lattice);
    FetchBooks(r, n, r');
    FetchFit(r.lattice, n, r'.lattice);
    FetchBarred(r, n, r');
    FetchMessagesFirst(r, n, r');
  }

  lemma FetchBarred(r: Run, n: Node, r': Run)
    requires Guarding(r) && Fetches(r, n, r') && Tagged(r') && IsWaiting(r.lattice, n)
    requires r'.lattice.forest == r.lattice.forest[n := None]
    ensures Barred(r')
  {
    hide Fit, Kept, MessageFirst, Fetched, MessagesFirst;
    forall a <- r'.tag, b <- r'.tag | IsWaiting(r'.lattice, b) && Bound(r', a, b) ensures Kept(r'.lattice, a, b) {
      assert IsWaiting(r.lattice, b) && Bound(r, a, b);
      FetchKeeps(r.lattice, n, r'.lattice, a, b);
    }
  }

  lemma FetchMessagesFirst(r: Run, n: Node, r': Run)
    requires Guarding(r) && Ledger(r) && Fetches(r, n, r') && IsSink(r.lattice, n) && IsWaiting(r.lattice, n)
    ensures MessagesFirst(r')
  {
    hide Fit, Kept, MessageFirst, Fetched, Barred;
    forall i, j | (i, j) in r'.met && i < |r'.events| && j < |r'.events| && MessageFirst(r'.events[i], r'.events[j]) && j in r'.handed
      ensures i in r'.done
    {
      if j == r.tag[n] && Live(r, i) {
        var a :| a in r.tag && r.tag[a] == i;
        NoMessageBefore(r, n, a);
      }
    }
  }

  lemma FetchLined(r: Run, n: Node, r': Run)
    requires Invariant(r) && Lined(r) && Fetches(r, n, r')
    ensures Lined(r')
  {
    hide WellFormed, Ordered, Tagged, Ledger, Held, InOrder;
    FetchWellFormed(r.lattice, n, r'.lattice);
    FetchOrdered(r.lattice, r.tag, n, r'.lattice);
    FetchInOrder(r, n, r');
    FetchHeld(r, n, r');
  }

  /** A runnable event follows nothing live that it has waited with. */
  lemma NothingBefore(r: Run, n: Node, a: Node)
    requires Tagged(r) && Lined(r) && IsSink(r.lattice, n) && IsWaiting(r.lattice, n) && a in r.tag
    ensures n in r.tag && !Precedence(r, r.tag[a], r.tag[n])
  {
    hide Ordered, Compare, Tied;
    var l := r.lattice;
    SinkIsFirst(l, r.tag, n);
    if IsWaiting(l, a) {
      var w := Waiting(l);
      assert a in w && n in w && (a, n) !in Before(w, r.tag);
    } else {
      assert IsExecuting(l, a) && !Guarded(l, r.tag, a, n);
    }
  }

  /** When n is handed out, whatever it waited with and must follow has been completed. */
  lemma FetchInOrder(r: Run, n: Node, r': Run)
    requires Invariant(r) && Lined(r) && Fetches(r, n, r') && IsSink(r.lattice, n) && IsWaiting(r.lattice, n)
    ensures InOrder(r')
  {
    hide WellFormed, Ordered, Held, Fetched;
    forall i, j | Precedence(r', i, j) && j in r'.handed ensures i in r'.done {
      assert Precedence(r, i, j);
      if j == r.tag[n] && Live(r, i) {
        var a :| a in r.tag && r.tag[a] == i;
        NothingBefore(r, n, a);
      }
    }
  }

  lemma FetchHeld(r: Run, n: Node, r': Run)
    requires Invariant(r) && Lined(r) && Fetches(r, n, r') && IsSink(r.lattice, n) && IsWaiting(r.lattice, n)
    requires Waiting(r'.lattice) == Waiting(r.lattice) - {n}
    ensures Held(r')
  {
    hide Ledger, InOrder, MetLive, WellFormed, Ordered, Before, Compare, Tied;
    var l, l' := r.lattice, r'.lattice;
    BeforeRestricts(Waiting(l), r.tag, n);
    assert l'.edges == l.edges;
    forall a <- r'.tag, b <- r'.tag |
      IsExecuting(l', a) && IsWaiting(l', b) && Precedence(r', r'.tag[a], r'.tag[b])
      ensures Guarded(l', r'.tag, a, b)
    {
      assert b in Waiting(l') && IsWaiting(l, b) && b != n;
      if a == n {
        GoesByTag(r, n, b);
        GuardedByOrder(l, r.tag, n, b);
      } else {
        assert Guarded(l, r.tag, a, b);
      }
      if (b, a) !in l.edges {
        var c :| (c, b) in Before(Waiting(l), r.tag) && (c, a) in l.edges;
        assert c != n && (c, b) in Before(Waiting(l'), r.tag);
      }
    }
  }

  lemma GoesByTag(r: Run, a: Node, b: Node)
    requires Tagged(r) && IsWaiting(r.lattice, a) && IsWaiting(r.lattice, b) && Precedence(r, r.tag[a], r.tag[b])
    ensures Goes(Waiting(r.lattice), r.tag, a, b)
  {
  }

  /** While a waits, some event at or before b depends on it directly. */
  lemma GuardedByOrder(l: Lattice, age: map<Node, nat>, a: Node, b: Node)
    requires Ordered(l, age) && IsWaiting(l, a) && IsWaiting(l, b) && Goes(Waiting(l), age, a, b)
    ensures Guarded(l, age, a, b)
  {
    hide Ordered, Goes;
    var w := Waiting(l);
    OrderedIsChain(l, age);
    assert (a, b) in Before(w, age);
    var c := ImmediatelyAfter(w.Keys, Watermarks(w), Before(w, age), a, b);
  }

  // ---------------------------------------------------------------------------------------------
  // Completion.

  lemma CompleteInvariant(r: Run, n: Node, r': Run)
    requires Invariant(r) && Completes(r, n, r')
    ensures Invariant(r')
  {
    hide WellFormed, Tagged, Ledger, Completed;
    CompleteWellFormed(r.lattice, n, r'.lattice);
    CompleteBooks(r, n, r');
  }

  lemma CompleteBooks(r: Run, n: Node, r': Run)
    requires Tagged(r) && Ledger(r) && Completes(r, n, r') && IsExecuting(r.lattice, n)
    requires r'.lattice.forest == r.lattice.forest - {n}
    ensures Tagged(r') && Ledger(r')
  {
    hide Completed;
    CompleteTagged(r, n, r');
    forall v ensures IsExecuting(r'.lattice, v) <==> IsExecuting(r.lattice, v) && v != n { }
    CompleteLive(r, n, r');
    CompleteLedger(r, n, r');
  }

  lemma CompleteTagged(r: Run, n: Node, r': Run)
    requires Tagged(r) && Completes(r, n, r') && r'.lattice.forest == r.lattice.forest - {n}
    ensures Tagged(r')
  {
    hide Completed;
  }

  lemma CompleteLive(r: Run, n: Node, r': Run)
    requires Tagged(r) && Completes(r, n, r')
    ensures forall i :: Live(r', i) <==> Live(r, i) && i != r.tag[n]
    ensures Live(r, r.tag[n])
  {
    hide Completed;
    forall i ensures Live(r', i) <==> Live(r, i) && i != r.tag[n] {
      if Live(r, i) && i != r.tag[n] {
        var v :| v in r.tag && r.tag[v] == i;
        assert v in r'.tag;
      }
    }
  }

  lemma CompleteLedger(r: Run, n: Node, r': Run)
    requires Ledger(r) && Completes(r, n, r') && IsExecuting(r.lattice, n)
    requires forall i :: Live(r', i) <==> Live(r, i) && i != r.tag[n]
    requires Live(r, r.tag[n])
    requires forall v :: IsExecuting(r'.lattice, v) <==> IsExecuting(r.lattice, v) && v != n
    ensures Ledger(r')
  {
    hide Completed, Live;
  }

  lemma CompleteGuarding(r: Run, n: Node, r': Run)
    requires Invariant(r) && Guarding(r) && Completes(r, n, r')
    ensures Guarding(r')
  {
    hide WellFormed, Fit, Ledger, Kept, MessageFirst, Completed;
    CompleteWellFormed(r.lattice, n, r'.lattice);
    CompleteBooks(r, n, r');
    CompleteFit(r.lattice, n, r'.lattice);
    forall a <- r'.tag, b <- r'.tag | IsWaiting(r'.lattice, b) && Bound(r', a, b) ensures Kept(r'.lattice, a, b) {
      assert IsWaiting(r.lattice, b) && Bound(r, a, b);
      CompleteKeeps(r.lattice, n, r'.lattice, a, b);
    }
  }

  lemma CompleteLined(r: Run, n: Node, r': Run)
    requires Invariant(r) && Lined(r) && Completes(r, n, r')
    ensures Lined(r')
  {
    hide WellFormed, Ordered, Ledger, Held, Completed, Precedence, Manageable;
    CompleteWellFormed(r.lattice, n, r'.lattice);
    CompleteOrdered(r.lattice, r.tag, n, r'.lattice);
    SameAges(r'.lattice, r.tag, r'.tag);
    CompleteHeld(r, n, r');
    forall i, j | Precedence(r', i, j) && j in r'.handed ensures i in r'.done {
      SamePrecedence(r, r', i, j);
    }
  }

  lemma SamePrecedence(r: Run, r': Run, i: nat, j: nat)
    requires r'.met == r.met && r'.events == r.events
    ensures Precedence(r', i, j) <==> Precedence(r, i, j)
  {
  }

  lemma CompleteHeld(r: Run, n: Node, r': Run)
    requires WellFormed(r.lattice) && Held(r) && Completes(r, n, r') && Waiting(r'.lattice) == Waiting(r.lattice)
    requires r'.lattice.forest == r.lattice.forest - {n} && IsExecuting(r.lattice, n)
    ensures Held(r')
  {
    hide Compare, Tied, LeavesExact, QueueExact;
    var l, l' := r.lattice, r'.lattice;
    var i, up :| 0 <= i < |l.leaves| && l.leaves[i] == n && l' == Unlink(l, n, i, up);
    assert l'.edges == set x <- l.edges | x.0 != n && x.1 != n;
    hide Completed, Unlink;
    SameAges(l', r.tag, r'.tag);
    forall a <- r'.tag, b <- r'.tag |
      IsExecuting(l', a) && IsWaiting(l', b) && Precedence(r', r'.tag[a], r'.tag[b])
      ensures Guarded(l', r'.tag, a, b)
    {
      assert IsWaiting(l, b) && IsExecuting(l, a) && Precedence(r, r.tag[a], r.tag[b]);
      assert Guarded(l, r.tag, a, b);
    }
  }

  // ---------------------------------------------------------------------------------------------
  // Every run.

  ghost predicate IsRun(tr: seq<Run>) {
    |tr| > 0 && tr[0] == FRESH && forall i :: 0 <= i < |tr| - 1 ==> Next(tr[i], tr[i + 1])
  }

  /** The events of the run are as the streams make them. */
  ghost predicate MadeRun(tr: seq<Run>) { forall r <- tr :: AllEventsMade(r) }

  /** In every state of the run the waiting events are manageable. */
  ghost predicate ManageableRun(tr: seq<Run>) { forall r <- tr :: Manageable(Waiting(r.lattice)) }

  lemma NextInvariant(r: Run, r': Run)
    requires Invariant(r) && Next(r, r')
    ensures Invariant(r')
  {
    hide Invariant, Inserts, Fetches, Completes;
    if e, n :| Inserts(r, e, n, r') {
      InsertInvariant(r, e, n, r');
    } else if n :| Fetches(r, n, r') {
      FetchInvariant(r, n, r');
    } else {
      var n :| Completes(r, n, r');
      CompleteInvariant(r, n, r');
    }
  }

  lemma NextGuarding(r: Run, r': Run)
    requires Invariant(r) && Guarding(r) && Next(r, r') && AllEventsMade(r')
    ensures Guarding(r')
  {
    hide Invariant, Guarding, Fetches, Completes, Inserted;
    if e, n :| Inserts(r, e, n, r') {
      assert e in r'.events by { assert r'.events[|r.events|] == e; }
      InsertGuarding(r, e, n, r');
    } else if n :| Fetches(r, n, r') {
      FetchGuarding(r, n, r');
    } else {
      var n :| Completes(r, n, r');
      CompleteGuarding(r, n, r');
    }
  }

  lemma NextLined(r: Run, r': Run)
    requires Invariant(r) && Lined(r) && Next(r, r') && Manageable(Waiting(r'.lattice))
    ensures Lined(r')
  {
    hide Invariant, Lined, Fetches, Completes, Inserts, Manageable;
    if e, n :| Inserts(r, e, n, r') {
      InsertLined(r, e, n, r');
    } else if n :| Fetches(r, n, r') {
      FetchLined(r, n, r');
    } else {
      var n :| Completes(r, n, r');
      CompleteLined(r, n, r');
    }
  }

  lemma FreshInvariant()
    ensures Invariant(FRESH) && Guarding(FRESH) && Lined(FRESH)
  {
    assert Waiting(EMPTY) == map[];
    assert forall a, b :: (a, b) !in Before(Waiting(EMPTY), map[]);
  }

  /** Whatever the events and however they interleave: the lattice is well formed and the ledger of events exact. */
  lemma {:induction false} RunInvariant(tr: seq<Run>, k: nat)
    requires IsRun(tr) && k < |tr|
    ensures Invariant(tr[k])
  {
    hide Invariant, Next;
    if k == 0 {
      FreshInvariant();
    } else {
      RunInvariant(tr, k - 1);
      assert Next(tr[k - 1], tr[k - 1 + 1]);
      NextInvariant(tr[k - 1], tr[k]);
    }
  }

  lemma {:induction false} RunGuarding(tr: seq<Run>, k: nat)
    requires IsRun(tr) && MadeRun(tr) && k < |tr|
    ensures Guarding(tr[k])
  {
    hide Invariant, Next, Guarding, AllEventsMade;
    if k == 0 {
      FreshInvariant();
    } else {
      RunInvariant(tr, k - 1);
      RunGuarding(tr, k - 1);
      assert Next(tr[k - 1], tr[k - 1 + 1]);
      assert tr[k] in tr;
      NextGuarding(tr[k - 1], tr[k]);
    }
  }

  lemma {:induction false} RunLined(tr: seq<Run>, k: nat)
    requires IsRun(tr) && ManageableRun(tr) && k < |tr|
    ensures Lined(tr[k])
  {
    hide Invariant, Next, Lined, Manageable;
    if k == 0 {
      FreshInvariant();
    } else {
      RunInvariant(tr, k - 1);
      RunLined(tr, k - 1);
      assert Next(tr[k - 1], tr[k - 1 + 1]);
      assert tr[k] in tr;
      NextLined(tr[k - 1], tr[k]);
    }
  }

  /** Messages first: a watermark is handed out only after every message at or before its time that it ever waited with
      has completed, whatever the watermarks access and however many of them tie. */
  lemma MessagesHandedFirst(tr: seq<Run>, k: nat, i: nat, j: nat)
    requires IsRun(tr) && MadeRun(tr) && k < |tr|
    requires i < |tr[k].events| && j < |tr[k].events| && (i, j) in tr[k].met
    requires MessageFirst(tr[k].events[i], tr[k].events[j]) && j in tr[k].handed
    ensures i in tr[k].done
  {
    hide IsRun, MadeRun, MessageFirst;
    RunGuarding(tr, k);
  }

  /** In a manageable run, whenever an event has been handed out, everything before it that it ever waited with has
      completed. */
  lemma HandedInOrder(tr: seq<Run>, k: nat, i: nat, j: nat)
    requires IsRun(tr) && ManageableRun(tr) && k < |tr| && Precedence(tr[k], i, j) && j in tr[k].handed
    ensures i in tr[k].done
  {
    hide IsRun, ManageableRun, Precedence;
    RunLined(tr, k);
  }

  /** In every lattice of a manageable run two waiting events are joined by a dependency path exactly when one goes before
      the other, and no event depends on itself. */
  lemma RunOrderComplete(tr: seq<Run>, k: nat, a: Node, b: Node)
    requires IsRun(tr) && ManageableRun(tr) && k < |tr| && IsWaiting(tr[k].lattice, a) && IsWaiting(tr[k].lattice, b)
    ensures DependsOn(tr[k].lattice, b, a) <==> Goes(Waiting(tr[k].lattice), tr[k].tag, a, b)
  {
    hide IsRun, ManageableRun, WellFormed, Ordered, DependsOn, Goes;
    RunInvariant(tr, k);
    RunLined(tr, k);
    OrderComplete(tr[k].lattice, tr[k].tag, a, b);
  }

  lemma RunAcyclic(tr: seq<Run>, k: nat, v: Node)
    requires IsRun(tr) && ManageableRun(tr) && k < |tr|
    ensures !DependsOn(tr[k].lattice, v, v)
  {
    hide IsRun, ManageableRun, WellFormed, Ordered, DependsOn;
    RunInvariant(tr, k);
    RunLined(tr, k);
    Acyclic(tr[k].lattice, tr[k].tag, v);
  }

  /** A lattice of a manageable run that is not empty has something to run or something running. */
  lemma RunProgress(tr: seq<Run>, k: nat)
    requires IsRun(tr) && ManageableRun(tr) && k < |tr|
    ensures tr[k].lattice.forest == map[] || tr[k].lattice.runQueue != [] || exists v :: IsExecuting(tr[k].lattice, v)
  {
    hide IsRun, ManageableRun, Ordered;
    RunInvariant(tr, k);
    RunLined(tr, k);
    Progress(tr[k].lattice, tr[k].tag);
  }

  /** Leaves and run queue are exact in every reachable lattice, and executing events are sinks. */
  lemma RunWellFormed(tr: seq<Run>, k: nat)
    requires IsRun(tr) && k < |tr|
    ensures WellFormed(tr[k].lattice)
    ensures forall v :: IsExecuting(tr[k].lattice, v) ==> IsSink(tr[k].lattice, v)
  {
    hide IsRun;
    RunInvariant(tr, k);
  }
}
