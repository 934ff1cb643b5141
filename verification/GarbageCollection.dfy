/** Exactly what callbacks at later times see of a time having been closed. */
module GarbageCollection {
  import opened Timestamps
  import opened Basics
  import opened SortedEntries
  import opened TimeVersions

  // ---------------------------------------------------------------------------------------------
  // Both histories always have the same keys.

  ghost predicate SameKeys<V, W>(a: Entries<V>, b: Entries<W>) {
    |a| == |b| && forall i :: 0 <= i < |a| ==> a[i].0 == b[i].0
  }

  ghost predicate Keyed<S, T>(v: Versions<S, T>) {
    Sorted(v.messages) && Sorted(v.states) && SameKeys(v.messages, v.states)
  }

  lemma SameRank<V, W>(a: Entries<V>, b: Entries<W>, t: Timestamp)
    requires Sorted(a) && Sorted(b) && SameKeys(a, b)
    ensures Rank(a, t) == Rank(b, t) && Has(a, t) == Has(b, t) && RankThrough(a, t) == RankThrough(b, t)
  {
    RankSplits(a, t);
    RankIs(b, t, Rank(a, t));
  }

  lemma PutSameKeys<V, W>(a: Entries<V>, b: Entries<W>, t: Timestamp, v: V, w: W)
    requires Sorted(a) && Sorted(b) && SameKeys(a, b)
    ensures SameKeys(Put(a, t, v), Put(b, t, w)) && Sorted(Put(a, t, v)) && Sorted(Put(b, t, w))
    ensures Has(a, t) ==> SameKeys(Put(a, t, v), b)
  {
    hide Rank, Lt, Sorted;
    SameRank(a, b, t);
    PutSorted(a, t, v);
    PutSorted(b, t, w);
  }

  lemma CloseKeyed<S, T>(v: Versions<S, T>, t: Timestamp)
    requires Keyed(v)
    ensures var w := CloseTime(v, t).0;
      Keyed(w) && exists d :: 0 <= d <= |v.states| && w.states == v.states[d..] && w.messages == v.messages[d..]
  {
    var i := SplitAt(v.states, v.historySize, t);
    if v.context.InWatermark? && i.Some? {
      HasExact(v.states, v.states[i.value].0);
      SameRank(v.messages, v.states, v.states[i.value].0);
      assert CloseTime(v, t).0.states == v.states[i.value..];
    } else {
      assert v.states[0..] == v.states && v.messages[0..] == v.messages;
    }
  }

  // ---------------------------------------------------------------------------------------------
  // Anything that can happen after a time is closed.

  datatype Op<S, T> =
    | SetTime(time: Timestamp)
    | SetContext(context: Context)
    | AppendMessage(message: T)
    | WriteState(state: S)
    | Close(time: Timestamp)
    | CurrentState
    | CurrentMessages
    | IterStates
    | IterMessages
    | LookupState(key: Timestamp)
    | LookupMessages(key: Timestamp)

  datatype Answer<S, T> =
    | Nothing
    | Done(done: Reply<()>)
    | AState(state: Reply<S>)
    | SomeMessages(messages: Reply<seq<T>>)
    | States(states: Reply<Entries<S>>)
    | Histories(histories: Reply<Entries<seq<T>>>)
    | FoundState(found: Reply<Option<S>>)
    | FoundMessages(list: Reply<Option<seq<T>>>)

  function Current<V>(es: Entries<V>, now: Timestamp): Reply<V> {
    if Has(es, now) then Ok(es[Rank(es, now)].1) else Panicked
  }

  function Perform<S, T>(v: Versions<S, T>, op: Op<S, T>, default: S): (Versions<S, T>, Answer<S, T>) {
    var watching := v.context.InWatermark?;
    match op
    case SetTime(t) => (SetCurrentTime(v, t, default), Nothing)
    case SetContext(c) => (v.(context := c), Nothing)
    case AppendMessage(x) => var (w, r) := Append(v, x); (w, Done(r))
    case WriteState(s) => var (w, r) := SetCurrentState(v, s); (w, Done(r))
    case Close(t) => var (w, r) := CloseTime(v, t); (w, Done(r))
    case CurrentState => (v, AState(if watching then Current(v.states, v.currentTime) else Denied))
    case CurrentMessages => (v, SomeMessages(if watching then Current(v.messages, v.currentTime) else Denied))
    case IterStates => (v, States(if watching then Ok(Recent(v.states, v.currentTime, v.historySize)) else Denied))
    case IterMessages => (v, Histories(if watching then Ok(Recent(v.messages, v.currentTime, v.historySize)) else Denied))
    case LookupState(k) => (v, FoundState(if watching then Ok(GetAt(v.states, v.currentTime, v.historySize, k)) else Denied))
    case LookupMessages(k) => (v, FoundMessages(if watching then Ok(GetAt(v.messages, v.currentTime, v.historySize, k)) else Denied))
  }

  function After<S, T>(v: Versions<S, T>, ops: seq<Op<S, T>>, default: S): Versions<S, T> {
    if ops == [] then v else Perform(After(v, ops[..|ops| - 1], default), ops[|ops| - 1], default).0
  }

  /** What the i-th operation of a sequence answers. */
  function AnswerAt<S, T>(v: Versions<S, T>, ops: seq<Op<S, T>>, i: int, default: S): Answer<S, T>
    requires 0 <= i < |ops|
  {
    Perform(After(v, ops[..i], default), ops[i], default).1
  }

  /** An operation at a time later than t. */
  predicate Later<S, T>(op: Op<S, T>, t: Timestamp) {
    (op.SetTime? ==> Lt(t, op.time)) && (op.Close? ==> Lt(t, op.time))
  }

  lemma PerformKeyed<S, T>(v: Versions<S, T>, op: Op<S, T>, default: S)
    requires Keyed(v)
    ensures Keyed(Perform(v, op, default).0)
  {
    match op
    case SetTime(t) =>
      SameRank(v.messages, v.states, t);
      PutSameKeys(v.messages, v.states, t, [], default);
    case AppendMessage(x) =>
      if Has(v.messages, v.currentTime) {
        var list := v.messages[Rank(v.messages, v.currentTime)].1;
        SameRank(v.messages, v.states, v.currentTime);
        PutSorted(v.messages, v.currentTime, list + [x]);
      }
    case WriteState(s) =>
      if Has(v.states, v.currentTime) {
        SameRank(v.messages, v.states, v.currentTime);
        PutSorted(v.states, v.currentTime, s);
      }
    case Close(t) => CloseKeyed(v, t);
    case _ =>
  }

  // ---------------------------------------------------------------------------------------------
  // A history whose oldest entries, all up to t, were collected.

  ghost predicate Trimmed<V>(a: Entries<V>, b: Entries<V>, d: nat, t: Timestamp, h: nat) {
    && Sorted(b) && d <= RankThrough(b, t) && a == b[d..]
    && (d > 0 ==> RankThrough(b, t) - d >= h)
  }

  lemma TrimmedRank<V>(a: Entries<V>, b: Entries<V>, d: nat, t: Timestamp, h: nat, u: Timestamp)
    requires Trimmed(a, b, d, t, h) && Lt(t, u)
    ensures RankThrough(b, t) <= Rank(b, u) && Sorted(a)
    ensures Rank(a, u) == Rank(b, u) - d && Has(a, u) == Has(b, u) && RankThrough(a, u) == RankThrough(b, u) - d
  {
    ThroughSplits(b, t);
    RankSplits(b, u);
    var n := RankThrough(b, t);
    if Rank(b, u) < n {
      var k := b[Rank(b, u)].0;
      Transitive(k, t, u);
      TotalOrder(k, u);
    }
    Shifted(b, d, u);
  }

  /** A later key does not change how many keys there are up to t. */
  lemma PutLater<V>(b: Entries<V>, t: Timestamp, u: Timestamp, v: V)
    requires Sorted(b) && Lt(t, u) && RankThrough(b, t) <= Rank(b, u)
    ensures RankThrough(Put(b, u, v), t) == RankThrough(b, t)
  {
    PutSorted(b, u, v);
    ThroughSplits(b, t);
    RankThroughIs(Put(b, u, v), t, RankThrough(b, t));
  }

  lemma PutShifted<V>(a: Entries<V>, b: Entries<V>, d: nat, u: Timestamp, v: V)
    requires d <= Rank(b, u) && a == b[d..] && Rank(a, u) == Rank(b, u) - d && Has(a, u) == Has(b, u)
    ensures |Put(b, u, v)| >= d && Put(a, u, v) == Put(b, u, v)[d..]
  {
  }

  lemma TrimmedPut<V>(a: Entries<V>, b: Entries<V>, d: nat, t: Timestamp, h: nat, u: Timestamp, v: V)
    requires Trimmed(a, b, d, t, h) && Lt(t, u)
    ensures Trimmed(Put(a, u, v), Put(b, u, v), d, t, h) && Has(Put(b, u, v), u)
  {
    hide Rank, RankThrough, Has, Lt;
    TrimmedRank(a, b, d, t, h, u);
    PutSorted(b, u, v);
    PutLater(b, t, u, v);
    PutShifted(a, b, d, u, v);
  }

  lemma TrimmedEnsure<V>(a: Entries<V>, b: Entries<V>, d: nat, t: Timestamp, h: nat, u: Timestamp, v: V)
    requires Trimmed(a, b, d, t, h) && Lt(t, u)
    ensures Trimmed(Ensure(a, u, v), Ensure(b, u, v), d, t, h) && Has(Ensure(b, u, v), u)
  {
    TrimmedRank(a, b, d, t, h, u);
    TrimmedPut(a, b, d, t, h, u, v);
  }

  lemma RankThroughIs<V>(es: Entries<V>, t: Timestamp, n: nat)
    requires Sorted(es) && n <= |es|
    requires forall i :: 0 <= i < n ==> Le(es[i].0, t)
    requires n < |es| ==> Lt(t, es[n].0)
    ensures RankThrough(es, t) == n
  {
    ThroughSplits(es, t);
    var m := RankThrough(es, t);
    if m < n {
      TotalOrder(es[m].0, t);
    } else if n < m {
      TotalOrder(es[n].0, t);
    }
  }

  lemma TrimmedRecent<V>(a: Entries<V>, b: Entries<V>, d: nat, t: Timestamp, h: nat, now: Timestamp)
    requires Trimmed(a, b, d, t, h) && Lt(t, now) && Has(b, now)
    ensures Recent(a, now, h) == Recent(b, now, h) && Current(a, now) == Current(b, now)
  {
    hide Rank, Lt, Sorted, Reversed;
    TrimmedRank(a, b, d, t, h, now);
    if d == 0 {
      assert a == b;
    } else {
      var n := RankThrough(b, now);
      assert n - d > h;
      assert a[n - d - (h + 1)..n - d] == b[n - (h + 1)..n];
      assert Recent(b, now, h) == Reversed(b[n - (h + 1)..n]);
    }
  }

  /** Closing a later time makes the two histories equal, or collects nothing from either. */
  lemma TrimmedSplit<V>(a: Entries<V>, b: Entries<V>, d: nat, t: Timestamp, h: nat, u: Timestamp)
    requires Trimmed(a, b, d, t, h) && Lt(t, u)
    ensures match (SplitAt(a, h, u), SplitAt(b, h, u))
      case (Some(i), Some(j)) => i + d == j && a[i..] == b[j..] && a[i] == b[j]
      case (None, None) => true
      case _ => false
  {
    TrimmedRank(a, b, d, t, h, u);
  }

  // ---------------------------------------------------------------------------------------------
  // The two runs.

  /** a is b with the oldest d keys, up to t, collected. */
  ghost predicate Collected<S, T>(a: Versions<S, T>, b: Versions<S, T>, d: nat, t: Timestamp) {
    && a.currentTime == b.currentTime && a.historySize == b.historySize && a.context == b.context
    && Keyed(b)
    && Trimmed(a.states, b.states, d, t, b.historySize) && Trimmed(a.messages, b.messages, d, t, b.historySize)
  }

  ghost predicate Twins<S, T>(a: Versions<S, T>, b: Versions<S, T>, d: nat, t: Timestamp) {
    Collected(a, b, d, t) && Lt(t, b.currentTime) && (d > 0 ==> Has(b.states, b.currentTime))
  }

  lemma SetTimeTwins<S, T>(a: Versions<S, T>, b: Versions<S, T>, d: nat, t: Timestamp, u: Timestamp, default: S)
    requires Collected(a, b, d, t) && Lt(t, u)
    ensures Twins(SetCurrentTime(a, u, default), SetCurrentTime(b, u, default), d, t)
  {
    PerformKeyed(b, SetTime(u), default);
    TrimmedEnsure(a.states, b.states, d, t, b.historySize, u, default);
    TrimmedEnsure(a.messages, b.messages, d, t, b.historySize, u, []);
  }

  lemma CloseTwins<S, T>(a: Versions<S, T>, b: Versions<S, T>, d: nat, t: Timestamp, u: Timestamp) returns (e: nat)
    requires Twins(a, b, d, t) && Lt(t, u)
    ensures Twins(CloseTime(a, u).0, CloseTime(b, u).0, e, t) && CloseTime(a, u).1 == CloseTime(b, u).1
  {
    var h := b.historySize;
    TrimmedSplit(a.states, b.states, d, t, h, u);
    CloseKeyed(b, u);
    e := d;
    var j := SplitAt(b.states, h, u);
    if b.context.InWatermark? && j.Some? {
      e := 0;
      CloseSame(a, b, d, t, u, j.value);
      Untrimmed(CloseTime(b, u).0, t);
    }
  }

  lemma Untrimmed<S, T>(v: Versions<S, T>, t: Timestamp)
    requires Keyed(v)
    ensures Collected(v, v, 0, t)
  {
    assert v.states[0..] == v.states && v.messages[0..] == v.messages;
  }

  lemma RankOwn<V>(es: Entries<V>, i: int)
    requires Sorted(es) && 0 <= i < |es|
    ensures Rank(es, es[i].0) == i
  {
    HasExact(es, es[i].0);
  }

  lemma CloseSame<S, T>(a: Versions<S, T>, b: Versions<S, T>, d: nat, t: Timestamp, u: Timestamp, j: nat)
    requires Twins(a, b, d, t) && Lt(t, u) && b.context.InWatermark? && SplitAt(b.states, b.historySize, u) == Some(j)
    ensures CloseTime(a, u) == CloseTime(b, u)
  {
    hide Rank, Lt, Has, SplitAt;
    TrimmedSplit(a.states, b.states, d, t, b.historySize, u);
    TrimmedRank(a.states, b.states, d, t, b.historySize, u);
    TrimmedRank(a.messages, b.messages, d, t, b.historySize, u);
    var key := b.states[j].0;
    RankOwn(b.states, j);
    RankOwn(a.states, j - d);
    RankOwn(b.messages, j);
    RankOwn(a.messages, j - d);
    assert a.messages[j - d..] == b.messages[j..];
  }

  /** How many of b's keys the other run has lost, if `key` is the newest of them. */
  function Lost<V>(b: Entries<V>, key: Timestamp): nat { if Has(b, key) then Rank(b, key) + 1 else 0 }

  /** The two runs differ in the keys up to `key`, if b still has them. */
  ghost predicate Apart<S, T>(a: Versions<S, T>, b: Versions<S, T>, t: Timestamp, key: Timestamp) {
    Le(key, t) && Twins(a, b, Lost(b.states, key), t)
  }

  /** The operation looks up `key` in a watermark callback, just when h stored keys lie between it and the current time. */
  ghost predicate Reveals<S, T>(b: Versions<S, T>, op: Op<S, T>, key: Timestamp) {
    && (op == LookupState(key) || op == LookupMessages(key))
    && b.context.InWatermark? && Has(b.states, key) && Rank(b.states, b.currentTime) == Rank(b.states, key) + 1 + b.historySize
  }

  lemma NotBelow(e: Timestamp, k: Timestamp, u: Timestamp)
    requires Lt(e, k) && Lt(k, u)
    ensures !Le(u, e)
  {
    TotalOrder(e, k);
    BeforeLater(e, k, u);
    TotalOrder(e, u);
  }

  lemma LostKept<V>(es: Entries<V>, u: Timestamp, v: V, key: Timestamp)
    requires Sorted(es) && Lt(key, u)
    ensures Lost(Put(es, u, v), key) == Lost(es, key)
  {
    var n, m := Rank(es, key), Rank(es, u);
    PutSorted(es, u, v);
    RankSplits(es, key);
    RankSplits(es, u);
    TotalOrder(key, u);
    if m < n { NotBelow(es[m].0, key, u); }
    assert forall i :: 0 <= i < m ==> Put(es, u, v)[i] == es[i];
    RankIs(Put(es, u, v), key, n);
  }

  lemma SetTimeApart<S, T>(a: Versions<S, T>, b: Versions<S, T>, t: Timestamp, key: Timestamp, u: Timestamp, default: S)
    requires Apart(a, b, t, key) && Lt(t, u)
    ensures Apart(SetCurrentTime(a, u, default), SetCurrentTime(b, u, default), t, key)
  {
    hide Rank, Put, Has, Lost;
    SetTimeTwins(a, b, Lost(b.states, key), t, u, default);
    BeforeLater(key, t, u);
    LostKept(b.states, u, default, key);
  }

  lemma BeforeLater(k: Timestamp, t: Timestamp, u: Timestamp)
    requires Le(k, t) && Lt(t, u)
    ensures Lt(k, u)
  {
    Transitive(k, t, u);
    TotalOrder(t, u);
    TotalOrder(k, u);
    TotalOrder(k, t);
  }

  lemma CloseApart<S, T>(a: Versions<S, T>, b: Versions<S, T>, t: Timestamp, key: Timestamp, u: Timestamp)
    requires Apart(a, b, t, key) && Lt(t, u)
    ensures Apart(CloseTime(a, u).0, CloseTime(b, u).0, t, key) && CloseTime(a, u).1 == CloseTime(b, u).1
  {
    hide Rank, Lt, SplitAt, Trimmed;
    var d := Lost(b.states, key);
    var e := CloseTwins(a, b, d, t, u);
    SplitsTogether(a, b, d, t, u);
    var j := SplitAt(b.states, b.historySize, u);
    if b.context.InWatermark? && j.Some? {
      RankOwn(b.states, j.value);
      Forgotten(b.states, j.value, key);
      CloseSame(a, b, d, t, u, j.value);
      CloseKeyed(b, u);
      Untrimmed(CloseTime(b, u).0, t);
    }
  }

  lemma SplitsTogether<S, T>(a: Versions<S, T>, b: Versions<S, T>, d: nat, t: Timestamp, u: Timestamp)
    requires Twins(a, b, d, t) && Lt(t, u)
    ensures SplitAt(a.states, b.historySize, u).None? <==> SplitAt(b.states, b.historySize, u).None?
    ensures SplitAt(b.states, b.historySize, u).Some? ==> d <= SplitAt(b.states, b.historySize, u).value
  {
    TrimmedSplit(a.states, b.states, d, t, b.historySize, u);
  }

  lemma Forgotten<V>(es: Entries<V>, j: nat, key: Timestamp)
    requires Sorted(es) && Lost(es, key) <= j <= |es|
    ensures Lost(es[j..], key) == 0
  {
    HasExact(es[j..], key);
    HasExact(es, key);
    assert forall i :: 0 <= i < |es[j..]| ==> es[j..][i] == es[i + j];
  }

  /** One operation at a later time gives the same answer in both runs, unless it reveals the newest key that was lost. */
  lemma PerformApart<S, T>(a: Versions<S, T>, b: Versions<S, T>, t: Timestamp, key: Timestamp, op: Op<S, T>, default: S)
    requires Apart(a, b, t, key) && Later(op, t)
    ensures Perform(a, op, default).1 != Perform(b, op, default).1 <==> Reveals(b, op, key)
    ensures Apart(Perform(a, op, default).0, Perform(b, op, default).0, t, key)
  {
    hide Twins, Rank, Recent, Put, Has, Lt, Le, Keyed, SetCurrentTime, CloseTime, GetAt;
    var d := Lost(b.states, key);
    match op
    case SetTime(u) => SetTimeApart(a, b, t, key, u, default);
    case Close(u) => CloseApart(a, b, t, key, u);
    case LookupState(k) =>
      TwinsCollected(a, b, d, t);
      LookupApart(a, b, t, key, k);
    case LookupMessages(k) =>
      TwinsCollected(a, b, d, t);
      LookupApart(a, b, t, key, k);
    case _ =>
      UseApart(a, b, t, key, op, default);
  }

  lemma LookupApart<S, T>(a: Versions<S, T>, b: Versions<S, T>, t: Timestamp, key: Timestamp, k: Timestamp)
    requires Apart(a, b, t, key)
    ensures var h, now := b.historySize, b.currentTime;
      var shows := k == key && Has(b.states, key) && Rank(b.states, now) == Rank(b.states, key) + 1 + h;
      && (GetAt(a.states, now, h, k) != GetAt(b.states, now, h, k) <==> shows)
      && (GetAt(a.messages, now, h, k) != GetAt(b.messages, now, h, k) <==> shows)
  {
    hide Rank, Lt, Le, GetAt, Sorted;
    var d, h, now := Lost(b.states, key), b.historySize, b.currentTime;
    LookupObserves(a.states, b.states, d, t, h, now, k);
    LookupObserves(a.messages, b.messages, d, t, h, now, k);
    SameRank(b.messages, b.states, now);
  }

  lemma UseApart<S, T>(a: Versions<S, T>, b: Versions<S, T>, t: Timestamp, key: Timestamp, op: Op<S, T>, default: S)
    requires Apart(a, b, t, key) && !op.SetTime? && !op.Close? && !op.LookupState? && !op.LookupMessages?
    ensures Perform(a, op, default).1 == Perform(b, op, default).1
    ensures Apart(Perform(a, op, default).0, Perform(b, op, default).0, t, key)
  {
    hide Twins, Rank, Recent, Put, Has, Lt, Le, Keyed;
    var d := Lost(b.states, key);
    TwinsCollected(a, b, d, t);
    SameLost(b, op, t, key, default);
    hide Perform, Lost;
    if d == 0 {
      SameTwins(a, b, t, op, default);
    } else {
      PerformKeyed(b, op, default);
      UseTwins(a, b, d, t, op, default);
    }
  }

  lemma SameLost<S, T>(b: Versions<S, T>, op: Op<S, T>, t: Timestamp, key: Timestamp, default: S)
    requires Sorted(b.states) && Lt(t, b.currentTime) && Le(key, t) && !op.SetTime? && !op.Close?
    ensures Lost(Perform(b, op, default).0.states, key) == Lost(b.states, key)
  {
    hide Rank, Put, Has, Lost, Lt, Le;
    BeforeLater(key, t, b.currentTime);
    if op.WriteState? { LostKept(b.states, b.currentTime, op.state, key); }
  }

  lemma TwinsCollected<S, T>(a: Versions<S, T>, b: Versions<S, T>, d: nat, t: Timestamp)
    requires Twins(a, b, d, t)
    ensures Collected(a, b, d, t) && Keyed(b) && Sorted(b.states) && Lt(t, b.currentTime)
  {
  }

  /** Without a difference between the runs. */
  lemma SameTwins<S, T>(a: Versions<S, T>, b: Versions<S, T>, t: Timestamp, op: Op<S, T>, default: S)
    requires Twins(a, b, 0, t) && !op.SetTime? && !op.Close?
    ensures a == b && Twins(Perform(a, op, default).0, Perform(b, op, default).0, 0, t)
  {
    hide Rank, Recent, Put, Has, Lt, Keyed;
    assert a == b;
    PerformKeyed(b, op, default);
    Untrimmed(Perform(b, op, default).0, t);
  }

  lemma UseTwins<S, T>(a: Versions<S, T>, b: Versions<S, T>, d: nat, t: Timestamp, op: Op<S, T>, default: S)
    requires Twins(a, b, d, t) && d > 0 && !op.SetTime? && !op.Close? && !op.LookupState? && !op.LookupMessages?
    requires Keyed(Perform(b, op, default).0)
    ensures Perform(a, op, default).1 == Perform(b, op, default).1
    ensures Twins(Perform(a, op, default).0, Perform(b, op, default).0, d, t)
  {
    hide Rank, Lt, Put, Recent, Sorted;
    var h, now := b.historySize, b.currentTime;
    SameRank(b.messages, b.states, now);
    TrimmedRank(a.states, b.states, d, t, h, now);
    TrimmedRank(a.messages, b.messages, d, t, h, now);
    match op
    case AppendMessage(x) =>
      TrimmedPut(a.messages, b.messages, d, t, h, now, b.messages[Rank(b.messages, now)].1 + [x]);
    case WriteState(s) =>
      TrimmedPut(a.states, b.states, d, t, h, now, s);
    case _ =>
      TrimmedRecent(a.states, b.states, d, t, h, now);
      TrimmedRecent(a.messages, b.messages, d, t, h, now);
  }

  lemma {:induction false} AfterApart<S, T>(a: Versions<S, T>, b: Versions<S, T>, t: Timestamp, key: Timestamp,
                                            ops: seq<Op<S, T>>, default: S)
    requires Apart(a, b, t, key) && forall op <- ops :: Later(op, t)
    ensures Apart(After(a, ops, default), After(b, ops, default), t, key)
  {
    hide Apart, Perform, Later;
    if ops != [] {
      var init, last := ops[..|ops| - 1], ops[|ops| - 1];
      assert last in ops;
      AfterApart(a, b, t, key, init, default);
      PerformApart(After(a, init, default), After(b, init, default), t, key, last, default);
    }
  }

  lemma CloseCollects<S, T>(v: Versions<S, T>, t: Timestamp) returns (d: nat)
    requires Keyed(v)
    ensures Collected(CloseTime(v, t).0, v, d, t)
  {
    var h := v.historySize;
    var j := SplitAt(v.states, h, t);
    if v.context.InWatermark? && j.Some? {
      d := j.value;
      HasExact(v.states, v.states[d].0);
      SameRank(v.messages, v.states, v.states[d].0);
      SameRank(v.messages, v.states, t);
    } else {
      d := 0;
      Untrimmed(v, t);
    }
  }

  lemma TrimmedLookup<V>(a: Entries<V>, b: Entries<V>, d: nat, t: Timestamp, h: nat, k: Timestamp)
    requires Trimmed(a, b, d, t, h)
    ensures Lookup(a, k) == Lookup(b, k) || (Le(k, t) && Lookup(a, k) == None)
  {
    hide Rank, Lt, Le;
    Shifted(b, d, t);
    SuffixHas(b, d, k);
    if Has(b, k) {
      if Rank(b, k) < d {
        ThroughSplits(b, t);
      } else {
        RankOwn(a, Rank(b, k) - d);
      }
    }
  }

  /** A key is in a suffix exactly when it is stored there. */
  lemma SuffixHas<V>(es: Entries<V>, d: nat, k: Timestamp)
    requires d <= |es| && Sorted(es) && Sorted(es[d..])
    ensures Has(es[d..], k) <==> Has(es, k) && Rank(es, k) >= d
  {
    var a := es[d..];
    HasExact(a, k);
    HasExact(es, k);
    assert forall i :: 0 <= i < |a| ==> a[i] == es[i + d];
    if Has(es, k) && Rank(es, k) >= d { assert a[Rank(es, k) - d].0 == k; }
  }

  /** Closing time t touches no entry later than t, invents none, and changes no value. */
  lemma CloseExact<S, T>(v: Versions<S, T>, t: Timestamp, k: Timestamp)
    requires Keyed(v)
    ensures var w := CloseTime(v, t).0;
      && (Lookup(w.states, k) == Lookup(v.states, k) || (Le(k, t) && Lookup(w.states, k) == None))
      && (Lookup(w.messages, k) == Lookup(v.messages, k) || (Le(k, t) && Lookup(w.messages, k) == None))
  {
    var d := CloseCollects(v, t);
    TrimmedLookup(CloseTime(v, t).0.states, v.states, d, t, v.historySize, k);
    TrimmedLookup(CloseTime(v, t).0.messages, v.messages, d, t, v.historySize, k);
  }

  /** The newest key that closing t drops, if it drops any. */
  function NewestDropped<S, T>(v: Versions<S, T>, t: Timestamp): Option<Timestamp> {
    var d := |v.states| - |CloseTime(v, t).0.states|;
    if 0 < d <= |v.states| then Some(v.states[d - 1].0) else None
  }

  lemma DroppedApart<S, T>(v: Versions<S, T>, t: Timestamp, u: Timestamp, default: S)
    requires Keyed(v) && Lt(t, u)
    ensures var key := NewestDropped(v, t);
      var a, b := SetCurrentTime(CloseTime(v, t).0, u, default), SetCurrentTime(v, u, default);
      if key.Some? then Apart(a, b, t, key.value) else a == b
  {
    hide Rank, RankThrough, Has, Put, Lt, Le, Sorted, SetCurrentTime;
    var d := CloseCollects(v, t);
    var w := CloseTime(v, t).0;
    CloseKeeps0(v, t, w, d);
    hide CloseTime, Trimmed;
    if d > 0 {
      var key := v.states[d - 1].0;
      SetTimeTwins(w, v, d, t, u, default);
      KeyLost(v.states, d, t, u, default);
      StatesAt(v, u, default);
    }
  }

  lemma CloseKeeps0<S, T>(v: Versions<S, T>, t: Timestamp, w: Versions<S, T>, d: nat)
    requires w == CloseTime(v, t).0 && Collected(w, v, d, t)
    ensures d <= |v.states| && |w.states| == |v.states| - d && (d == 0 ==> w == v)
    ensures d > 0 ==> Sorted(v.states) && d <= RankThrough(v.states, t)
  {
    hide SplitAt, RankThrough;
    assert w.states == v.states[d..] && w.messages == v.messages[d..];
  }

  lemma StatesAt<S, T>(v: Versions<S, T>, u: Timestamp, default: S)
    ensures SetCurrentTime(v, u, default).states == Ensure(v.states, u, default)
  {
  }

  lemma KeyLost<V>(es: Entries<V>, d: nat, t: Timestamp, u: Timestamp, v: V)
    requires Sorted(es) && 0 < d <= RankThrough(es, t) && Lt(t, u)
    ensures Le(es[d - 1].0, t) && Lost(Ensure(es, u, v), es[d - 1].0) == d
  {
    hide Rank, Put, Lt, Le;
    var key := es[d - 1].0;
    UpTo(es, d, t);
    RankOwn(es, d - 1);
    BeforeLater(key, t, u);
    LostKept(es, u, v, key);
  }

  lemma UpTo<V>(es: Entries<V>, d: nat, t: Timestamp)
    requires Sorted(es) && 0 < d <= RankThrough(es, t)
    ensures Le(es[d - 1].0, t) && Has(es, es[d - 1].0)
  {
    ThroughSplits(es, t);
    HasExact(es, es[d - 1].0);
  }

  /** Exactly what shows of a time having been closed: of any sequence of operations at later times, the answers that
      differ are those of lookups of the newest key that was dropped, in a watermark callback, while it would still be
      there and exactly h stored keys lie between it and the current time. */
  lemma CloseObserved<S, T>(v: Versions<S, T>, t: Timestamp, u: Timestamp, ops: seq<Op<S, T>>, default: S, i: int)
    requires Keyed(v) && Lt(t, u) && (forall op <- ops :: Later(op, t)) && 0 <= i < |ops|
    ensures var a, b := SetCurrentTime(CloseTime(v, t).0, u, default), SetCurrentTime(v, u, default);
      AnswerAt(a, ops, i, default) != AnswerAt(b, ops, i, default) <==>
        var key := NewestDropped(v, t); key.Some? && Reveals(After(b, ops[..i], default), ops[i], key.value)
  {
    hide Apart, Perform, Later, Reveals, CloseTime, SetCurrentTime, NewestDropped, Keyed, Lt;
    DroppedApart(v, t, u, default);
    var key := NewestDropped(v, t);
    var a, b := SetCurrentTime(CloseTime(v, t).0, u, default), SetCurrentTime(v, u, default);
    assert ops[i] in ops;
    if key.Some? {
      AfterApart(a, b, t, key.value, ops[..i], default);
      PerformApart(After(a, ops[..i], default), After(b, ops[..i], default), t, key.value, ops[i], default);
    }
  }

  /** So without lookups nothing shows, for every history size. */
  lemma CloseUnobservable<S, T>(v: Versions<S, T>, t: Timestamp, u: Timestamp, ops: seq<Op<S, T>>, default: S, i: int)
    requires Keyed(v) && Lt(t, u) && (forall op <- ops :: Later(op, t)) && 0 <= i < |ops|
    requires !ops[i].LookupState? && !ops[i].LookupMessages?
    ensures AnswerAt(SetCurrentTime(CloseTime(v, t).0, u, default), ops, i, default)
      == AnswerAt(SetCurrentTime(v, u, default), ops, i, default)
  {
    hide Perform, Later, CloseTime, SetCurrentTime, Keyed;
    CloseObserved(v, t, u, ops, default, i);
  }

  /** Lookup by time reaches one key further back than iteration, and that key is where collection shows: the two runs
      differ exactly on the newest collected key, and exactly while h stored keys lie between it and the current time. */
  lemma LookupObserves<V>(a: Entries<V>, b: Entries<V>, d: nat, t: Timestamp, h: nat, now: Timestamp, k: Timestamp)
    requires Trimmed(a, b, d, t, h) && Lt(t, now)
    ensures GetAt(a, now, h, k) != GetAt(b, now, h, k) <==> d > 0 && k == b[d - 1].0 && Rank(b, now) == d + h
  {
    hide GetAt;
    TrimmedRank(a, b, d, t, h, now);
    WindowExact(a, now, h, k);
    WindowExact(b, now, h, k);
    HasExact(b, k);
    HasExact(a, k);
    if Has(b, k) {
      var i := Rank(b, k);
      if i >= d {
        assert a[i - d] == b[i];
      } else {
        CollectedKey(a, b, d, t, h, now, i);
      }
    } else {
      assert forall j :: 0 <= j < |a| ==> a[j] == b[j + d];
    }
  }

  lemma CollectedKey<V>(a: Entries<V>, b: Entries<V>, d: nat, t: Timestamp, h: nat, now: Timestamp, i: nat)
    requires Trimmed(a, b, d, t, h) && Lt(t, now) && i < d
    ensures !Has(a, b[i].0) && Le(b[i].0, now) && Rank(b, now) - i >= h + 1
    ensures forall j :: 0 <= j < |b| && b[j].0 == b[i].0 ==> j == i
  {
    TrimmedRank(a, b, d, t, h, now);
    HasExact(b, b[i].0);
    HasExact(a, b[i].0);
    ThroughSplits(b, t);
    Transitive(b[i].0, t, now);
    assert forall j :: 0 <= j < |a| ==> a[j] == b[j + d];
  }

  /** Closing time t while at time t or later keeps the current entry exactly when the history is not empty-sized, the
      current time is after t, or nothing newer is stored. */
  lemma CurrentKept<S, T>(v: Versions<S, T>, t: Timestamp)
    requires Keyed(v) && v.context.InWatermark? && Has(v.states, v.currentTime) && Le(t, v.currentTime)
    ensures Has(CloseTime(v, t).0.states, v.currentTime) <==>
      v.historySize > 0 || Lt(t, v.currentTime) || Rank(v.states, v.currentTime) + 1 == |v.states|
  {
    var es, now, h := v.states, v.currentTime, v.historySize;
    var n, r := RankThrough(es, t), Rank(es, now);
    ThroughSplits(es, t);
    HasExact(es, now);
    TotalOrder(t, now);
    assert r >= n || (now == t && r == n - 1);
    var j := SplitAt(es, h, t);
    if j.Some? {
      HasExact(es, es[j.value].0);
      if j.value <= r {
        Shifted(es, j.value, now);
      } else {
        DroppedKey(es, j.value, r);
      }
    }
  }

  lemma DroppedKey<V>(es: Entries<V>, d: nat, r: nat)
    requires Sorted(es) && r < d <= |es|
    ensures !Has(es[d..], es[r].0)
  {
    var a := es[d..];
    HasExact(a, es[r].0);
    HasExact(es, es[r].0);
    assert forall j :: 0 <= j < |a| ==> a[j] == es[j + d];
  }

  // ---------------------------------------------------------------------------------------------
  // Every reachable state.

  lemma InitialKeyed<S, T>(v: Versions<S, T>, s: S)
    requires Keyed(v)
    ensures Keyed(SetInitialState(v, s).0)
  {
    PutSameKeys(v.messages, v.states, Bottom(), [], s);
  }

  /** Whatever is done with a new state, message and state history keep the same keys. */
  lemma {:induction false} AlwaysKeyed<S, T>(historySize: nat, initial: Option<S>, ops: seq<Op<S, T>>, default: S)
    ensures var v: Versions<S, T> := Fresh(historySize);
      Keyed(After(if initial.Some? then SetInitialState(v, initial.value).0 else v, ops, default))
  {
    if ops == [] {
      if initial.Some? { InitialKeyed<S, T>(Fresh(historySize), initial.value); }
    } else {
      AlwaysKeyed(historySize, initial, ops[..|ops| - 1], default);
      var v: Versions<S, T> := Fresh(historySize);
      PerformKeyed(After(if initial.Some? then SetInitialState(v, initial.value).0 else v, ops[..|ops| - 1], default),
                   ops[|ops| - 1], default);
    }
  }

  /** A history size of one: keys x and y, y closed, and x looked up at z. */
  lemma LookupShows<S, T>(x: Timestamp, y: Timestamp, z: Timestamp, default: S)
    requires Lt(x, y) && Lt(y, z)
    ensures var v := After(Fresh<S, T>(1), [SetTime(x), SetTime(y), SetContext(InWatermark)], default);
      && Perform(SetCurrentTime(CloseTime(v, y).0, z, default), LookupState(x), default).1 == FoundState(Ok(None))
      && Perform(SetCurrentTime(v, z, default), LookupState(x), default).1 == FoundState(Ok(Some(default)))
  {
    hide GetAt, After, Lt, Le;
    var v: Versions<S, T> := Versions(y, 1, InWatermark, [(x, []), (y, [])], [(x, default), (y, default)]);
    TwoTimes<S, T>(x, y, default);
    TwoRanks(v.states, x, y, z);
    TwoRanks(v.messages, x, y, z);
    var w := v.(messages := [(y, [])], states := [(y, default)]);
    assert CloseTime(v, y).0 == w;
    OneRank(w.states, y, z);
    var b, a := [(x, default), (y, default), (z, default)], [(y, default), (z, default)];
    assert SetCurrentTime(v, z, default).states == b && SetCurrentTime(w, z, default).states == a;
    ThreeFound(x, y, z, default);
  }

  lemma ThreeFound<V>(x: Timestamp, y: Timestamp, z: Timestamp, v: V)
    requires Lt(x, y) && Lt(y, z)
    ensures GetAt([(x, v), (y, v), (z, v)], z, 1, x) == Some(v) && GetAt([(y, v), (z, v)], z, 1, x) == None
  {
    hide GetAt;
    var b, a := [(x, v), (y, v), (z, v)], [(y, v), (z, v)];
    TotalOrder(x, x);
    TotalOrder(z, z);
    TotalOrder(x, y);
    TotalOrder(y, z);
    BeforeLater(x, y, z);
    TotalOrder(x, z);
    RankIs(b, z, 2);
    RankIs(b, x, 0);
    RankIs(a, x, 0);
    WindowExact(b, z, 1, x);
    WindowExact(a, z, 1, x);
  }

  lemma TwoRanks<V>(es: Entries<V>, x: Timestamp, y: Timestamp, z: Timestamp)
    requires |es| == 2 && es[0].0 == x && es[1].0 == y && Lt(x, y) && Lt(y, z)
    ensures Rank(es, x) == 0 && Rank(es, y) == 1 && Rank(es, z) == 2
  {
    TotalOrder(x, x);
    TotalOrder(x, y);
    TotalOrder(y, y);
    TotalOrder(y, z);
    BeforeLater(x, y, z);
    RankIs(es, x, 0);
    RankIs(es, y, 1);
    RankIs(es, z, 2);
  }

  lemma OneRank<V>(es: Entries<V>, y: Timestamp, z: Timestamp)
    requires |es| == 1 && es[0].0 == y && Lt(y, z)
    ensures Rank(es, y) == 0 && Rank(es, z) == 1
  {
    TotalOrder(y, y);
    RankIs(es, y, 0);
    RankIs(es, z, 1);
  }

  lemma PutFirst<V>(x: Timestamp, v: V)
    ensures Ensure([], x, v) == [(x, v)]
  {
  }

  lemma TwoTimes<S, T>(x: Timestamp, y: Timestamp, default: S)
    requires Lt(x, y)
    ensures After(Fresh<S, T>(1), [SetTime(x), SetTime(y), SetContext(InWatermark)], default)
      == Versions(y, 1, InWatermark, [(x, []), (y, [])], [(x, default), (y, default)])
  {
    var start: Versions<S, T> := Fresh(1);
    PutFirst<seq<T>>(x, []);
    PutFirst(x, default);
    var v1 := SetCurrentTime(start, x, default);
    assert v1 == Versions(x, 1, InOperator, [(x, [])], [(x, default)]);
    OneRank(v1.states, x, y);
    OneRank(v1.messages, x, y);
    var a, b: seq<Op<S, T>> := [SetTime(x)], [SetTime(x), SetTime(y)];
    AfterOne(start, [], SetTime(x), default);
    assert [] + [SetTime(x)] == a;
    AfterOne(start, a, SetTime(y), default);
    assert a + [SetTime(y)] == b;
    AfterOne(start, b, SetContext(InWatermark), default);
    assert b + [SetContext(InWatermark)] == [SetTime(x), SetTime(y), SetContext(InWatermark)];
  }

  lemma AfterOne<S, T>(v: Versions<S, T>, ops: seq<Op<S, T>>, op: Op<S, T>, default: S)
    ensures After(v, ops + [op], default) == Perform(After(v, ops, default), op, default).0
  {
    assert (ops + [op])[..|ops + [op]| - 1] == ops;
  }

  // ---------------------------------------------------------------------------------------------
  // What is stored, from the operations alone.

  /** The state stored for time k: what was last written at that time, or the default it was set up with. */
  function StoredState<S, T>(v: Versions<S, T>, ops: seq<Op<S, T>>, k: Timestamp, default: S): Option<S> {
    if ops == [] then Lookup(v.states, k)
    else
      var init, last := ops[..|ops| - 1], ops[|ops| - 1];
      var before, was := After(v, init, default), StoredState(v, init, k, default);
      match last
      case SetTime(t) => if was.None? && t == k then Some(default) else was
      case WriteState(s) => if was.Some? && before.currentTime == k && before.context.InWatermark? then Some(s) else was
      case Close(t) => if Has(CloseTime(before, t).0.states, k) then was else None
      case _ => was
  }

  /** The messages stored for time k: those appended at that time by message callbacks, in order. */
  function StoredMessages<S, T>(v: Versions<S, T>, ops: seq<Op<S, T>>, k: Timestamp, default: S): Option<seq<T>> {
    if ops == [] then Lookup(v.messages, k)
    else
      var init, last := ops[..|ops| - 1], ops[|ops| - 1];
      var before, was := After(v, init, default), StoredMessages(v, init, k, default);
      match last
      case SetTime(t) => if was.None? && t == k then Some([]) else was
      case AppendMessage(x) => if was.Some? && before.currentTime == k && before.context.InCallback? then Some(was.value + [x]) else was
      case Close(t) => if Has(CloseTime(before, t).0.messages, k) then was else None
      case _ => was
  }

  lemma {:induction false} AfterKeyed<S, T>(v: Versions<S, T>, ops: seq<Op<S, T>>, default: S)
    requires Keyed(v)
    ensures Keyed(After(v, ops, default))
  {
    hide Keyed, Perform;
    if ops != [] {
      AfterKeyed(v, ops[..|ops| - 1], default);
      PerformKeyed(After(v, ops[..|ops| - 1], default), ops[|ops| - 1], default);
    }
  }

  lemma SuffixLookup<V>(es: Entries<V>, d: nat, k: Timestamp)
    requires Sorted(es) && d <= |es|
    ensures Lookup(es[d..], k) == if Has(es[d..], k) then Lookup(es, k) else None
  {
    HasExact(es[d..], k);
    HasExact(es, k);
    assert forall i :: 0 <= i < |es[d..]| ==> es[d..][i] == es[i + d];
  }

  lemma PerformStored<S, T>(v: Versions<S, T>, op: Op<S, T>, k: Timestamp, default: S)
    requires Keyed(v)
    ensures var w := Perform(v, op, default).0;
      && Lookup(w.states, k) == (
        match op
        case SetTime(t) => if Lookup(v.states, k).None? && t == k then Some(default) else Lookup(v.states, k)
        case WriteState(s) =>
          if Lookup(v.states, k).Some? && v.currentTime == k && v.context.InWatermark? then Some(s) else Lookup(v.states, k)
        case Close(t) => if Has(CloseTime(v, t).0.states, k) then Lookup(v.states, k) else None
        case _ => Lookup(v.states, k))
      && Lookup(w.messages, k) == (
        match op
        case SetTime(t) => if Lookup(v.messages, k).None? && t == k then Some([]) else Lookup(v.messages, k)
        case AppendMessage(x) =>
          if Lookup(v.messages, k).Some? && v.currentTime == k && v.context.InCallback?
          then Some(Lookup(v.messages, k).value + [x]) else Lookup(v.messages, k)
        case Close(t) => if Has(CloseTime(v, t).0.messages, k) then Lookup(v.messages, k) else None
        case _ => Lookup(v.messages, k))
  {
    hide Rank, Lt, Put, Sorted, Has, SetCurrentTime, Append, SetCurrentState, CloseTime;
    match op
    case SetTime(t) => SetTimeExact(v, t, default, k);
    case WriteState(s) => WriteExact(v, s, k);
    case AppendMessage(x) => AppendExact(v, x, k);
    case Close(t) =>
      CloseKeyed(v, t);
      var d :| 0 <= d <= |v.states| && CloseTime(v, t).0.states == v.states[d..] && CloseTime(v, t).0.messages == v.messages[d..];
      SuffixLookup(v.states, d, k);
      SuffixLookup(v.messages, d, k);
    case _ =>
  }

  /** After any sequence of operations every history entry holds what the operations put there. */
  lemma {:induction false} HistoriesHold<S, T>(v: Versions<S, T>, ops: seq<Op<S, T>>, k: Timestamp, default: S)
    requires Keyed(v)
    ensures Lookup(After(v, ops, default).states, k) == StoredState(v, ops, k, default)
    ensures Lookup(After(v, ops, default).messages, k) == StoredMessages(v, ops, k, default)
  {
    hide Perform, Keyed, Lookup, CloseTime, Has;
    if ops != [] {
      var init, last := ops[..|ops| - 1], ops[|ops| - 1];
      HistoriesHold(v, init, k, default);
      AfterKeyed(v, init, default);
      PerformStored(After(v, init, default), last, k, default);
    }
  }

  /** What the reading operations answer, in terms of what is stored: only watermark callbacks may read, and what is not
      stored for the current time makes them panic. */
  lemma ReadExact<S, T>(v: Versions<S, T>, op: Op<S, T>, default: S)
    requires op.CurrentState? || op.CurrentMessages? || op.LookupState? || op.LookupMessages? || op.IterStates? || op.IterMessages?
    ensures Perform(v, op, default).0 == v
    ensures var a, watching := Perform(v, op, default).1, v.context.InWatermark?;
      match op
      case CurrentState => a == AState(match (watching, Lookup(v.states, v.currentTime))
        case (false, _) => Denied case (true, None) => Panicked case (true, Some(s)) => Ok(s))
      case CurrentMessages => a == SomeMessages(match (watching, Lookup(v.messages, v.currentTime))
        case (false, _) => Denied case (true, None) => Panicked case (true, Some(l)) => Ok(l))
      case LookupState(k) => a.FoundState? && (a.found.Ok? <==> watching) && !a.found.Panicked?
      case LookupMessages(k) => a.FoundMessages? && (a.list.Ok? <==> watching) && !a.list.Panicked?
      case IterStates => a.States? && (a.states.Ok? <==> watching) && !a.states.Panicked?
      case IterMessages => a.Histories? && (a.histories.Ok? <==> watching) && !a.histories.Panicked?
      case _ => true
  {
  }

  /** Time and context are what they were last set to, and the history size never changes. */
  lemma ClockAndContext<S, T>(v: Versions<S, T>, op: Op<S, T>, default: S)
    ensures var w := Perform(v, op, default).0;
      && w.currentTime == (if op.SetTime? then op.time else v.currentTime)
      && w.context == (if op.SetContext? then op.context else v.context)
      && w.historySize == v.historySize
  {
    hide Put, Has, Rank;
  }

  /** A new state is empty, at bottom, and open to `Operator::new` only. */
  lemma FreshState<S, T>(h: nat, s: S, x: T, default: S, k: Timestamp)
    ensures var v: Versions<S, T> := Fresh(h);
      && Lookup(v.states, k) == None && Lookup(v.messages, k) == None && v.currentTime == Bottom() && v.historySize == h
      && SetInitialState(v, s).1 == Ok(()) && Perform(v, AppendMessage(x), default).1 == Done(Denied)
      && Perform(v, WriteState(s), default).1 == Done(Denied) && Perform(v, CurrentState, default).1 == AState(Denied)
  {
  }
}
