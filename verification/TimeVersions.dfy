/** Time-versioned state on values: its operations, its history window and its garbage collection. */
module TimeVersions {
  import opened Timestamps
  import opened Basics
  import opened SortedEntries

  datatype Context = InOperator | InCallback | InWatermark

  /** A rejected access is `Denied`; `Panicked` is an internal `expect` that fails. */
  datatype Reply<X> = Ok(value: X) | Denied | Panicked

  datatype Versions<S, T> = Versions(
    currentTime: Timestamp,
    historySize: nat,
    context: Context,
    messages: Entries<seq<T>>,
    states: Entries<S>
  )

  function Fresh<S, T>(historySize: nat): Versions<S, T> {
    Versions(Bottom(), historySize, InOperator, [], [])
  }

  // ---------------------------------------------------------------------------------------------
  // Operations.

  function Ensure<V>(es: Entries<V>, t: Timestamp, v: V): Entries<V> {
    if Has(es, t) then es else Put(es, t, v)
  }

  function SetCurrentTime<S, T>(v: Versions<S, T>, t: Timestamp, default: S): Versions<S, T> {
    v.(currentTime := t, messages := Ensure(v.messages, t, []), states := Ensure(v.states, t, default))
  }

  function SetInitialState<S, T>(v: Versions<S, T>, s: S): (Versions<S, T>, Reply<()>) {
    if v.context.InOperator?
    then (v.(messages := Put(v.messages, Bottom(), []), states := Put(v.states, Bottom(), s)), Ok(()))
    else (v, Denied)
  }

  function Append<S, T>(v: Versions<S, T>, x: T): (Versions<S, T>, Reply<()>) {
    if !v.context.InCallback? then (v, Denied)
    else if !Has(v.messages, v.currentTime) then (v, Panicked)
    else
      var list := v.messages[Rank(v.messages, v.currentTime)].1;
      (v.(messages := Put(v.messages, v.currentTime, list + [x])), Ok(()))
  }

  /** Writing through `get_current_state_mut`. */
  function SetCurrentState<S, T>(v: Versions<S, T>, s: S): (Versions<S, T>, Reply<()>) {
    if !v.context.InWatermark? then (v, Denied)
    else if !Has(v.states, v.currentTime) then (v, Panicked)
    else (v.(states := Put(v.states, v.currentTime, s)), Ok(()))
  }

  /** Where `close_time` splits the histories. */
  function SplitAt<V>(es: Entries<V>, h: nat, t: Timestamp): (r: Option<nat>)
    ensures r.Some? ==> r.value < |es|
  {
    var n := RankThrough(es, t);
    if h == 0 then (if n < |es| then Some(n) else None)
    else if n >= h then Some(n - h) else None
  }

  function CloseTime<S, T>(v: Versions<S, T>, t: Timestamp): (Versions<S, T>, Reply<()>) {
    if !v.context.InWatermark? then (v, Denied)
    else
      match SplitAt(v.states, v.historySize, t)
      case None => (v, Ok(()))
      case Some(i) =>
        var key := v.states[i].0;
        (v.(messages := From(v.messages, key), states := From(v.states, key)), Ok(()))
  }

  function Lookup<V>(es: Entries<V>, t: Timestamp): Option<V> {
    if Has(es, t) then Some(es[Rank(es, t)].1) else None
  }

  /** `get_state` and `get_messages` on one history. */
  function GetAt<V>(es: Entries<V>, now: Timestamp, h: nat, t: Timestamp): Option<V> {
    if !Le(t, now) then None
    else
      var hi := Rank(es, now);
      if hi - Rank(es, t) > h then
        if Le(es[hi - 1 - h].0, t) then Lookup(es, t) else None
      else Lookup(es, t)
  }

  function Reversed<X>(s: seq<X>): seq<X> { seq(|s|, i requires 0 <= i < |s| => s[|s| - 1 - i]) }

  /** `iter_states` and `iter_messages` on one history: newest first. */
  function Recent<V>(es: Entries<V>, now: Timestamp, h: nat): Entries<V> {
    var n := RankThrough(es, now);
    Reversed(es[if n > h then n - (h + 1) else 0..n])
  }

  // ---------------------------------------------------------------------------------------------
  // The history window.

  /** A value is found exactly at a stored key with at most h + 1 stored keys between it and the current time. */
  lemma WindowExact<V>(es: Entries<V>, now: Timestamp, h: nat, t: Timestamp)
    requires Sorted(es)
    ensures GetAt(es, now, h, t) ==
      if Has(es, t) && Le(t, now) && Rank(es, now) - Rank(es, t) <= h + 1 then Lookup(es, t) else None
  {
    RankSplits(es, now);
    RankSplits(es, t);
    var lo, hi := Rank(es, t), Rank(es, now);
    if Le(t, now) && hi - lo > h {
      var k := hi - 1 - h;
      TotalOrder(es[k].0, t);
      HasExact(es, t);
      if Has(es, t) { TotalOrder(t, t); }
    }
  }

  /** Iteration yields the newest h + 1 keys up to the current time. */
  lemma RecentExact<V>(es: Entries<V>, now: Timestamp, h: nat, i: int)
    requires Sorted(es) && 0 <= i < |es|
    ensures es[i] in Recent(es, now, h) <==> i < RankThrough(es, now) <= i + h + 1
  {
    var n, r := RankThrough(es, now), Recent(es, now, h);
    var lo := if n > h then n - (h + 1) else 0;
    assert forall k :: 0 <= k < n - lo ==> r[k] == es[n - 1 - k];
    if lo <= i < n {
      assert r[n - 1 - i] == es[i];
    }
    forall k | 0 <= k < n - lo && r[k] == es[i] ensures n - 1 - k == i { SameEntry(es, n - 1 - k, i); }
  }

  /** Newest first. */
  lemma RecentNewestFirst<V>(es: Entries<V>, now: Timestamp, h: nat)
    requires Sorted(es)
    ensures var r := Recent(es, now, h); forall i, j :: 0 <= i < j < |r| ==> Lt(r[j].0, r[i].0)
  {
    var n, r := RankThrough(es, now), Recent(es, now, h);
    assert forall k :: 0 <= k < |r| ==> r[k] == es[n - 1 - k];
  }

  lemma SameEntry<V>(es: Entries<V>, i: int, j: int)
    requires Sorted(es) && 0 <= i < |es| && 0 <= j < |es| && es[i].0 == es[j].0
    ensures i == j
  {
    TotalOrder(es[i].0, es[j].0);
  }

  /** Iteration yields only what lookup yields; lookup reaches one key further back. */
  lemma RecentInWindow<V>(es: Entries<V>, now: Timestamp, h: nat, i: int)
    requires Sorted(es) && 0 <= i < |es|
    ensures es[i] in Recent(es, now, h) ==> GetAt(es, now, h, es[i].0) == Some(es[i].1)
    ensures Has(es, now) && GetAt(es, now, h, es[i].0).Some? ==>
      es[i] in Recent(es, now, h) || Rank(es, now) - i == h + 1
  {
    hide Recent, GetAt;
    HasExact(es, es[i].0);
    WindowExact(es, now, h, es[i].0);
    RecentExact(es, now, h, i);
    ThroughSplits(es, now);
    TotalOrder(es[i].0, now);
  }

  /** Closing time t leaves every key after t and the min(h, count) newest ones up to t; only with a history size of 0 and
      nothing after t does it leave everything. */
  lemma CloseKeeps<S, T>(v: Versions<S, T>, t: Timestamp)
    requires Sorted(v.states) && v.context.InWatermark?
    ensures var n, kept, h := RankThrough(v.states, t), CloseTime(v, t).0.states, v.historySize;
      var k := if n < h || (h == 0 && n == |v.states|) then n else h;
      kept == v.states[n - k..] && RankThrough(kept, t) == k
  {
    var es, h := v.states, v.historySize;
    var n := RankThrough(es, t);
    if n >= h && (h > 0 || n < |es|) {
      HasExact(es, es[n - h].0);
      Shifted(es, n - h, t);
    }
  }

  /** Ranks after the first d entries are dropped. */
  lemma Shifted<V>(es: Entries<V>, d: nat, t: Timestamp)
    requires Sorted(es) && d <= RankThrough(es, t)
    ensures Sorted(es[d..]) && RankThrough(es[d..], t) == RankThrough(es, t) - d
    ensures d <= Rank(es, t) ==> Rank(es[d..], t) == Rank(es, t) - d && Has(es[d..], t) == Has(es, t)
  {
    var a := es[d..];
    RankSplits(es, t);
    TotalOrder(t, t);
    if d <= Rank(es, t) {
      RankIs(a, t, Rank(es, t) - d);
    } else {
      assert a == [] || Lt(t, a[0].0) by {
        if a != [] { HasExact(es, t); assert Lt(es[d - 1].0, es[d].0); }
      }
      if a != [] { TotalOrder(t, a[0].0); }
      RankIs(a, t, 0);
    }
  }

  // ---------------------------------------------------------------------------------------------
  // What each operation does to every entry.

  /** Where the entries of `Put` come from. */
  function Origin<V>(es: Entries<V>, t: Timestamp, i: int): int {
    if Has(es, t) || i < Rank(es, t) then i else i - 1
  }

  lemma PutEntries<V>(es: Entries<V>, t: Timestamp, v: V)
    ensures var r, n := Put(es, t, v), Rank(es, t);
      && n < |r| && r[n] == (t, v) && |r| == |es| + (if Has(es, t) then 0 else 1)
      && forall i :: 0 <= i < |r| && i != n ==> 0 <= Origin(es, t, i) < |es| && r[i] == es[Origin(es, t, i)]
  {
  }

  lemma LookupPut<V>(es: Entries<V>, t: Timestamp, v: V, k: Timestamp)
    requires Sorted(es)
    ensures Lookup(Put(es, t, v), k) == if k == t then Some(v) else Lookup(es, k)
  {
    hide Put, Sorted, Rank;
    PutSorted(es, t, v);
    PutEntries(es, t, v);
    if k != t { LookupOther(es, Put(es, t, v), t, v, k); }
  }

  lemma LookupOther<V>(es: Entries<V>, r: Entries<V>, t: Timestamp, v: V, k: Timestamp)
    requires Sorted(es) && Sorted(r) && k != t
    requires var n := Rank(es, t);
      && n < |r| && r[n] == (t, v) && |r| == |es| + (if Has(es, t) then 0 else 1)
      && forall i :: 0 <= i < |r| && i != n ==> 0 <= Origin(es, t, i) < |es| && r[i] == es[Origin(es, t, i)]
    ensures Lookup(r, k) == Lookup(es, k)
  {
    HasExact(r, k);
    HasExact(es, k);
    if Has(es, k) {
      var i := Rank(es, k);
      var j := if Has(es, t) || i < Rank(es, t) then i else i + 1;
      assert Origin(es, t, j) == i && r[j] == es[i];
    }
  }

  /** Setting the time adds empty entries for it if there are none, and changes nothing else. */
  lemma SetTimeExact<S, T>(v: Versions<S, T>, t: Timestamp, default: S, k: Timestamp)
    requires Sorted(v.messages) && Sorted(v.states)
    ensures var w := SetCurrentTime(v, t, default);
      && w.currentTime == t && w.context == v.context && w.historySize == v.historySize
      && Lookup(w.states, k) == (if k == t && !Has(v.states, t) then Some(default) else Lookup(v.states, k))
      && Lookup(w.messages, k) == (if k == t && !Has(v.messages, t) then Some([]) else Lookup(v.messages, k))
  {
    LookupPut(v.states, t, default, k);
    LookupPut(v.messages, t, [], k);
  }

  /** The reply to an operation that only one context allows and that needs an entry for the current time. */
  function Admitted(allowed: bool, stored: bool): Reply<()> { if !allowed then Denied else if stored then Ok(()) else Panicked }

  /** Appending, from a message callback only, extends the current list by one message, at the end, and changes nothing
      else. */
  lemma AppendExact<S, T>(v: Versions<S, T>, x: T, k: Timestamp)
    requires Sorted(v.messages)
    ensures var (w, r) := Append(v, x);
      && r == Admitted(v.context.InCallback?, Has(v.messages, v.currentTime))
      && w == v.(messages := w.messages) && (!r.Ok? ==> w == v)
      && Lookup(w.messages, k) ==
         if r.Ok? && k == v.currentTime then Some(Lookup(v.messages, k).value + [x]) else Lookup(v.messages, k)
  {
    if v.context.InCallback? && Has(v.messages, v.currentTime) {
      LookupPut(v.messages, v.currentTime, v.messages[Rank(v.messages, v.currentTime)].1 + [x], k);
    }
  }

  /** Writing, from a watermark callback only, replaces the current state and changes nothing else. */
  lemma WriteExact<S, T>(v: Versions<S, T>, s: S, k: Timestamp)
    requires Sorted(v.states)
    ensures var (w, r) := SetCurrentState(v, s);
      && r == Admitted(v.context.InWatermark?, Has(v.states, v.currentTime))
      && w == v.(states := w.states) && (!r.Ok? ==> w == v)
      && Lookup(w.states, k) == if r.Ok? && k == v.currentTime then Some(s) else Lookup(v.states, k)
  {
    LookupPut(v.states, v.currentTime, s, k);
  }

  /** The initial state, set while the operator is made only, is stored for bottom with an empty list of messages. */
  lemma InitialExact<S, T>(v: Versions<S, T>, s: S, k: Timestamp)
    requires Sorted(v.states) && Sorted(v.messages)
    ensures var (w, r) := SetInitialState(v, s);
      && r == Admitted(v.context.InOperator?, true)
      && w == v.(states := w.states, messages := w.messages) && (!r.Ok? ==> w == v)
      && Lookup(w.states, k) == (if r.Ok? && k == Bottom() then Some(s) else Lookup(v.states, k))
      && Lookup(w.messages, k) == (if r.Ok? && k == Bottom() then Some([]) else Lookup(v.messages, k))
  {
    LookupPut(v.states, Bottom(), s, k);
    LookupPut(v.messages, Bottom(), [], k);
  }

  /** Only watermark callbacks close times, and nothing but the histories changes. */
  lemma CloseGuarded<S, T>(v: Versions<S, T>, t: Timestamp)
    ensures var (w, r) := CloseTime(v, t);
      && r == Admitted(v.context.InWatermark?, true)
      && w == v.(states := w.states, messages := w.messages) && (!r.Ok? ==> w == v)
  {
  }
}
