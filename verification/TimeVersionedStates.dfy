/** The time-versioned state object. */
module TimeVersionedStates {
  import opened Timestamps
  import opened Basics
  import opened SortedEntries
  import opened TimeVersions
  import opened GarbageCollection

  class TimeVersionedState<S, T> {
    var currentTime: Timestamp
    var historySize: nat
    var accessContext: Context
    var messageHistory: Entries<seq<T>>
    var stateHistory: Entries<S>
    const default: S

    function Value(): Versions<S, T> reads this {
      Versions(currentTime, historySize, accessContext, messageHistory, stateHistory)
    }

    /** The histories are ordered maps with the same keys. */
    ghost predicate Valid() reads this { Keyed(Value()) }

    constructor (historySize: nat, default: S)
      ensures Valid() && Value() == Fresh(historySize) && this.default == default
    {
      currentTime := Bottom();
      this.historySize := historySize;
      accessContext := InOperator;
      messageHistory := [];
      stateHistory := [];
      this.default := default;
    }

    method SetAccessContext(c: Context)
      requires Valid()
      modifies this`accessContext
      ensures Valid() && accessContext == c
    {
      accessContext := c;
    }

    method SetTimeTo(t: Timestamp)
      requires Valid()
      modifies this`currentTime, this`messageHistory, this`stateHistory
      ensures Valid() && Value() == SetCurrentTime(old(Value()), t, default)
    {
      PerformKeyed(Value(), SetTime(t), default);
      currentTime := t;
      if !Has(messageHistory, t) { messageHistory := Put(messageHistory, t, []); }
      if !Has(stateHistory, t) { stateHistory := Put(stateHistory, t, default); }
    }

    method SetHistorySize(h: nat) returns (r: Reply<()>)
      requires Valid()
      modifies this`historySize
      ensures Valid() && r == if accessContext.InOperator? then Ok(()) else Denied
      ensures historySize == if r.Ok? then h else old(historySize)
    {
      if !accessContext.InOperator? { return Denied; }
      historySize := h;
      return Ok(());
    }

    method SetInitial(s: S) returns (r: Reply<()>)
      requires Valid()
      modifies this`messageHistory, this`stateHistory
      ensures Valid() && (Value(), r) == SetInitialState(old(Value()), s)
    {
      if !accessContext.InOperator? { return Denied; }
      InitialKeyed(Value(), s);
      messageHistory := Put(messageHistory, Bottom(), []);
      stateHistory := Put(stateHistory, Bottom(), s);
      return Ok(());
    }

    method AppendMessage(x: T) returns (r: Reply<()>)
      requires Valid()
      modifies this`messageHistory
      ensures Valid() && (Value(), r) == Append(old(Value()), x)
    {
      PerformKeyed(Value(), GarbageCollection.AppendMessage(x), default);
      match accessContext {
        case InOperator => return Denied;
        case InWatermark => return Denied;
        case InCallback =>
          if !Has(messageHistory, currentTime) { return Panicked; }
          var list := messageHistory[Rank(messageHistory, currentTime)].1;
          messageHistory := Put(messageHistory, currentTime, list + [x]);
          return Ok(());
      }
    }

    method WriteCurrentState(s: S) returns (r: Reply<()>)
      requires Valid()
      modifies this`stateHistory
      ensures Valid() && (Value(), r) == SetCurrentState(old(Value()), s)
    {
      PerformKeyed(Value(), WriteState(s), default);
      if !accessContext.InWatermark? { return Denied; }
      if !Has(stateHistory, currentTime) { return Panicked; }
      stateHistory := Put(stateHistory, currentTime, s);
      return Ok(());
    }

    /** How many of the first keys are at most t, by walking the map. */
    static method CountThrough<V>(es: Entries<V>, t: Timestamp) returns (n: nat)
      requires Sorted(es)
      ensures n == RankThrough(es, t)
    {
      n := 0;
      while n < |es| && Le(es[n].0, t)
        invariant n <= |es| && forall i :: 0 <= i < n ==> Le(es[i].0, t)
      {
        n := n + 1;
      }
      if n < |es| { TotalOrder(es[n].0, t); }
      RankThroughIs(es, t, n);
    }

    method CloseTimeAt(t: Timestamp) returns (r: Reply<()>)
      requires Valid()
      modifies this`messageHistory, this`stateHistory
      ensures Valid() && (Value(), r) == CloseTime(old(Value()), t)
    {
      CloseKeyed(Value(), t);
      if !accessContext.InWatermark? { return Denied; }
      var n := CountThrough(stateHistory, t);
      var split: Option<nat> := None;
      if historySize == 0 {
        if n < |stateHistory| { split := Some(n); }
      } else {
        var back: nat := n;
        for i := 0 to historySize - 1
          invariant back == if n < i then 0 else n - i
        {
          if back > 0 { back := back - 1; }
        }
        if back > 0 { split := Some(back - 1); }
      }
      assert split == SplitAt(stateHistory, historySize, t);
      if split.Some? {
        var key := stateHistory[split.value].0;
        stateHistory := From(stateHistory, key);
        messageHistory := From(messageHistory, key);
      }
      return Ok(());
    }

    static method LookupAt<V>(es: Entries<V>, now: Timestamp, h: nat, t: Timestamp) returns (r: Option<V>)
      requires Sorted(es)
      ensures r == if Has(es, t) && Le(t, now) && Rank(es, now) - Rank(es, t) <= h + 1 then Lookup(es, t) else None
    {
      WindowExact(es, now, h, t);
      if !Le(t, now) { return None; }
      var hi := Rank(es, now);
      if hi - Rank(es, t) > h {
        var oldest := es[hi - 1 - h].0;
        if !Le(oldest, t) { return None; }
      }
      return Lookup(es, t);
    }

    method GetState(t: Timestamp) returns (r: Reply<Option<S>>)
      requires Valid()
      ensures r == if accessContext.InWatermark? then Ok(GetAt(stateHistory, currentTime, historySize, t)) else Denied
    {
      if !accessContext.InWatermark? { return Denied; }
      WindowExact(stateHistory, currentTime, historySize, t);
      var found := LookupAt(stateHistory, currentTime, historySize, t);
      return Ok(found);
    }

    method GetMessages(t: Timestamp) returns (r: Reply<Option<seq<T>>>)
      requires Valid()
      ensures r == if accessContext.InWatermark? then Ok(GetAt(messageHistory, currentTime, historySize, t)) else Denied
    {
      if !accessContext.InWatermark? { return Denied; }
      WindowExact(messageHistory, currentTime, historySize, t);
      var found := LookupAt(messageHistory, currentTime, historySize, t);
      return Ok(found);
    }

    /** Backwards from the current time, the first h + 1 entries. */
    static method RecentOf<V>(es: Entries<V>, now: Timestamp, h: nat) returns (r: Entries<V>)
      requires Sorted(es)
      ensures r == Recent(es, now, h)
    {
      r := [];
      var n := CountThrough(es, now);
      var i := n;
      while i > 0
        invariant 0 <= i <= n
        invariant r == Reversed(es[if n - i > h + 1 then n - (h + 1) else i..n])
      {
        i := i - 1;
        if n - 1 - i <= h { r := r + [es[i]]; }
      }
    }

    method IterStates() returns (r: Reply<Entries<S>>)
      requires Valid()
      ensures r == if accessContext.InWatermark? then Ok(Recent(stateHistory, currentTime, historySize)) else Denied
    {
      if !accessContext.InWatermark? { return Denied; }
      var found := RecentOf(stateHistory, currentTime, historySize);
      return Ok(found);
    }

    method IterMessages() returns (r: Reply<Entries<seq<T>>>)
      requires Valid()
      ensures r == if accessContext.InWatermark? then Ok(Recent(messageHistory, currentTime, historySize)) else Denied
    {
      if !accessContext.InWatermark? { return Denied; }
      var found := RecentOf(messageHistory, currentTime, historySize);
      return Ok(found);
    }
  }
}
