/** Sending on a write stream: low watermarks, closing, and what every endpoint receives. */
module WriteStreams {
  import opened Timestamps

  datatype Message<D> = TimestampedData(timestamp: Timestamp, data: D) | Watermark(timestamp: Timestamp) {
    predicate IsTopWatermark() { Watermark? && timestamp.isTop }
  }

  datatype SendResult = Sent | Closed | TimestampError | PushFailed

  /** The part of a `WriteStream` that every clone has for itself. */
  datatype Handle = Handle(lowWatermark: Timestamp, closed: bool)

  /** The messages that went into each endpoint's channel; clones share the channels. */
  type Logs<D> = seq<seq<Message<D>>>

  const NEW_HANDLE := Handle(IntTimestamp([0], false), false)

  function Updated<D>(h: Handle, m: Message<D>): Handle {
    if m.Watermark? then h.(lowWatermark := m.timestamp) else h
  }

  /** `Pusher::send` stops at the first endpoint that fails; the fault position is given by the environment. */
  function Pushed<D>(logs: Logs<D>, m: Message<D>, fault: nat): Logs<D> {
    seq(|logs|, k requires 0 <= k < |logs| => if k < fault then logs[k] + [m] else logs[k])
  }

  function Send<D>(h: Handle, logs: Logs<D>, m: Message<D>, fault: nat): (Handle, Logs<D>, SendResult) {
    if h.closed then (h, logs, Closed)
    else if Lt(m.timestamp, h.lowWatermark) then (h, logs, TimestampError)
    else if fault < |logs| then (Updated(h, m), Pushed(logs, m, fault), PushFailed)
    else (Updated(h, m).(closed := m.IsTopWatermark()), Pushed(logs, m, fault), Sent)
  }

  class WriteStream<D> {
    var lowWatermark: Timestamp
    var streamClosed: bool
    /** The pusher's channels; `None` in the source is `hasPusher == false`. */
    var hasPusher: bool
    var logs: Logs<D>

    ghost predicate Valid() reads this { hasPusher <==> !streamClosed }

    function State(): Handle reads this { Handle(lowWatermark, streamClosed) }

    constructor (endpoints: nat)
      ensures Valid() && State() == NEW_HANDLE && logs == seq(endpoints, _ => [])
    {
      lowWatermark := IntTimestamp([0], false);
      streamClosed := false;
      hasPusher := true;
      logs := seq(endpoints, _ => []);
    }

    method UpdateWatermark(m: Message<D>) returns (ok: bool)
      modifies this`lowWatermark
      ensures ok == !Lt(m.timestamp, old(lowWatermark))
      ensures lowWatermark == if ok && m.Watermark? then m.timestamp else old(lowWatermark)
    {
      match m {
        case TimestampedData(t, _) =>
          ok := !Lt(t, lowWatermark);
        case Watermark(t) =>
          ok := !Lt(t, lowWatermark);
          if ok { lowWatermark := t; }
      }
    }

    method Push(m: Message<D>, fault: nat) returns (ok: bool)
      modifies this`logs
      ensures ok == (fault >= |old(logs)|)
      ensures logs == Pushed(old(logs), m, fault)
    {
      ok := true;
      var k := 0;
      while k < |logs| && ok
        invariant 0 <= k <= |logs| == |old(logs)|
        invariant forall j :: 0 <= j < k ==> logs[j] == old(logs)[j] + [m]
        invariant forall j :: k <= j < |logs| ==> logs[j] == old(logs)[j]
        invariant k <= fault && (!ok ==> k == fault < |logs|)
        decreases |logs| - k, ok
      {
        if k == fault {
          ok := false;
        } else {
          logs := logs[k := logs[k] + [m]];
          k := k + 1;
        }
      }
    }

    method SendMessage(m: Message<D>, fault: nat) returns (r: SendResult)
      requires Valid()
      modifies this
      ensures Valid()
      ensures (State(), logs, r) == Send(old(State()), old(logs), m, fault)
    {
      if streamClosed { return Closed; }
      var close := m.IsTopWatermark();
      var ok := UpdateWatermark(m);
      if !ok { return TimestampError; }
      if hasPusher {
        ok := Push(m, fault);
        if !ok { return PushFailed; }
      }
      if close {
        streamClosed := true;
        hasPusher := false;
      }
      return Sent;
    }
  }

  // ---------------------------------------------------------------------------------------------
  // What an endpoint sees.

  /** Nothing older than a watermark follows it. */
  ghost predicate Disciplined<D>(log: seq<Message<D>>) {
    forall i, j :: 0 <= i < j < |log| && log[i].Watermark? ==> Le(log[i].timestamp, log[j].timestamp)
  }

  /** The handle has caught up with every watermark in the log. */
  ghost predicate Current<D>(h: Handle, log: seq<Message<D>>) {
    forall m <- log :: m.Watermark? ==> Le(m.timestamp, h.lowWatermark)
  }

  ghost predicate Good<D>(h: Handle, logs: Logs<D>) {
    forall k :: 0 <= k < |logs| ==> Disciplined(logs[k]) && Current(h, logs[k])
  }

  lemma LogKeeps<D>(h: Handle, log: seq<Message<D>>, m: Message<D>)
    requires Disciplined(log) && Current(h, log) && !Lt(m.timestamp, h.lowWatermark)
    ensures Disciplined(log + [m]) && Current(Updated(h, m), log + [m]) && Current(Updated(h, m), log)
  {
    TotalOrder(m.timestamp, h.lowWatermark);
    TotalOrder(m.timestamp, m.timestamp);
    forall i | 0 <= i < |log| && log[i].Watermark? ensures Le(log[i].timestamp, m.timestamp) {
      assert log[i] in log;
      Transitive(log[i].timestamp, h.lowWatermark, m.timestamp);
    }
  }

  lemma SendKeeps<D>(h: Handle, logs: Logs<D>, m: Message<D>, fault: nat)
    requires Good(h, logs)
    ensures var (h', logs', r) := Send(h, logs, m, fault);
      Good(h', logs') && |logs'| == |logs|
  {
    var (h', logs', r) := Send(h, logs, m, fault);
    if r == Sent || r == PushFailed {
      forall k | 0 <= k < |logs| ensures Disciplined(logs'[k]) && Current(h', logs'[k]) {
        LogKeeps(h, logs[k], m);
      }
    }
  }

  datatype Call<D> = Call(message: Message<D>, fault: nat)

  /** Any sequence of sends through one handle. */
  function SendAll<D>(endpoints: nat, calls: seq<Call<D>>): (Handle, Logs<D>) {
    if calls == [] then (NEW_HANDLE, seq(endpoints, _ => []))
    else
      var (h, logs) := SendAll(endpoints, calls[..|calls| - 1]);
      var last := calls[|calls| - 1];
      var (h', logs', _) := Send(h, logs, last.message, last.fault);
      (h', logs')
  }

  /** Whatever is sent and whichever pushes fail, every endpoint sees a disciplined stream. */
  lemma {:induction false} EveryEndpointDisciplined<D>(endpoints: nat, calls: seq<Call<D>>)
    ensures var (h, logs) := SendAll(endpoints, calls); Good(h, logs) && |logs| == endpoints
  {
    if calls != [] {
      var init := calls[..|calls| - 1];
      EveryEndpointDisciplined(endpoints, init);
      var (h, logs) := SendAll(endpoints, init);
      SendKeeps(h, logs, calls[|calls| - 1].message, calls[|calls| - 1].fault);
    }
  }

  // ---------------------------------------------------------------------------------------------
  // Closing, when no push fails.

  /** Every endpoint has the same messages, the stream is closed exactly after a top watermark, and nothing follows one. */
  ghost predicate Faultless<D>(h: Handle, logs: Logs<D>) {
    && (forall j, k :: 0 <= j < |logs| && 0 <= k < |logs| ==> logs[j] == logs[k])
    && (forall k :: 0 <= k < |logs| ==> (h.closed <==> exists m <- logs[k] :: m.IsTopWatermark()))
    && (forall k, i :: 0 <= k < |logs| && 0 <= i < |logs[k]| && logs[k][i].IsTopWatermark() ==> i == |logs[k]| - 1)
  }

  lemma SendStaysFaultless<D>(h: Handle, logs: Logs<D>, m: Message<D>, fault: nat)
    requires Faultless(h, logs) && fault >= |logs|
    ensures var (h', logs', r) := Send(h, logs, m, fault); Faultless(h', logs') && |logs'| == |logs|
  {
    var (h', logs', r) := Send(h, logs, m, fault);
    if r == Sent {
      forall k | 0 <= k < |logs| ensures h'.closed <==> exists x <- logs'[k] :: x.IsTopWatermark() {
        assert logs'[k] == logs[k] + [m];
        if m.IsTopWatermark() { assert m in logs'[k]; }
      }
    }
  }

  lemma {:induction false} NothingAfterTop<D>(endpoints: nat, calls: seq<Call<D>>)
    requires forall c <- calls :: c.fault >= endpoints
    ensures var (h, logs) := SendAll(endpoints, calls); Faultless(h, logs) && |logs| == endpoints
  {
    if calls != [] {
      var init, last := calls[..|calls| - 1], calls[|calls| - 1];
      assert last in calls;
      NothingAfterTop(endpoints, init);
      var (h, logs) := SendAll(endpoints, init);
      SendStaysFaultless(h, logs, last.message, last.fault);
    }
  }

  // ---------------------------------------------------------------------------------------------
  // Closing, whichever pushes fail.

  /** What the i-th call returned. */
  function ResultAt<D>(endpoints: nat, calls: seq<Call<D>>, i: int): SendResult
    requires 0 <= i < |calls|
  {
    var (h, logs) := SendAll(endpoints, calls[..i]);
    Send(h, logs, calls[i].message, calls[i].fault).2
  }

  /** The i-th call passed the checks, so that its message went to the endpoints before its fault. */
  predicate Accepted<D>(endpoints: nat, calls: seq<Call<D>>, i: int) {
    0 <= i < |calls| && (ResultAt(endpoints, calls, i) == Sent || ResultAt(endpoints, calls, i) == PushFailed)
  }

  /** The i-th call pushed a top watermark to every endpoint. */
  ghost predicate Closes<D>(endpoints: nat, calls: seq<Call<D>>, i: int) {
    0 <= i < |calls| && calls[i].message == Watermark(Top()) && ResultAt(endpoints, calls, i) == Sent
  }

  /** The i-th call's message is in the channel of endpoint k. */
  predicate Arrives<D>(endpoints: nat, calls: seq<Call<D>>, i: int, k: int) {
    Accepted(endpoints, calls, i) && k < calls[i].fault
  }

  lemma EarlierResult<D>(endpoints: nat, calls: seq<Call<D>>, n: int, i: int)
    requires 0 <= i < n <= |calls|
    ensures ResultAt(endpoints, calls[..n], i) == ResultAt(endpoints, calls, i)
  {
    assert calls[..n][..i] == calls[..i];
  }

  lemma LastCall<D>(endpoints: nat, calls: seq<Call<D>>)
    requires calls != []
    ensures var n := |calls| - 1;
      var (h, logs) := SendAll(endpoints, calls[..n]);
      var (h', logs', r) := Send(h, logs, calls[n].message, calls[n].fault);
      SendAll(endpoints, calls) == (h', logs') && ResultAt(endpoints, calls, n) == r
  {
  }

  /** A handle is closed exactly if some accepted top watermark was pushed without failing. */
  lemma {:induction false} ClosedExactly<D>(endpoints: nat, calls: seq<Call<D>>)
    ensures SendAll(endpoints, calls).0.closed <==> exists i :: Closes(endpoints, calls, i)
  {
    if calls != [] {
      LastCall(endpoints, calls);
      hide SendAll, ResultAt, Lt, Pushed;
      var n := |calls| - 1;
      var init := calls[..n];
      ClosedExactly(endpoints, init);
      forall i | 0 <= i < n ensures Closes(endpoints, init, i) <==> Closes(endpoints, calls, i) {
        EarlierResult(endpoints, calls, n, i);
      }
      if i :| Closes(endpoints, init, i) { assert Closes(endpoints, calls, i); }
      if i :| Closes(endpoints, calls, i) && i < n { assert Closes(endpoints, init, i); }
      assert SendAll(endpoints, calls).0.closed <==> SendAll(endpoints, init).0.closed || Closes(endpoints, calls, n);
    }
  }

  lemma FailsExactly<D>(endpoints: nat, calls: seq<Call<D>>, i: int)
    requires Accepted(endpoints, calls, i)
    ensures ResultAt(endpoints, calls, i) == PushFailed <==> calls[i].fault < endpoints
  {
    EveryEndpointDisciplined(endpoints, calls[..i]);
  }

  /** After a call that closed the stream no call is accepted. */
  lemma NoneAfterClosing<D>(endpoints: nat, calls: seq<Call<D>>, i: int, j: int)
    requires Closes(endpoints, calls, i) && i < j < |calls|
    ensures !Accepted(endpoints, calls, j)
  {
    ClosedExactly(endpoints, calls[..j]);
    EarlierResult(endpoints, calls, j, i);
    assert Closes(endpoints, calls[..j], i);
  }

  /** Which calls the messages of an endpoint came from. */
  function Origins<D>(endpoints: nat, calls: seq<Call<D>>, k: int): seq<int> {
    if calls == [] then []
    else
      var n := |calls| - 1;
      Origins(endpoints, calls[..n], k) + if Arrives(endpoints, calls, n, k) then [n] else []
  }

  ghost function ArrivingAt<D>(endpoints: nat, calls: seq<Call<D>>, k: int): set<int> {
    set i | 0 <= i < |calls| && Arrives(endpoints, calls, i, k)
  }

  /** The log holds the messages of the calls in `all`, in order. */
  ghost predicate Traced<D>(calls: seq<Call<D>>, all: set<int>, from: seq<int>, log: seq<Message<D>>) {
    && |from| == |log|
    && (forall a :: 0 <= a < |from| ==> from[a] in all && 0 <= from[a] < |calls| && log[a] == calls[from[a]].message)
    && (forall a, b :: 0 <= a < b < |from| ==> from[a] < from[b])
    && (forall i <- all :: exists a :: 0 <= a < |from| && from[a] == i)
  }

  lemma TracedOn<D>(calls: seq<Call<D>>, all: set<int>, from: seq<int>, log: seq<Message<D>>, c: Call<D>)
    requires Traced(calls, all, from, log)
    ensures Traced(calls + [c], all, from, log)
    ensures Traced(calls + [c], all + {|calls|}, from + [|calls|], log + [c.message])
  {
    var from' := from + [|calls|];
    forall i <- all + {|calls|} ensures exists a :: 0 <= a < |from'| && from'[a] == i {
      if i in all {
        var a :| 0 <= a < |from| && from[a] == i;
        assert from'[a] == i;
      } else {
        assert from'[|from|] == i;
      }
    }
  }

  /** An endpoint's log is the messages of the calls that reach it, in order. */
  lemma {:induction false} LogOrigins<D>(endpoints: nat, calls: seq<Call<D>>, k: int)
    requires 0 <= k < endpoints
    ensures |SendAll(endpoints, calls).1| == endpoints
    ensures Traced(calls, ArrivingAt(endpoints, calls, k), Origins(endpoints, calls, k), SendAll(endpoints, calls).1[k])
  {
    hide Traced, ArrivingAt, Arrives, SendAll;
    if calls == [] {
      NoOrigins<D>(endpoints, k);
    } else {
      var n := |calls| - 1;
      var init := calls[..n];
      LogOrigins(endpoints, init, k);
      LastLog(endpoints, calls, k);
      ArrivingOn(endpoints, calls, k);
      var log, from, all := SendAll(endpoints, init).1[k], Origins(endpoints, init, k), ArrivingAt(endpoints, init, k);
      TracedOn(init, all, from, log, calls[n]);
      assert init + [calls[n]] == calls && all + {} == all && from + [] == from;
    }
  }

  lemma LastLog<D>(endpoints: nat, calls: seq<Call<D>>, k: int)
    requires calls != [] && 0 <= k < endpoints
    ensures |SendAll(endpoints, calls[..|calls| - 1]).1| == endpoints == |SendAll(endpoints, calls).1|
    ensures var n := |calls| - 1;
      var log := SendAll(endpoints, calls[..n]).1[k];
      SendAll(endpoints, calls).1[k] == if Arrives(endpoints, calls, n, k) then log + [calls[n].message] else log
  {
    hide Disciplined, Current;
    EveryEndpointDisciplined(endpoints, calls[..|calls| - 1]);
    EveryEndpointDisciplined(endpoints, calls);
  }

  lemma NoOrigins<D>(endpoints: nat, k: int)
    requires 0 <= k < endpoints
    ensures |SendAll<D>(endpoints, []).1| == endpoints && SendAll<D>(endpoints, []).1[k] == []
    ensures Traced<D>([], ArrivingAt<D>(endpoints, [], k), Origins<D>(endpoints, [], k), [])
  {
  }

  lemma ArrivingOn<D>(endpoints: nat, calls: seq<Call<D>>, k: int)
    requires calls != []
    ensures var n := |calls| - 1;
      ArrivingAt(endpoints, calls, k) ==
      ArrivingAt(endpoints, calls[..n], k) + if Arrives(endpoints, calls, n, k) then {n} else {}
  {
    hide ResultAt;
    var n := |calls| - 1;
    forall i | 0 <= i < n ensures Arrives(endpoints, calls[..n], i, k) <==> Arrives(endpoints, calls, i, k) {
      EarlierResult(endpoints, calls, n, i);
    }
  }

  ghost predicate AfterTop<D>(log: seq<Message<D>>) {
    exists a :: 0 <= a < |log| - 1 && log[a] == Watermark(Top())
  }

  /** Call i pushed a top watermark that reached endpoint k and then failed, and call j reached endpoint k later. */
  ghost predicate Reopened<D>(endpoints: nat, calls: seq<Call<D>>, k: int, i: int, j: int) {
    && i < j && Accepted(endpoints, calls, i) && calls[i].message == Watermark(Top()) && k < calls[i].fault < endpoints
    && Arrives(endpoints, calls, j, k)
  }

  /** Over every sequence of calls and every pattern of faults: endpoint k receives something after a top watermark
      exactly if an accepted top watermark got past it and failed further on, and a later accepted call reaches it. */
  lemma AfterTopExactly<D>(endpoints: nat, calls: seq<Call<D>>, k: int)
    requires 0 <= k < endpoints
    ensures |SendAll(endpoints, calls).1| == endpoints
    ensures AfterTop(SendAll(endpoints, calls).1[k]) <==> exists i, j :: Reopened(endpoints, calls, k, i, j)
  {
    hide ResultAt, Origins, Accepted, SendAll;
    LogOrigins(endpoints, calls, k);
    var log, from := SendAll(endpoints, calls).1[k], Origins(endpoints, calls, k);
    if AfterTop(log) {
      var a :| 0 <= a < |log| - 1 && log[a] == Watermark(Top());
      var i, j := from[a], from[a + 1];
      assert Arrives(endpoints, calls, i, k) && Arrives(endpoints, calls, j, k);
      TopFailed(endpoints, calls, i, j);
      assert Reopened(endpoints, calls, k, i, j);
    }
    if i, j :| Reopened(endpoints, calls, k, i, j) {
      InRange(endpoints, calls, i, j);
      assert i in ArrivingAt(endpoints, calls, k) && j in ArrivingAt(endpoints, calls, k);
      var a :| 0 <= a < |from| && from[a] == i;
      var b :| 0 <= b < |from| && from[b] == j;
      assert a < b && log[a] == Watermark(Top());
    }
  }

  lemma InRange<D>(endpoints: nat, calls: seq<Call<D>>, i: int, j: int)
    requires Accepted(endpoints, calls, i) && Accepted(endpoints, calls, j)
    ensures 0 <= i < |calls| && 0 <= j < |calls|
  {
  }

  /** A top watermark before another accepted call was not pushed to every endpoint. */
  lemma TopFailed<D>(endpoints: nat, calls: seq<Call<D>>, i: int, j: int)
    requires Accepted(endpoints, calls, i) && Accepted(endpoints, calls, j) && i < j && calls[i].message == Watermark(Top())
    ensures calls[i].fault < endpoints
  {
    hide ResultAt;
    FailsExactly(endpoints, calls, i);
    if Closes(endpoints, calls, i) { NoneAfterClosing(endpoints, calls, i, j); }
  }

  /** Call i raised the handle's low watermark above t. */
  predicate Outruns<D>(endpoints: nat, calls: seq<Call<D>>, i: int, t: Timestamp) {
    Accepted(endpoints, calls, i) && calls[i].message.Watermark? && Lt(t, calls[i].message.timestamp)
  }

  /** A timestamp is below the handle's low watermark exactly if it is below the initial one or below that of an accepted
      watermark, whether or not its push failed. */
  lemma {:induction false} BelowExactly<D>(endpoints: nat, calls: seq<Call<D>>, t: Timestamp)
    ensures Lt(t, SendAll(endpoints, calls).0.lowWatermark) <==>
      Lt(t, NEW_HANDLE.lowWatermark) || exists i :: Outruns(endpoints, calls, i, t)
  {
    if calls != [] {
      LastCall(endpoints, calls);
      hide SendAll, ResultAt, Lt, Pushed, Send;
      var n := |calls| - 1;
      var init := calls[..n];
      BelowExactly(endpoints, init, t);
      forall i | 0 <= i < n ensures Outruns(endpoints, init, i, t) <==> Outruns(endpoints, calls, i, t) {
        EarlierResult(endpoints, calls, n, i);
      }
      BelowStep(SendAll(endpoints, init).0, SendAll(endpoints, init).1, calls[n], t);
      if i :| Outruns(endpoints, init, i, t) { assert Outruns(endpoints, calls, i, t); }
      if i :| Outruns(endpoints, calls, i, t) && i < n { assert Outruns(endpoints, init, i, t); }
      assert Outruns(endpoints, calls, n, t) ==> Lt(t, SendAll(endpoints, calls).0.lowWatermark);
    }
  }

  lemma BelowStep<D>(h: Handle, logs: Logs<D>, c: Call<D>, t: Timestamp)
    ensures var (h', _, r) := Send(h, logs, c.message, c.fault);
      Lt(t, h'.lowWatermark) <==>
        Lt(t, h.lowWatermark) || ((r == Sent || r == PushFailed) && c.message.Watermark? && Lt(t, c.message.timestamp))
  {
    TotalOrder(t, h.lowWatermark);
    TotalOrder(t, c.message.timestamp);
    TotalOrder(c.message.timestamp, h.lowWatermark);
    if Lt(t, h.lowWatermark) && Le(h.lowWatermark, c.message.timestamp) {
      Transitive(t, h.lowWatermark, c.message.timestamp);
    }
  }

  /** Exactly when a call is accepted: no earlier call closed the stream, and no accepted watermark outruns it. */
  lemma AcceptedExactly<D>(endpoints: nat, calls: seq<Call<D>>, j: int)
    requires 0 <= j < |calls|
    ensures Accepted(endpoints, calls, j) <==>
      && (forall i :: Closes(endpoints, calls, i) ==> i >= j)
      && !Lt(calls[j].message.timestamp, NEW_HANDLE.lowWatermark)
      && (forall i :: Outruns(endpoints, calls, i, calls[j].message.timestamp) ==> i >= j)
  {
    var init, t := calls[..j], calls[j].message.timestamp;
    ClosedExactly(endpoints, init);
    BelowExactly(endpoints, init, t);
    forall i | 0 <= i < j
      ensures Closes(endpoints, init, i) <==> Closes(endpoints, calls, i)
      ensures Outruns(endpoints, init, i, t) <==> Outruns(endpoints, calls, i, t)
    {
      EarlierResult(endpoints, calls, j, i);
    }
    hide ResultAt, SendAll;
    if i :| Closes(endpoints, init, i) { assert Closes(endpoints, calls, i); }
    if i :| Outruns(endpoints, init, i, t) { assert Outruns(endpoints, calls, i, t); }
    assert Accepted(endpoints, calls, j) <==> !SendAll(endpoints, init).0.closed && !Lt(t, SendAll(endpoints, init).0.lowWatermark) by {
      AcceptsIf(endpoints, calls, j);
    }
  }

  lemma AcceptsIf<D>(endpoints: nat, calls: seq<Call<D>>, j: int)
    requires 0 <= j < |calls|
    ensures Accepted(endpoints, calls, j) <==>
      var h := SendAll(endpoints, calls[..j]).0; !h.closed && !Lt(calls[j].message.timestamp, h.lowWatermark)
  {
  }

  /** The new handle's low watermark, [0], lets everything through but bottom. */
  lemma OnlyBottomBelow(t: Timestamp)
    ensures Lt(t, NEW_HANDLE.lowWatermark) <==> t == Bottom()
  {
    var low := NEW_HANDLE.lowWatermark;
    LtExactly(t, low);
    if t == Bottom() { assert SmallerAt(t.time, low.time, 0); }
  }

  /** What every call of every sequence returns: closed by an earlier top watermark, else outrun by an earlier accepted
      watermark (or bottom), else failed at an endpoint, else sent. */
  lemma ResultExactly<D>(endpoints: nat, calls: seq<Call<D>>, j: int)
    requires 0 <= j < |calls|
    ensures ResultAt(endpoints, calls, j) ==
      if exists i :: Closes(endpoints, calls, i) && i < j then Closed
      else if calls[j].message.timestamp == Bottom() || exists i :: Outruns(endpoints, calls, i, calls[j].message.timestamp) && i < j
      then TimestampError
      else if calls[j].fault < endpoints then PushFailed else Sent
  {
    var init, t := calls[..j], calls[j].message.timestamp;
    ClosedExactly(endpoints, init);
    BelowExactly(endpoints, init, t);
    OnlyBottomBelow(t);
    EveryEndpointDisciplined(endpoints, init);
    forall i | 0 <= i < j
      ensures Closes(endpoints, init, i) <==> Closes(endpoints, calls, i)
      ensures Outruns(endpoints, init, i, t) <==> Outruns(endpoints, calls, i, t)
    {
      EarlierResult(endpoints, calls, j, i);
    }
    assert SendAll(endpoints, init).0.closed <==> exists i :: Closes(endpoints, calls, i) && i < j by {
      hide ResultAt, SendAll, Lt;
      if i :| Closes(endpoints, init, i) { assert Closes(endpoints, calls, i) && i < j; }
      if i :| Closes(endpoints, calls, i) && i < j { assert Closes(endpoints, init, i); }
    }
    assert (exists i :: Outruns(endpoints, init, i, t)) <==> exists i :: Outruns(endpoints, calls, i, t) && i < j by {
      hide ResultAt, SendAll, Lt;
      if i :| Outruns(endpoints, init, i, t) { assert Outruns(endpoints, calls, i, t) && i < j; }
      if i :| Outruns(endpoints, calls, i, t) && i < j { assert Outruns(endpoints, init, i, t); }
    }
  }

  /** A failed push of the top watermark leaves the stream open: the endpoints before the fault have the watermark,
      and a retry gives them a message after it. */
  lemma FailedTopStaysOpen<D>(h: Handle, logs: Logs<D>, m: Message<D>, fault: nat, k: int)
    requires !h.closed && m.IsTopWatermark() && !Lt(m.timestamp, h.lowWatermark) && 0 <= k < fault < |logs|
    ensures var (h', logs', r) := Send(h, logs, m, fault);
      var (h'', logs'', r') := Send(h', logs', m, |logs|);
      && r == PushFailed && !h'.closed && r' == Sent && h''.closed
      && logs''[k] == logs[k] + [m] + [m] && logs''[fault] == logs[fault] + [m]
  {
    TotalOrder(m.timestamp, m.timestamp);
  }

  // ---------------------------------------------------------------------------------------------
  // Clones.

  /** A handle keeps the discipline of a shared log, whatever it is asked to send, exactly when it is open
      and has caught up; callbacks send through clones, which never catch up with each other. */
  lemma SafeHandle<D>(h: Handle, log: seq<Message<D>>, d: D)
    requires Disciplined(log) && !h.closed
    ensures Current(h, log) <==>
      forall m: Message<D> :: Disciplined(Send(h, [log], m, 1).1[0])
  {
    if Current(h, log) {
      forall m: Message<D> ensures Disciplined(Send(h, [log], m, 1).1[0]) {
        if !Lt(m.timestamp, h.lowWatermark) {
          LogKeeps(h, log, m);
          assert Send(h, [log], m, 1).1[0] == log + [m];
        }
      }
    } else {
      var i :| 0 <= i < |log| && log[i].Watermark? && !Le(log[i].timestamp, h.lowWatermark);
      var m := TimestampedData(h.lowWatermark, d);
      TotalOrder(h.lowWatermark, h.lowWatermark);
      assert Send(h, [log], m, 1).1[0] == log + [m];
      assert (log + [m])[i] == log[i] && (log + [m])[|log|] == m;
      assert !Disciplined(Send(h, [log], m, 1).1[0]);
    }
  }

  /** Two clones of a new stream: once one of them has sent any watermark above the initial one, the other one still
      accepts an older message, which the reader then gets after the watermark. */
  lemma ClonesFallBehind<D>(t: Timestamp, d: D)
    requires Lt(NEW_HANDLE.lowWatermark, t)
    ensures var (first, logs, r) := Send(NEW_HANDLE, [[]], Message<D>.Watermark(t), 1);
      var (second, logs', r') := Send(NEW_HANDLE, logs, TimestampedData(NEW_HANDLE.lowWatermark, d), 1);
      && r == Sent && Disciplined(logs[0]) && !Current(NEW_HANDLE, logs[0])
      && r' == Sent && !Disciplined(logs'[0])
  {
    var low := NEW_HANDLE.lowWatermark;
    TotalOrder(low, t);
    TotalOrder(low, low);
    var (first, logs, r) := Send(NEW_HANDLE, [[]], Message<D>.Watermark(t), 1);
    assert logs[0] == [Message<D>.Watermark(t)] && logs[0][0] in logs[0];
    var log := Send(NEW_HANDLE, logs, TimestampedData(low, d), 1).1[0];
    assert log[0] == Watermark(t) && log[1] == TimestampedData(low, d);
  }

  /** After watermark t a message is accepted exactly from t on, so one with timestamp t itself still is. */
  lemma AcceptedAfterWatermark<D>(h: Handle, logs: Logs<D>, t: Timestamp, m: Message<D>)
    requires !h.closed && !t.isTop && !Lt(t, h.lowWatermark)
    ensures var (h', logs', _) := Send(h, logs, Watermark(t), |logs|);
      Send(h', logs', m, |logs|).2 == Sent <==> Le(t, m.timestamp)
  {
    TotalOrder(t, m.timestamp);
  }
}
