/** The per-stream state of the join operator: a map of messages and a min-heap of its keys. */
module JoinStates {
  import opened Timestamps
  import opened WriteStreams
  import opened Basics

  /** The map holds nothing but the heap's keys, each of which the heap holds once. */
  ghost predicate Agree<D>(msgs: map<Timestamp, seq<D>>, heap: seq<Timestamp>) {
    && Distinct(heap)
    && (forall t :: t in heap <==> t in msgs)
    && (forall t <- msgs :: msgs[t] != [])
  }

  function Added<D>(msgs: map<Timestamp, seq<D>>, t: Timestamp, d: D): map<Timestamp, seq<D>> {
    msgs[t := (if t in msgs then msgs[t] else []) + [d]]
  }

  /** Only keys later than t remain. */
  function Cleaned<D>(msgs: map<Timestamp, seq<D>>, t: Timestamp): map<Timestamp, seq<D>> {
    map k <- msgs | Lt(t, k) :: msgs[k]
  }

  class StreamState<D> {
    var msgs: map<Timestamp, seq<D>>
    var timestamps: seq<Timestamp>

    ghost predicate Valid() reads this { Agree(msgs, timestamps) }

    constructor ()
      ensures Valid() && msgs == map[]
    {
      msgs := map[];
      timestamps := [];
    }

    method AddMsg(t: Timestamp, d: D)
      requires Valid()
      modifies this
      ensures Valid() && msgs == Added(old(msgs), t, d)
    {
      if t in msgs {
        msgs := msgs[t := msgs[t] + [d]];
      } else {
        assert [] + [d] == [d];
        msgs := msgs[t := [d]];
        timestamps := timestamps + [t];
      }
    }

    /** The heap's minimum. */
    method Peek() returns (i: int)
      requires Valid()
      ensures timestamps == [] ==> i == -1
      ensures timestamps != [] ==> 0 <= i < |timestamps| && forall t <- timestamps :: Le(timestamps[i], t)
    {
      i := -1;
      for j := 0 to |timestamps|
        invariant j == 0 ==> i == -1
        invariant j > 0 ==> 0 <= i < j && forall k :: 0 <= k < j ==> Le(timestamps[i], timestamps[k])
      {
        TotalOrder(timestamps[j], timestamps[j]);
        if i == -1 {
          i := j;
        } else {
          TotalOrder(timestamps[j], timestamps[i]);
          if Lt(timestamps[j], timestamps[i]) {
            forall k | 0 <= k < j ensures Le(timestamps[j], timestamps[k]) {
              Transitive(timestamps[j], timestamps[i], timestamps[k]);
            }
            i := j;
          }
        }
      }
    }

    /** Every key up to t goes, and the key popped from the heap is always in the map. */
    method CleanState(t: Timestamp)
      requires Valid()
      modifies this
      ensures Valid() && msgs == Cleaned(old(msgs), t)
    {
      var i := Peek();
      while i != -1 && Le(timestamps[i], t)
        invariant Valid()
        invariant timestamps == [] ==> i == -1
        invariant timestamps != [] ==> 0 <= i < |timestamps| && forall k <- timestamps :: Le(timestamps[i], k)
        invariant forall k <- msgs :: k in old(msgs) && msgs[k] == old(msgs)[k]
        invariant forall k <- old(msgs) :: Lt(t, k) ==> k in msgs
        decreases |timestamps|
      {
        var k := timestamps[i];
        assert k in timestamps && k in msgs;
        TotalOrder(k, t);
        PopAgrees(msgs, timestamps, i);
        timestamps := timestamps[..i] + timestamps[i + 1..];
        msgs := msgs - {k};
        i := Peek();
      }
      forall k <- msgs ensures Lt(t, k) {
        assert k in timestamps;
        TotalOrder(timestamps[i], t);
        Transitive(t, timestamps[i], k);
      }
      assert msgs == Cleaned(old(msgs), t);
    }

    method GetState(t: Timestamp) returns (r: Option<seq<D>>)
      ensures r == if t in msgs then Some(msgs[t]) else None
    {
      if t in msgs { return Some(msgs[t]); }
      return None;
    }
  }

  lemma PopAgrees<D>(msgs: map<Timestamp, seq<D>>, heap: seq<Timestamp>, i: int)
    requires Agree(msgs, heap) && 0 <= i < |heap|
    ensures Agree(msgs - {heap[i]}, heap[..i] + heap[i + 1..])
    ensures forall t :: t in heap[..i] + heap[i + 1..] ==> t in heap
  {
    var r := heap[..i] + heap[i + 1..];
    forall t ensures t in r <==> t in heap && t != heap[i] {
      if t in heap && t != heap[i] {
        var j :| 0 <= j < |heap| && heap[j] == t;
        assert r[if j < i then j else j - 1] == t;
      }
    }
  }

  // ---------------------------------------------------------------------------------------------
  // Any interleaving of additions and cleanings.

  datatype Op<D> = Add(time: Timestamp, data: D) | Clean(time: Timestamp)

  function After<D>(ops: seq<Op<D>>): map<Timestamp, seq<D>> {
    if ops == [] then map[]
    else
      var m := After(ops[..|ops| - 1]);
      match ops[|ops| - 1]
      case Add(t, d) => Added(m, t, d)
      case Clean(t) => Cleaned(m, t)
  }

  /** The messages added with timestamp t since t was last cleaned. */
  function Since<D>(ops: seq<Op<D>>, t: Timestamp): seq<D> {
    if ops == [] then []
    else
      var rest := Since(ops[..|ops| - 1], t);
      match ops[|ops| - 1]
      case Add(u, d) => if u == t then rest + [d] else rest
      case Clean(u) => if Le(t, u) then [] else rest
  }

  lemma {:induction false} MapHoldsSince<D>(ops: seq<Op<D>>, t: Timestamp)
    ensures t in After(ops) <==> Since(ops, t) != []
    ensures t in After(ops) ==> After(ops)[t] == Since(ops, t)
  {
    if ops != [] {
      MapHoldsSince(ops[..|ops| - 1], t);
      var last := ops[|ops| - 1];
      if last.Clean? { TotalOrder(t, last.time); }
    }
  }

  // ---------------------------------------------------------------------------------------------
  // The join itself.

  /** The watermark callback of the join. It unwraps both lists and expects the send to succeed, so it panics exactly when
      a side has no message with the watermark's own timestamp or the output stream does not take the result; the
      messages are then all still there. Otherwise the result is sent and everything up to the watermark forgotten. */
  method OnWatermark<A, B, R>(t: Timestamp, left: StreamState<A>, right: StreamState<B>, out: WriteStream<R>,
                              join: (seq<A>, seq<B>) -> R, fault: nat) returns (panicked: bool)
    requires left as object != right as object && left as object != out as object && right as object != out as object
    requires left.Valid() && right.Valid() && out.Valid()
    modifies left, right, out
    ensures left.Valid() && right.Valid() && out.Valid()
    ensures panicked <==>
      || t !in old(left.msgs) || t !in old(right.msgs)
      || old(out.streamClosed) || Lt(t, old(out.lowWatermark)) || fault < |old(out.logs)|
    ensures left.msgs == if panicked then old(left.msgs) else Cleaned(old(left.msgs), t)
    ensures right.msgs == if panicked then old(right.msgs) else Cleaned(old(right.msgs), t)
    ensures out.State() == old(out.State())
    ensures out.logs ==
      if t in old(left.msgs) && t in old(right.msgs) && !old(out.streamClosed) && !Lt(t, old(out.lowWatermark))
      then Pushed(old(out.logs), TimestampedData(t, join(old(left.msgs)[t], old(right.msgs)[t])), fault)
      else old(out.logs)
  {
    var l := left.GetState(t);
    if l.None? { return true; }
    var m := right.GetState(t);
    if m.None? { return true; }
    var r := out.SendMessage(TimestampedData(t, join(l.value, m.value)), fault);
    if r != Sent { return true; }
    left.CleanState(t);
    right.CleanState(t);
    return false;
  }
}
