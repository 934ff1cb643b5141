/** Low watermarks over several input streams (the generated callback builders). */
module Bundles {
  import opened Timestamps
  import opened OperatorEvents
  import opened Basics

  type StreamId = nat

  /** The order of `Option<Timestamp>`: `None` comes first. */
  predicate Older(a: Option<Timestamp>, b: Option<Timestamp>) {
    b.Some? && (a.None? || Lt(a.value, b.value))
  }

  lemma OlderTotal(a: Option<Timestamp>, b: Option<Timestamp>)
    ensures Older(a, b) ==> !Older(b, a) && a != b
    ensures !Older(a, b) && !Older(b, a) ==> a == b
  {
    if a.Some? && b.Some? { TotalOrder(a.value, b.value); }
  }

  lemma OlderTransitive(a: Option<Timestamp>, b: Option<Timestamp>, c: Option<Timestamp>)
    requires !Older(b, a) && !Older(c, b)
    ensures !Older(c, a)
    ensures Older(a, b) || Older(b, c) ==> Older(a, c)
  {
    OlderTotal(a, b);
    OlderTotal(b, c);
    if a.Some? && b.Some? && c.Some? {
      TotalOrder(a.value, b.value);
      TotalOrder(b.value, c.value);
      TotalOrder(a.value, c.value);
      Transitive(a.value, b.value, c.value);
    }
  }

  function Oldest(a: Option<Timestamp>, b: Option<Timestamp>): Option<Timestamp> { if Older(b, a) then b else a }
  function Newest(a: Option<Timestamp>, b: Option<Timestamp>): Option<Timestamp> { if Older(a, b) then b else a }

  /** The low watermark of the slots: their oldest entry, and `top` over no slots at all. */
  function Low(slots: seq<Option<Timestamp>>): Option<Timestamp> {
    if slots == [] then Some(Top()) else Oldest(Low(slots[..|slots| - 1]), slots[|slots| - 1])
  }

  /** It is a lower bound, and it is attained. */
  lemma {:induction false} LowIsMinimum(slots: seq<Option<Timestamp>>)
    ensures forall x <- slots :: !Older(x, Low(slots))
    ensures Low(slots) in slots || Low(slots) == Some(Top())
  {
    if slots != [] {
      var init, last := slots[..|slots| - 1], slots[|slots| - 1];
      LowIsMinimum(init);
      OlderTotal(Low(init), last);
      forall x <- slots ensures !Older(x, Low(slots)) {
        if x in init {
          if Older(last, Low(init)) { OlderTransitive(last, Low(init), x); }
        } else {
          OlderTotal(last, last);
        }
      }
    }
  }

  /** Raising slots raises the low watermark. */
  lemma LowMonotone(a: seq<Option<Timestamp>>, b: seq<Option<Timestamp>>)
    requires |a| == |b| && forall i :: 0 <= i < |a| ==> !Older(b[i], a[i])
    ensures !Older(Low(b), Low(a))
  {
    LowIsMinimum(a);
    LowIsMinimum(b);
    if Low(b) in b {
      var i :| 0 <= i < |b| && b[i] == Low(b);
      assert a[i] in a;
      OlderTransitive(Low(a), a[i], b[i]);
    } else if Low(a).Some? {
      TotalOrder(Low(a).value, Top());
    }
  }

  // ---------------------------------------------------------------------------------------------
  // One bundle.

  datatype Bundle = Bundle(
    ids: seq<StreamId>,
    slots: seq<Option<Timestamp>>,
    callbacks: seq<Priority>,
    readIds: set<Uuid>,
    writeIds: set<Uuid>,
    children: seq<int>
  )

  datatype Outcome = Stale | Quiet | Fires(low: Timestamp)

  /** The first position of s. */
  function Position(ids: seq<StreamId>, s: StreamId): (i: nat)
    ensures i <= |ids|
    ensures i < |ids| ==> ids[i] == s
    ensures s !in ids[..i]
  {
    if ids == [] || ids[0] == s then 0 else 1 + Position(ids[1..], s)
  }

  function Verdict(before: Option<Timestamp>, now: Option<Timestamp>): Outcome {
    if now.Some? && (before.None? || Lt(before.value, now.value)) then Fires(now.value) else Quiet
  }

  /** `receive_watermark` without its children. */
  function Receive(b: Bundle, s: StreamId, t: Timestamp): (Bundle, Outcome)
    requires |b.slots| == |b.ids|
  {
    var i := Position(b.ids, s);
    if i == |b.ids| then (b, Verdict(Low(b.slots), Low(b.slots)))
    else if Older(b.slots[i], Some(t)) then
      var b' := b.(slots := b.slots[i := Some(t)]);
      (b', Verdict(Low(b.slots), Low(b'.slots)))
    else (b, Stale)
  }

  predicate Sorted(ps: seq<Priority>) { forall i, j :: 0 <= i < j < |ps| ==> ps[i] <= ps[j] }

  /** `add_watermark_callback_with_priority`: push and sort (stably) by priority. */
  function AddPriority(ps: seq<Priority>, p: Priority): seq<Priority> {
    if ps == [] || p < ps[0] then [p] + ps else [ps[0]] + AddPriority(ps[1..], p)
  }

  lemma {:induction false} AddPriorityKeeps(ps: seq<Priority>, p: Priority)
    ensures multiset(AddPriority(ps, p)) == multiset(ps) + multiset{p}
  {
    if ps != [] && ps[0] <= p {
      AddPriorityKeeps(ps[1..], p);
      assert ps == [ps[0]] + ps[1..];
    }
  }

  lemma {:induction false} AddPrioritySorts(ps: seq<Priority>, p: Priority)
    requires Sorted(ps)
    ensures Sorted(AddPriority(ps, p))
  {
    if ps != [] && ps[0] <= p {
      AddPrioritySorts(ps[1..], p);
      var r := AddPriority(ps[1..], p);
      AddPriorityKeeps(ps[1..], p);
      forall j | 0 <= j < |r| ensures ps[0] <= r[j] {
        assert r[j] in multiset(r);
        if r[j] != p { assert r[j] in ps[1..]; }
      }
    }
  }
}
