/** The timestamps that order every message, watermark and callback (`IntTimestamp`). */
module Timestamps {

  /** Rust's `std::cmp::Ordering`. */
  datatype Ordering = Less | Equal | Greater {
    function Reverse(): Ordering {
      match this
      case Less => Greater
      case Equal => Equal
      case Greater => Less
    }
  }

  function CmpInt(a: int, b: int): Ordering {
    if a < b then Less else if a == b then Equal else Greater
  }

  /** `IntTimestamp`: only `top()` sets `is_top`, and it does so with an empty vector. */
  datatype IntTimestamp = IntTimestamp(time: seq<nat>, isTop: bool)
  type Timestamp = t: IntTimestamp | t.isTop ==> t.time == [] witness IntTimestamp([], false)

  function Top(): Timestamp { IntTimestamp([], true) }
  function Bottom(): Timestamp { IntTimestamp([], false) }

  /** The lexicographic order of `Vec<u64>`. */
  function CmpTime(a: seq<nat>, b: seq<nat>): Ordering {
    if a == [] then (if b == [] then Equal else Less)
    else if b == [] then Greater
    else if a[0] != b[0] then CmpInt(a[0], b[0])
    else CmpTime(a[1..], b[1..])
  }

  /** `Ord for IntTimestamp`. */
  function Cmp(a: Timestamp, b: Timestamp): Ordering {
    if a.isTop then (if b.isTop then Equal else Greater)
    else if b.isTop then Less
    else CmpTime(a.time, b.time)
  }

  predicate Lt(a: Timestamp, b: Timestamp) { Cmp(a, b) == Less }
  predicate Le(a: Timestamp, b: Timestamp) { Cmp(a, b) != Greater }

  lemma {:induction false} CmpTimeTotal(a: seq<nat>, b: seq<nat>)
    ensures CmpTime(b, a) == CmpTime(a, b).Reverse()
    ensures CmpTime(a, b) == Equal <==> a == b
  {
    if a != [] && b != [] && a[0] == b[0] {
      CmpTimeTotal(a[1..], b[1..]);
      assert a == [a[0]] + a[1..] && b == [b[0]] + b[1..];
    }
  }

  lemma {:induction false} CmpTimeTransitive(a: seq<nat>, b: seq<nat>, c: seq<nat>)
    requires CmpTime(a, b) != Greater && CmpTime(b, c) != Greater
    ensures CmpTime(a, c) != Greater
    ensures CmpTime(a, c) == Equal ==> CmpTime(a, b) == Equal && CmpTime(b, c) == Equal
  {
    if a != [] && b != [] && c != [] && a[0] == b[0] == c[0] {
      CmpTimeTransitive(a[1..], b[1..], c[1..]);
    }
  }

  /** a and b agree before position k, where a ends first or has the smaller number. */
  predicate SmallerAt(a: seq<nat>, b: seq<nat>, k: int) {
    0 <= k <= |a| && k < |b| && a[..k] == b[..k] && (k == |a| || a[k] < b[k])
  }

  /** The order of `Vec<u64>` in terms of positions: the first difference decides, and a prefix comes first. */
  lemma {:induction false} CmpTimeExactly(a: seq<nat>, b: seq<nat>)
    ensures CmpTime(a, b) == Less <==> exists k :: SmallerAt(a, b, k)
  {
    if a == [] || b == [] || a[0] != b[0] {
      if b != [] && (a == [] || a[0] < b[0]) { assert SmallerAt(a, b, 0); }
      forall k | SmallerAt(a, b, k) ensures k == 0 { }
    } else {
      CmpTimeExactly(a[1..], b[1..]);
      forall k | k >= 1 ensures SmallerAt(a, b, k) <==> SmallerAt(a[1..], b[1..], k - 1) {
        if k <= |a| && k <= |b| {
          assert a[..k] == [a[0]] + a[1..][..k - 1] && b[..k] == [b[0]] + b[1..][..k - 1];
        }
      }
      if j :| SmallerAt(a[1..], b[1..], j) { assert SmallerAt(a, b, j + 1); }
      if k :| SmallerAt(a, b, k) { assert SmallerAt(a[1..], b[1..], k - 1); }
    }
  }

  /** Earlier means smaller at the first difference, and everything is earlier than top. */
  lemma LtExactly(a: Timestamp, b: Timestamp)
    ensures Lt(a, b) <==> !a.isTop && (b.isTop || exists k :: SmallerAt(a.time, b.time, k))
  {
    CmpTimeExactly(a.time, b.time);
  }

  /** Timestamps are totally ordered, `bottom` is the least and `top` the greatest. */
  lemma TotalOrder(a: Timestamp, b: Timestamp)
    ensures Cmp(b, a) == Cmp(a, b).Reverse()
    ensures Cmp(a, b) == Equal <==> a == b
    ensures Le(Bottom(), a) && Le(a, Top())
  {
    CmpTimeTotal(a.time, b.time);
  }

  lemma Transitive(a: Timestamp, b: Timestamp, c: Timestamp)
    requires Le(a, b) && Le(b, c)
    ensures Le(a, c)
    ensures Lt(a, b) || Lt(b, c) ==> Lt(a, c)
  {
    if !a.isTop && !b.isTop && !c.isTop {
      CmpTimeTransitive(a.time, b.time, c.time);
    }
  }
}
