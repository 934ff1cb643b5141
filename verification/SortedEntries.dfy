/** Ordered maps from timestamps, as strictly sorted sequences of entries. */
module SortedEntries {
  import opened Timestamps

  type Entries<V> = seq<(Timestamp, V)>

  ghost predicate Sorted<V>(es: Entries<V>) {
    forall i, j :: 0 <= i < j < |es| ==> Lt(es[i].0, es[j].0)
  }

  /** How many keys are smaller than t. */
  function Rank<V>(es: Entries<V>, t: Timestamp): (n: nat)
    ensures n <= |es|
  {
    if es == [] || !Lt(es[0].0, t) then 0 else 1 + Rank(es[1..], t)
  }

  lemma {:induction false} RankSplits<V>(es: Entries<V>, t: Timestamp)
    requires Sorted(es)
    ensures forall i :: 0 <= i < Rank(es, t) ==> Lt(es[i].0, t)
    ensures forall i :: Rank(es, t) <= i < |es| ==> Le(t, es[i].0)
  {
    if es != [] {
      TotalOrder(es[0].0, t);
      if Lt(es[0].0, t) {
        RankSplits(es[1..], t);
        forall i | Rank(es, t) <= i < |es| ensures Le(t, es[i].0) { assert es[i] == es[1..][i - 1]; }
      } else {
        forall i | 0 <= i < |es| ensures Le(t, es[i].0) {
          if i > 0 { Transitive(t, es[0].0, es[i].0); }
        }
      }
    }
  }

  predicate Has<V>(es: Entries<V>, t: Timestamp) {
    Rank(es, t) < |es| && es[Rank(es, t)].0 == t
  }

  /** How many keys are at most t. */
  function RankThrough<V>(es: Entries<V>, t: Timestamp): (n: nat)
    ensures n <= |es|
  {
    if Has(es, t) then Rank(es, t) + 1 else Rank(es, t)
  }

  lemma RankIs<V>(es: Entries<V>, t: Timestamp, n: nat)
    requires Sorted(es) && n <= |es|
    requires forall i :: 0 <= i < n ==> Lt(es[i].0, t)
    requires n < |es| ==> Le(t, es[n].0)
    ensures Rank(es, t) == n
  {
    RankSplits(es, t);
    if Rank(es, t) < n {
      TotalOrder(es[Rank(es, t)].0, t);
    } else if n < Rank(es, t) {
      TotalOrder(es[n].0, t);
    }
  }

  lemma HasExact<V>(es: Entries<V>, t: Timestamp)
    requires Sorted(es)
    ensures Has(es, t) <==> exists i :: 0 <= i < |es| && es[i].0 == t
    ensures forall i :: 0 <= i < |es| && es[i].0 == t ==> i == Rank(es, t)
  {
    RankSplits(es, t);
    TotalOrder(t, t);
    forall i | 0 <= i < |es| && es[i].0 == t ensures i == Rank(es, t) {
      if i > Rank(es, t) { TotalOrder(es[Rank(es, t)].0, t); }
    }
  }

  lemma ThroughSplits<V>(es: Entries<V>, t: Timestamp)
    requires Sorted(es)
    ensures forall i :: 0 <= i < RankThrough(es, t) ==> Le(es[i].0, t)
    ensures forall i :: RankThrough(es, t) <= i < |es| ==> Lt(t, es[i].0)
  {
    RankSplits(es, t);
    HasExact(es, t);
    TotalOrder(t, t);
    forall i | 0 <= i < |es| ensures i < RankThrough(es, t) ==> Le(es[i].0, t)
      ensures i >= RankThrough(es, t) ==> Lt(t, es[i].0)
    {
      TotalOrder(es[i].0, t);
    }
  }

  /** The value at key t is v. */
  function Put<V>(es: Entries<V>, t: Timestamp, v: V): Entries<V> {
    var n := Rank(es, t);
    if Has(es, t) then es[n := (t, v)] else es[..n] + [(t, v)] + es[n..]
  }

  lemma PutSorted<V>(es: Entries<V>, t: Timestamp, v: V)
    requires Sorted(es)
    ensures Sorted(Put(es, t, v)) && Has(Put(es, t, v), t) && Rank(Put(es, t, v), t) == Rank(es, t)
  {
    var n, r := Rank(es, t), Put(es, t, v);
    RankSplits(es, t);
    TotalOrder(t, t);
    forall i | n <= i < |es| ensures Lt(t, es[i].0) || es[i].0 == t { TotalOrder(t, es[i].0); }
    HasExact(es, t);
    forall i, j | 0 <= i < j < |r| ensures Lt(r[i].0, r[j].0) {
      if !Has(es, t) {
        if i < n < j { assert Lt(es[i].0, es[j - 1].0); }
      }
    }
    RankIs(r, t, n);
  }

  /** `split_off`: the entries from key t on. */
  function From<V>(es: Entries<V>, t: Timestamp): Entries<V> { es[Rank(es, t)..] }
}
