/** Callback invocations and the precedence order the lattice executes them in. */
module OperatorEvents {
  import opened Timestamps

  type Uuid = nat
  type Priority = p: int | -128 <= p < 128

  /** One invocation of a callback; the closure itself is represented by the event's identity. */
  datatype OperatorEvent = OperatorEvent(
    timestamp: Timestamp,
    isWatermark: bool,
    priority: Priority,
    readIds: set<Uuid>,
    writeIds: set<Uuid>
  )

  /** The result of comparing two events; `Circular` is the panic on a circular dependency. */
  datatype Comparison = Precedes | Unordered | Follows | Circular {
    function Reverse(): Comparison {
      match this
      case Precedes => Follows
      case Follows => Precedes
      case _ => this
    }
  }

  function Lift(o: Ordering): Comparison {
    match o
    case Less => Precedes
    case Equal => Unordered
    case Greater => Follows
  }

  function ResolveAccessConflicts(x: OperatorEvent, y: OperatorEvent): Comparison {
    if x.writeIds !! y.writeIds then
      match (!(x.readIds !! y.writeIds), !(x.writeIds !! y.readIds))
      case (true, true) => Circular
      case (true, false) => Follows
      case (false, true) => Precedes
      case (false, false) => Lift(CmpInt(x.priority, y.priority))
    else if x.priority != y.priority then
      Lift(CmpInt(x.priority, y.priority))
    else
      Lift(CmpInt(|x.readIds| + |x.writeIds|, |y.readIds| + |y.writeIds|))
  }

  /** A watermark event against a message event. */
  function CmpWatermarkMessage(w: OperatorEvent, m: OperatorEvent): Comparison {
    if Cmp(w.timestamp, m.timestamp) == Less then Unordered else Follows
  }

  /** `Ord for OperatorEvent`: `Precedes` means the first event runs first. */
  function Compare(x: OperatorEvent, y: OperatorEvent): Comparison {
    match (x.isWatermark, y.isWatermark)
    case (true, true) => (
      match Cmp(x.timestamp, y.timestamp)
      case Less => Precedes
      case Greater => Follows
      case Equal =>
        var r := ResolveAccessConflicts(x, y);
        if r == Unordered then Follows else r)
    case (true, false) => CmpWatermarkMessage(x, y)
    case (false, true) => CmpWatermarkMessage(y, x).Reverse()
    case (false, false) => ResolveAccessConflicts(x, y)
  }

  /** A message event as the read streams build it (`make_events`). */
  predicate StreamMade(e: OperatorEvent) {
    !e.isWatermark && e.readIds == {} && |e.writeIds| <= 1 && e.priority == 0
  }

  predicate NoConflict(x: OperatorEvent, y: OperatorEvent) {
    x.writeIds !! y.writeIds && x.readIds !! y.writeIds && x.writeIds !! y.readIds
  }

  /** Two watermark events that the comparison puts in one definite order. */
  predicate Strict(x: OperatorEvent, y: OperatorEvent) {
    || (Compare(x, y) == Precedes && Compare(y, x) == Follows)
    || (Compare(x, y) == Follows && Compare(y, x) == Precedes)
  }

  /** Stream-made messages are pairwise unordered, even when they write the same state. */
  lemma MessagesUnordered(x: OperatorEvent, y: OperatorEvent)
    requires StreamMade(x) && StreamMade(y)
    ensures Compare(x, y) == Unordered
  {
    if !(x.writeIds !! y.writeIds) {
      var id :| id in x.writeIds && id in y.writeIds;
      assert |x.writeIds| == 1 && |y.writeIds| == 1;
    }
  }

  /** A message and a watermark: the message goes first exactly when its timestamp is not larger,
      and otherwise neither waits for the other. */
  lemma MessageBeforeWatermark(m: OperatorEvent, w: OperatorEvent)
    requires !m.isWatermark && w.isWatermark
    ensures Compare(m, w) == if Le(m.timestamp, w.timestamp) then Precedes else Unordered
    ensures Compare(w, m) == Compare(m, w).Reverse()
  {
    TotalOrder(m.timestamp, w.timestamp);
  }

  /** Watermarks with different (timestamp, priority) and no access conflict are strictly ordered,
      lexicographically by timestamp and then priority. */
  lemma WatermarksStrict(x: OperatorEvent, y: OperatorEvent)
    requires x.isWatermark && y.isWatermark && NoConflict(x, y)
    ensures Strict(x, y) <==> (x.timestamp, x.priority) != (y.timestamp, y.priority)
    ensures Strict(x, y) ==>
      (Compare(x, y) == Precedes <==>
        Lt(x.timestamp, y.timestamp) || (x.timestamp == y.timestamp && x.priority < y.priority))
  {
    TotalOrder(x.timestamp, y.timestamp);
  }

  /** The comparison of two watermarks panics exactly if they have the same timestamp, write nothing in common, and each
      reads what the other writes. */
  lemma CircularExactly(x: OperatorEvent, y: OperatorEvent)
    requires x.isWatermark && y.isWatermark
    ensures Compare(x, y) == Circular <==>
      x.timestamp == y.timestamp && x.writeIds !! y.writeIds && !(x.readIds !! y.writeIds) && !(x.writeIds !! y.readIds)
  {
    TotalOrder(x.timestamp, y.timestamp);
  }

  /** At one timestamp, a watermark that writes what another one reads goes first, whatever their priorities. */
  lemma WriterFirst(x: OperatorEvent, y: OperatorEvent)
    requires x.isWatermark && y.isWatermark && x.timestamp == y.timestamp
    requires x.writeIds !! y.writeIds && x.readIds !! y.writeIds
    ensures !(x.writeIds !! y.readIds) ==> Compare(x, y) == Precedes && Compare(y, x) == Follows
  {
    TotalOrder(x.timestamp, y.timestamp);
    assert x.writeIds !! y.readIds <==> y.readIds !! x.writeIds;
  }

  /** Two that write the same state go by priority, and then the one with fewer dependencies first. */
  lemma WritersInTurn(x: OperatorEvent, y: OperatorEvent)
    requires x.isWatermark && y.isWatermark && x.timestamp == y.timestamp && !(x.writeIds !! y.writeIds)
    ensures var m, n := |x.readIds| + |x.writeIds|, |y.readIds| + |y.writeIds|;
      && (x.priority < y.priority || (x.priority == y.priority && m < n) ==> Compare(x, y) == Precedes && Compare(y, x) == Follows)
      && (x.priority == y.priority && m == n ==> Compare(x, y) == Follows && Compare(y, x) == Follows)
  {
    TotalOrder(x.timestamp, y.timestamp);
  }

  /** On a full tie each watermark is told to run after the other one. */
  lemma TiedWatermarksFollowEachOther(x: OperatorEvent, y: OperatorEvent)
    requires x.isWatermark && y.isWatermark && NoConflict(x, y)
    requires x.timestamp == y.timestamp && x.priority == y.priority
    ensures Compare(x, y) == Follows && Compare(y, x) == Follows
  {
    TotalOrder(x.timestamp, y.timestamp);
  }

  /** Two watermarks that are each told to run after the other. */
  predicate Tied(x: OperatorEvent, y: OperatorEvent) { Compare(x, y) == Follows && Compare(y, x) == Follows }

  /** Precedence is transitive at x, y, z, and does not tell y and z apart if they tie. */
  predicate Coherent(x: OperatorEvent, y: OperatorEvent, z: OperatorEvent) {
    && (Compare(x, y) == Precedes && Compare(y, z) == Precedes ==> Compare(x, z) == Precedes)
    && (Tied(y, z) && Compare(x, y) == Precedes ==> Compare(x, z) == Precedes)
    && (Tied(y, z) && Compare(y, x) == Precedes ==> Compare(z, x) == Precedes)
  }

  /** Precedence orders the watermarks of a family up to ties, and ties are interchangeable. */
  ghost predicate WeakFamily<K(!new)>(w: map<K, OperatorEvent>) {
    && (forall k <- w :: w[k].isWatermark || StreamMade(w[k]))
    && (forall j <- w, k <- w | j != k && w[j].isWatermark && w[k].isWatermark ::
          Strict(w[j], w[k]) || Tied(w[j], w[k]))
    && (forall i <- w, j <- w, k <- w {:trigger Coherent(w[i], w[j], w[k])} |
          w[i].isWatermark && w[j].isWatermark && w[k].isWatermark && j != k :: Coherent(w[i], w[j], w[k]))
  }

  predicate AllTied(x: OperatorEvent, y: OperatorEvent, z: OperatorEvent, u: OperatorEvent) {
    Tied(x, y) && Tied(y, z) && Tied(z, u)
  }

  /** No four watermarks of the family are tied. */
  ghost predicate FewTies<K(!new)>(w: map<K, OperatorEvent>) {
    forall a <- w, b <- w, c <- w, d <- w {:trigger AllTied(w[a], w[b], w[c], w[d])} |
      a != b && a != c && a != d && b != c && b != d && c != d :: !AllTied(w[a], w[b], w[c], w[d])
  }

  /** What the lattice copes with: a weak order with at most three watermarks in a tie. */
  ghost predicate Manageable<K(!new)>(w: map<K, OperatorEvent>) { WeakFamily(w) && FewTies(w) }

  lemma FewAt<K(!new)>(w: map<K, OperatorEvent>, a: K, b: K, c: K, d: K)
    requires FewTies(w) && a in w && b in w && c in w && d in w
    requires a != b && a != c && a != d && b != c && b != d && c != d
    ensures !(Tied(w[a], w[b]) && Tied(w[b], w[c]) && Tied(w[c], w[d]))
  {
    assert !AllTied(w[a], w[b], w[c], w[d]);
  }

  /** The events of w are among those of `big`, at different places. */
  ghost predicate Within<J(!new), K(!new)>(w: map<J, OperatorEvent>, big: map<K, OperatorEvent>, place: map<J, K>) {
    && place.Keys == w.Keys
    && (forall j <- w :: place[j] in big && big[place[j]] == w[j])
    && (forall i <- w, j <- w | i != j :: place[i] != place[j])
  }

  lemma SubfamilyWeak<J(!new), K(!new)>(w: map<J, OperatorEvent>, big: map<K, OperatorEvent>, place: map<J, K>)
    requires WeakFamily(big) && Within(w, big, place)
    ensures WeakFamily(w)
  {
    hide Coherent, Strict, Tied, StreamMade;
    forall j <- w, k <- w | j != k && w[j].isWatermark && w[k].isWatermark ensures Strict(w[j], w[k]) || Tied(w[j], w[k]) {
      assert Strict(big[place[j]], big[place[k]]) || Tied(big[place[j]], big[place[k]]);
    }
    forall i <- w, j <- w, k <- w | w[i].isWatermark && w[j].isWatermark && w[k].isWatermark && j != k
      ensures Coherent(w[i], w[j], w[k])
    {
      assert Coherent(big[place[i]], big[place[j]], big[place[k]]);
    }
  }

  lemma SubfamilyFew<J(!new), K(!new)>(w: map<J, OperatorEvent>, big: map<K, OperatorEvent>, place: map<J, K>)
    requires FewTies(big) && Within(w, big, place)
    ensures FewTies(w)
  {
    hide AllTied;
    forall a <- w, b <- w, c <- w, d <- w |
      a != b && a != c && a != d && b != c && b != d && c != d
      ensures !AllTied(w[a], w[b], w[c], w[d])
    {
      assert !AllTied(big[place[a]], big[place[b]], big[place[c]], big[place[d]]);
    }
  }

  /** Part of a manageable family is manageable. */
  lemma Subfamily<J(!new), K(!new)>(w: map<J, OperatorEvent>, big: map<K, OperatorEvent>, place: map<J, K>)
    requires Manageable(big) && Within(w, big, place)
    ensures Manageable(w)
  {
    SubfamilyWeak(w, big, place);
    SubfamilyFew(w, big, place);
  }

  // ---------------------------------------------------------------------------------------------
  // Families in which conflicts do not matter.

  /** Priorities order x and y whatever they access: if one reads what the other writes, the writer has the smaller
      priority, and if both write the same state, they have equally many dependencies or different priorities. */
  predicate Compatible(x: OperatorEvent, y: OperatorEvent) {
    if x.writeIds !! y.writeIds then
      && (!(x.writeIds !! y.readIds) ==> x.priority < y.priority)
      && (!(y.writeIds !! x.readIds) ==> y.priority < x.priority)
    else x.priority == y.priority ==> |x.readIds| + |x.writeIds| == |y.readIds| + |y.writeIds|
  }

  /** Watermarks of one timestamp are ordered by their priorities alone. */
  ghost predicate PriorityOrdered<K(!new)>(w: map<K, OperatorEvent>) {
    && (forall k <- w :: w[k].isWatermark || StreamMade(w[k]))
    && (forall j <- w, k <- w | j != k && w[j].isWatermark && w[k].isWatermark && w[j].timestamp == w[k].timestamp ::
          Compatible(w[j], w[k]))
  }

  /** The watermarks that share a timestamp and a priority. */
  ghost function TieClass<K(!new)>(w: map<K, OperatorEvent>, t: Timestamp, p: Priority): set<K> {
    set k <- w | w[k].isWatermark && w[k].timestamp == t && w[k].priority == p
  }

  /** Priorities decide, and at most n watermarks share a timestamp and a priority. */
  ghost predicate TiesAtMost<K(!new)>(w: map<K, OperatorEvent>, n: nat) {
    PriorityOrdered(w) && forall t, p :: |TieClass(w, t, p)| <= n
  }

  /** Earlier in time, or at the same time with a smaller priority. */
  predicate Earlier(x: OperatorEvent, y: OperatorEvent) {
    Lt(x.timestamp, y.timestamp) || (x.timestamp == y.timestamp && x.priority < y.priority)
  }

  /** Between compatible watermarks precedence is the lexicographic order, and ties share timestamp and priority. */
  lemma CompareByKey(x: OperatorEvent, y: OperatorEvent)
    requires x.isWatermark && y.isWatermark && (x.timestamp == y.timestamp ==> Compatible(x, y))
    ensures Compare(x, y) == Precedes <==> Earlier(x, y)
    ensures Compare(x, y) != Precedes ==> Compare(x, y) == Follows
    ensures Tied(x, y) <==> x.timestamp == y.timestamp && x.priority == y.priority
    ensures !Tied(x, y) ==> Strict(x, y)
  {
    TotalOrder(x.timestamp, y.timestamp);
  }

  lemma EarlierTransitive(x: OperatorEvent, y: OperatorEvent, z: OperatorEvent)
    requires Earlier(x, y) && Earlier(y, z)
    ensures Earlier(x, z) && !Earlier(z, x)
  {
    TotalOrder(x.timestamp, y.timestamp);
    TotalOrder(y.timestamp, z.timestamp);
    TotalOrder(x.timestamp, z.timestamp);
    Transitive(x.timestamp, y.timestamp, z.timestamp);
  }

  lemma PriorityOrderedIsWeak<K(!new)>(w: map<K, OperatorEvent>)
    requires PriorityOrdered(w)
    ensures WeakFamily(w)
  {
    hide Compare, Lt, Coherent;
    forall j <- w, k <- w | j != k && w[j].isWatermark && w[k].isWatermark
      ensures Strict(w[j], w[k]) || Tied(w[j], w[k])
    {
      CompareByKey(w[j], w[k]);
    }
    forall i <- w, j <- w, k <- w | w[i].isWatermark && w[j].isWatermark && w[k].isWatermark && j != k
      ensures Coherent(w[i], w[j], w[k])
    {
      if i != j && i != k {
        CoherentByKey(w[i], w[j], w[k]);
      } else {
        NeverBeforeItself(w[i]);
        CompareByKey(w[j], w[k]);
        CoherentRepeated(w[i], w[j], w[k]);
      }
    }
  }

  lemma CoherentByKey(x: OperatorEvent, y: OperatorEvent, z: OperatorEvent)
    requires x.isWatermark && y.isWatermark && z.isWatermark
    requires x.timestamp == y.timestamp ==> Compatible(x, y)
    requires y.timestamp == z.timestamp ==> Compatible(y, z)
    requires x.timestamp == z.timestamp ==> Compatible(x, z)
    ensures Coherent(x, y, z)
  {
    hide Compare, Lt;
    CompareByKey(x, y);
    CompareByKey(y, z);
    CompareByKey(x, z);
    CompareByKey(y, x);
    CompareByKey(z, x);
    if Earlier(x, y) && Earlier(y, z) { EarlierTransitive(x, y, z); }
  }

  lemma CoherentRepeated(x: OperatorEvent, y: OperatorEvent, z: OperatorEvent)
    requires (x == y || x == z) && Compare(x, x) != Precedes && (Strict(y, z) || Tied(y, z))
    ensures Coherent(x, y, z)
  {
  }

  /** Where priorities decide, at most three watermarks with the same timestamp and priority are manageable. */
  lemma ThreeTiesManageable<K(!new)>(w: map<K, OperatorEvent>)
    requires TiesAtMost(w, 3)
    ensures Manageable(w)
  {
    hide Compare, WeakFamily, AllTied, TiesAtMost;
    TiesFree(w, 3);
    PriorityOrderedIsWeak(w);
    forall a <- w, b <- w, c <- w, d <- w |
      a != b && a != c && a != d && b != c && b != d && c != d
      ensures !AllTied(w[a], w[b], w[c], w[d])
    {
      NotFour(w, a, b, c, d);
    }
  }

  lemma TiesFree<K(!new)>(w: map<K, OperatorEvent>, n: nat)
    requires TiesAtMost(w, n)
    ensures PriorityOrdered(w)
  {
  }

  lemma NotFour<K(!new)>(w: map<K, OperatorEvent>, a: K, b: K, c: K, d: K)
    requires TiesAtMost(w, 3) && a in w && b in w && c in w && d in w
    requires a != b && a != c && a != d && b != c && b != d && c != d
    ensures !AllTied(w[a], w[b], w[c], w[d])
  {
    hide Compare;
    TiedAreMarks(w, a, b);
    TiedAreMarks(w, b, c);
    TiedAreMarks(w, c, d);
    var s := TieClass(w, w[a].timestamp, w[a].priority);
    if {a, b, c, d} <= s {
      AtLeastFour(s, a, b, c, d);
    }
  }

  /** Only watermarks of one timestamp and priority tie. */
  lemma TiedAreMarks<K(!new)>(w: map<K, OperatorEvent>, j: K, k: K)
    requires PriorityOrdered(w) && j in w && k in w && j != k
    ensures Tied(w[j], w[k]) ==>
      w[j].isWatermark && w[k].isWatermark && w[j].timestamp == w[k].timestamp && w[j].priority == w[k].priority
  {
    if w[j].isWatermark && w[k].isWatermark {
      CompareByKey(w[j], w[k]);
    } else if w[j].isWatermark {
      MessageBeforeWatermark(w[k], w[j]);
    } else if w[k].isWatermark {
      MessageBeforeWatermark(w[j], w[k]);
    } else {
      MessagesUnordered(w[j], w[k]);
    }
  }

  lemma AtLeastFour<K>(s: set<K>, a: K, b: K, c: K, d: K)
    requires {a, b, c, d} <= s && a != b && a != c && a != d && b != c && b != d && c != d
    ensures |s| >= 4
  {
    var rest := s - {a, b, c, d};
    assert s == {a, b, c, d} + rest;
  }

  /** A watermark event that accesses nothing. */
  function Bare(t: Timestamp, p: Priority): OperatorEvent { OperatorEvent(t, true, p, {}, {}) }

  ghost predicate WeakWith(x: OperatorEvent, y: OperatorEvent, p: Priority) {
    WeakFamily(map[0 := x, 1 := y, 2 := Bare(x.timestamp, p)])
  }

  /** Compatible is exactly what it takes: only then is precedence a weak order next to any callback without conflicts. */
  lemma CompatibleExactly(x: OperatorEvent, y: OperatorEvent)
    requires x.isWatermark && y.isWatermark && x.timestamp == y.timestamp
    ensures Compatible(x, y) <==> forall p :: WeakWith(x, y, p)
  {
    hide WeakFamily;
    if Compatible(x, y) {
      forall p ensures WeakWith(x, y, p) { PriorityOrderedIsWeak(map[0 := x, 1 := y, 2 := Bare(x.timestamp, p)]); }
    } else if Compare(x, y) == Precedes {
      Inverted(x, y);
      NotWeak(x, y, 0, 1, 2, map[0 := x, 1 := y, 2 := Bare(x.timestamp, y.priority)]);
      assert !WeakWith(x, y, y.priority);
    } else {
      NotCompatible(x, y);
      NotWeak(y, x, 1, 0, 2, map[0 := x, 1 := y, 2 := Bare(x.timestamp, x.priority)]);
      assert !WeakWith(x, y, x.priority);
    }
  }

  lemma NotCompatible(x: OperatorEvent, y: OperatorEvent)
    requires x.isWatermark && y.isWatermark && x.timestamp == y.timestamp && !Compatible(x, y) && Compare(x, y) != Precedes
    ensures Compare(x, y) == Circular || (Compare(y, x) == Precedes && x.priority <= y.priority)
  {
    TotalOrder(x.timestamp, y.timestamp);
  }

  lemma Inverted(x: OperatorEvent, y: OperatorEvent)
    requires x.isWatermark && y.isWatermark && x.timestamp == y.timestamp && !Compatible(x, y) && Compare(x, y) == Precedes
    ensures y.priority <= x.priority
  {
    TotalOrder(x.timestamp, y.timestamp);
  }

  /** An event that goes before another one of no larger priority, and a bare one that ties with the latter. */
  lemma NotWeak(first: OperatorEvent, second: OperatorEvent, i: int, j: int, k: int, w: map<int, OperatorEvent>)
    requires first.isWatermark && second.isWatermark && first.timestamp == second.timestamp
    requires Compare(first, second) == Circular || (Compare(first, second) == Precedes && second.priority <= first.priority)
    requires i in w && j in w && k in w && i != j && j != k
    requires w[i] == first && w[j] == second && w[k] == Bare(first.timestamp, second.priority)
    ensures !WeakFamily(w)
  {
    TotalOrder(first.timestamp, first.timestamp);
    if Compare(first, second) == Precedes {
      assert Tied(w[j], w[k]) && Compare(w[i], w[k]) != Precedes;
      assert !Coherent(w[i], w[j], w[k]);
    } else {
      assert !Strict(w[i], w[j]) && !Tied(w[i], w[j]);
    }
  }

  // ---------------------------------------------------------------------------------------------
  // Timestamps decide between watermarks of different timestamps.

  /** The watermarks of timestamp t. */
  ghost function TimeClass<K(!new)>(w: map<K, OperatorEvent>, t: Timestamp): map<K, OperatorEvent> {
    map k | k in w && w[k].isWatermark && w[k].timestamp == t :: w[k]
  }

  lemma CompareByTime(x: OperatorEvent, y: OperatorEvent)
    requires x.isWatermark && y.isWatermark
    ensures Lt(x.timestamp, y.timestamp) ==> Compare(x, y) == Precedes && Compare(y, x) == Follows
    ensures Compare(x, y) == Precedes ==> Le(x.timestamp, y.timestamp)
    ensures Tied(x, y) ==> x.timestamp == y.timestamp
    ensures x.timestamp != y.timestamp ==> Strict(x, y)
  {
    TotalOrder(x.timestamp, y.timestamp);
  }

  lemma CoherentByTime(x: OperatorEvent, y: OperatorEvent, z: OperatorEvent)
    requires x.isWatermark && y.isWatermark && z.isWatermark && !(x.timestamp == y.timestamp == z.timestamp)
    ensures Coherent(x, y, z)
  {
    hide Compare;
    CompareByTime(x, y);
    CompareByTime(y, x);
    CompareByTime(y, z);
    CompareByTime(x, z);
    CompareByTime(z, x);
    TotalOrder(x.timestamp, y.timestamp);
    TotalOrder(y.timestamp, z.timestamp);
    TotalOrder(x.timestamp, z.timestamp);
    if Le(x.timestamp, y.timestamp) && Le(y.timestamp, z.timestamp) { Transitive(x.timestamp, y.timestamp, z.timestamp); }
  }

  lemma WeakByTime<K(!new)>(w: map<K, OperatorEvent>)
    requires (forall k <- w :: w[k].isWatermark || StreamMade(w[k])) && forall t :: WeakFamily(TimeClass(w, t))
    ensures WeakFamily(w)
  {
    hide Compare, Coherent, Strict, Tied, StreamMade;
    forall j <- w, k <- w | j != k && w[j].isWatermark && w[k].isWatermark ensures Strict(w[j], w[k]) || Tied(w[j], w[k]) {
      CompareByTime(w[j], w[k]);
      var v := TimeClass(w, w[j].timestamp);
      if w[j].timestamp == w[k].timestamp { assert Strict(v[j], v[k]) || Tied(v[j], v[k]); }
    }
    forall i <- w, j <- w, k <- w | w[i].isWatermark && w[j].isWatermark && w[k].isWatermark && j != k
      ensures Coherent(w[i], w[j], w[k])
    {
      if w[i].timestamp == w[j].timestamp == w[k].timestamp {
        var v := TimeClass(w, w[j].timestamp);
        assert Coherent(v[i], v[j], v[k]);
      } else {
        CoherentByTime(w[i], w[j], w[k]);
      }
    }
  }

  /** Events are manageable if those of each timestamp are. */
  lemma ManageableByTime<K(!new)>(w: map<K, OperatorEvent>)
    requires (forall k <- w :: w[k].isWatermark || StreamMade(w[k])) && forall t :: Manageable(TimeClass(w, t))
    ensures Manageable(w)
  {
    hide WeakFamily, FewTies, AllTied, StreamMade;
    assert forall t :: WeakFamily(TimeClass(w, t)) by {
      forall t ensures WeakFamily(TimeClass(w, t)) { assert Manageable(TimeClass(w, t)); }
    }
    WeakByTime(w);
    FewTiesByTime(w);
  }

  lemma FewTiesByTime<K(!new)>(w: map<K, OperatorEvent>)
    requires (forall k <- w :: w[k].isWatermark || StreamMade(w[k])) && forall t :: Manageable(TimeClass(w, t))
    ensures FewTies(w)
  {
    hide Manageable, AllTied, StreamMade;
    forall a <- w, b <- w, c <- w, d <- w |
      a != b && a != c && a != d && b != c && b != d && c != d
      ensures !AllTied(w[a], w[b], w[c], w[d])
    {
      FewByTime(w, a, b, c, d);
    }
  }

  lemma FewByTime<K(!new)>(w: map<K, OperatorEvent>, a: K, b: K, c: K, d: K)
    requires (forall k <- w :: w[k].isWatermark || StreamMade(w[k])) && forall t :: Manageable(TimeClass(w, t))
    requires a in w && b in w && c in w && d in w && a != b && a != c && a != d && b != c && b != d && c != d
    ensures !AllTied(w[a], w[b], w[c], w[d])
  {
    hide Compare, StreamMade, WeakFamily;
    if w[a].isWatermark && w[b].isWatermark && w[c].isWatermark && w[d].isWatermark {
      CompareByTime(w[a], w[b]);
      CompareByTime(w[b], w[c]);
      CompareByTime(w[c], w[d]);
      var v := TimeClass(w, w[a].timestamp);
      if w[a].timestamp == w[b].timestamp == w[c].timestamp == w[d].timestamp { FewAt(v, a, b, c, d); }
    } else {
      if !w[a].isWatermark { MessageNeverTies(w[a], w[b]); }
      if !w[b].isWatermark { MessageNeverTies(w[b], w[c]); }
      if !w[c].isWatermark { MessageNeverTies(w[c], w[d]); }
      if !w[d].isWatermark { MessageNeverTies(w[d], w[c]); }
    }
  }

  lemma MessageNeverTies(m: OperatorEvent, x: OperatorEvent)
    requires StreamMade(m) && (x.isWatermark || StreamMade(x))
    ensures !Tied(m, x) && !Tied(x, m)
  {
    if x.isWatermark { MessageBeforeWatermark(m, x); } else { MessagesUnordered(m, x); }
  }

  lemma NeverBeforeItself(x: OperatorEvent)
    ensures Compare(x, x) != Precedes
  {
    TotalOrder(x.timestamp, x.timestamp);
  }

  /** Because a conflict overrides the priorities, precedence between watermarks of one timestamp can be circular: a
      writes what b reads, b has a smaller priority than c, and c a smaller one than a. */
  lemma PrecedenceCanCircle(t: Timestamp, id: Uuid, low: Priority, mid: Priority, high: Priority)
    requires low < mid < high
    ensures var a := OperatorEvent(t, true, high, {}, {id});
      var b := OperatorEvent(t, true, low, {id}, {});
      var c := OperatorEvent(t, true, mid, {}, {});
      && Compare(a, b) == Precedes && Compare(b, c) == Precedes && Compare(c, a) == Precedes
      && Compare(b, a) == Follows && Compare(c, b) == Follows && Compare(a, c) == Follows
  {
    TotalOrder(t, t);
    assert id in {id} * {id};
  }
}
