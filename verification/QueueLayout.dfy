/** How MPMCQueue spreads tickets over its slots: the choice of a stride that
    shares no divisor with the capacity, and the (slot, turn) pair every ticket
    gets from it. */
module QueueLayout {
  import opened DivMod

  // ---------------------------------------------------------------- divisors

  /** No number above one divides both. */
  ghost predicate Coprime(a: nat, b: nat) {
    forall d: nat {:trigger a % d, b % d} :: d > 1 ==> a % d != 0 || b % d != 0
  }

  ghost predicate Divides(d: int, a: int) {
    exists q: int :: a == d * q
  }

  /** Extended Euclid: some combination of a and b divides both. */
  lemma Bezout(a: nat, b: nat) returns (g: nat, x: int, y: int)
    requires a > 0 || b > 0
    ensures g > 0 && g == x * a + y * b
    ensures Divides(g, a) && Divides(g, b)
    decreases b
  {
    if b == 0 {
      g, x, y := a, 1, 0;
      assert a == g * 1 && b == g * 0;
    } else {
      var g', x', y' := Bezout(b, a % b);
      g, x, y := g', y', x' - y' * (a / b);
      BezoutStep(a, b, g, x', y');
    }
  }

  lemma BezoutStep(a: nat, b: nat, g: nat, x: int, y: int)
    requires b > 0 && g == x * b + y * (a % b) && Divides(g, b) && Divides(g, a % b)
    ensures g == y * a + (x - y * (a / b)) * b && Divides(g, a)
  {
    var q := a / b;
    assert a == b * q + a % b;
    var u: int :| b == g * u;
    var v: int :| a % b == g * v;
    assert (g * u) * q == g * (u * q);
    assert a == g * (u * q + v);
    calc {
      y * a + (x - y * q) * b;
      { assert (x - y * q) * b == x * b - (y * q) * b; }
      y * a + x * b - (y * q) * b;
      { assert (y * q) * b == y * (b * q); }
      y * a + x * b - y * (b * q);
      { assert y * a - y * (b * q) == y * (a - b * q); }
      x * b + y * (a % b);
    }
  }

  lemma DividesMod(d: int, a: nat)
    requires d > 0 && Divides(d, a)
    ensures a % d == 0
  {
    var q: int :| a == d * q;
    ModOfMultiple(d, q);
  }

  lemma ModOfMultiple(d: int, q: int)
    requires d > 0
    ensures (d * q) % d == 0
  {
    var r := (d * q) % d;
    var k := (d * q) / d;
    assert d * q == d * k + r;
    assert r == d * (q - k);
    MultipleGap(d, q - k);
  }

  /** A number coprime to m can be cancelled modulo m. */
  lemma CancelCoprime(m: nat, p: nat, d: int)
    requires m > 0 && p > 0 && Coprime(p, m)
    requires Divides(m, d * p)
    ensures Divides(m, d)
  {
    var g, x, y := Bezout(p, m);
    if g > 1 {
      DividesMod(g, p);
      DividesMod(g, m);
      assert false;
    }
    assert 1 == x * p + y * m;
    var e: int :| d * p == m * e;
    calc {
      d;
      d * (x * p + y * m);
      d * (x * p) + d * (y * m);
      { assert d * (x * p) == x * (d * p); assert d * (y * m) == m * (y * d); }
      x * (m * e) + m * (y * d);
      { assert x * (m * e) == m * (x * e); }
      m * (x * e) + m * (y * d);
      m * (x * e + y * d);
    }
  }

  lemma SameResidue(m: nat, a: int, b: int)
    requires m > 0
    ensures a % m == b % m <==> Divides(m, a - b)
  {
    assert a == m * (a / m) + a % m;
    assert b == m * (b / m) + b % m;
    if a % m == b % m {
      assert a - b == m * (a / m - b / m);
    }
    if Divides(m, a - b) {
      var q: int :| a - b == m * q;
      var k := a / m - b / m - q;
      assert a % m - b % m == -(m * k);
      MultipleGap(m, k);
    }
  }

  // ------------------------------------------------------------- the stride

  const SMALL_PRIMES: seq<nat> := [2, 3, 5, 7, 11, 13, 17, 19, 23]

  /** The candidates the loop does not skip. */
  predicate Admissible(p: nat, capacity: nat)
    requires p > 0 && capacity > 0
  {
    p % capacity != 0 && capacity % p != 0
  }

  /** How far apart, around the ring of slots, consecutive tickets land. */
  function Separation(stride: nat, capacity: nat): nat
    requires capacity > 0
  {
    var sep := stride % capacity;
    if sep < capacity - sep then sep else capacity - sep
  }

  predicate Prime(p: nat) {
    p > 1 && forall d | 1 < d < p :: p % d != 0
  }

  lemma SmallPrimesArePrime(i: nat)
    requires i < |SMALL_PRIMES|
    ensures Prime(SMALL_PRIMES[i])
  {
    var p := SMALL_PRIMES[i];
    assert p in {2, 3, 5, 7, 11, 13, 17, 19, 23};
    forall d | 1 < d < p ensures p % d != 0 {
      assert d <= 22;
    }
  }

  lemma PrimeCoprime(p: nat, capacity: nat)
    requires Prime(p) && capacity > 0 && capacity % p != 0
    ensures Coprime(p, capacity)
  {
    forall d: nat | d > 1 ensures p % d != 0 || capacity % d != 0 {
      if d > p {
        DivModUnique(p, d, 0, p);
      } else if d < p {
        assert p % d != 0;
      } else {
        assert capacity % d != 0;
      }
    }
  }

  /** computeStride: the first of the best-separated admissible primes, or 1. */
  method ComputeStride(capacity: nat) returns (stride: nat)
    requires capacity > 0
    ensures stride == 1 || (stride in SMALL_PRIMES && Admissible(stride, capacity))
    ensures Coprime(stride, capacity)
    ensures forall i | 0 <= i < |SMALL_PRIMES| && Admissible(SMALL_PRIMES[i], capacity) ::
              Separation(SMALL_PRIMES[i], capacity) <= if stride == 1 then 1 else Separation(stride, capacity)
    ensures stride != 1 ==> Separation(stride, capacity) > 1
    ensures forall i, j | 0 <= i < j < |SMALL_PRIMES| && SMALL_PRIMES[j] == stride && Admissible(SMALL_PRIMES[i], capacity) ::
              Separation(SMALL_PRIMES[i], capacity) < Separation(stride, capacity)
  {
    stride := 1;
    var bestSep := 1;
    for i := 0 to |SMALL_PRIMES|
      invariant stride == 1 ==> bestSep == 1
      invariant stride != 1 ==> stride in SMALL_PRIMES && Admissible(stride, capacity)
                                && bestSep == Separation(stride, capacity) && bestSep > 1
      invariant bestSep >= 1
      invariant Coprime(stride, capacity)
      invariant forall j | 0 <= j < i && Admissible(SMALL_PRIMES[j], capacity) ::
                  Separation(SMALL_PRIMES[j], capacity) <= bestSep
      invariant forall j, m | 0 <= j < m < |SMALL_PRIMES| && SMALL_PRIMES[m] == stride && Admissible(SMALL_PRIMES[j], capacity) ::
                  Separation(SMALL_PRIMES[j], capacity) < bestSep
    {
      var p := SMALL_PRIMES[i];
      SmallPrimesArePrime(i);
      if p % capacity == 0 || capacity % p == 0 {
        continue;
      }
      var sep := p % capacity;
      sep := if sep < capacity - sep then sep else capacity - sep;
      if sep > bestSep {
        stride := p;
        bestSep := sep;
        PrimeCoprime(p, capacity);
      }
    }
  }

  // ----------------------------------------------------- tickets and slots

  /** idx(ticket) without the padding offset. */
  function Idx(ticket: nat, stride: nat, capacity: nat): nat
    requires capacity > 0
  {
    (ticket * stride) % capacity
  }

  /** The shorter way around the ring between two slots. */
  function RingDistance(a: nat, b: nat, capacity: nat): int
  {
    var d := if a < b then b - a else a - b;
    if d < capacity - d then d else capacity - d
  }

  /** One more stride around the ring. */
  lemma NextSlot(x: nat, stride: nat, capacity: nat, next: nat)
    requires capacity > 0
    requires var a, sep := x % capacity, stride % capacity;
             next == if a + sep < capacity then a + sep else a + sep - capacity
    ensures (x + stride) % capacity == next
  {
    var q, w := x / capacity, stride / capacity;
    assert capacity * (q + w) == capacity * q + capacity * w;
    if x % capacity + stride % capacity < capacity {
      DivModUnique(x + stride, capacity, q + w, next);
    } else {
      assert capacity * (q + w + 1) == capacity * (q + w) + capacity;
      DivModUnique(x + stride, capacity, q + w + 1, next);
    }
  }

  /** What ComputeStride makes as large as it can: how far apart two consecutive tickets land. */
  lemma SeparationIsDistance(t: nat, stride: nat, capacity: nat)
    requires capacity > 0
    ensures RingDistance(Idx(t, stride, capacity), Idx(t + 1, stride, capacity), capacity) == Separation(stride, capacity)
  {
    var x := t * stride;
    assert (t + 1) * stride == x + stride;
    var a, sep := x % capacity, stride % capacity;
    NextSlot(x, stride, capacity, if a + sep < capacity then a + sep else a + sep - capacity);
  }

  /** turn(ticket), before it is truncated to 32 bits. */
  function Lap(ticket: nat, capacity: nat): nat
    requires capacity > 0
  {
    ticket / capacity
  }

  /** Two tickets share a slot exactly when they are congruent modulo the capacity. */
  lemma SlotSharedIffCongruent(t: nat, u: nat, stride: nat, capacity: nat)
    requires capacity > 0 && stride > 0 && Coprime(stride, capacity)
    ensures Idx(t, stride, capacity) == Idx(u, stride, capacity) <==> t % capacity == u % capacity
  {
    SameResidue(capacity, t * stride, u * stride);
    SameResidue(capacity, t, u);
    assert t * stride - u * stride == (t - u) * stride;
    if Idx(t, stride, capacity) == Idx(u, stride, capacity) {
      CancelCoprime(capacity, stride, t - u);
    }
    if t % capacity == u % capacity {
      var q: int :| t - u == capacity * q;
      assert (capacity * q) * stride == capacity * (q * stride);
    }
  }

  /** A (slot, lap) pair belongs to one ticket. */
  lemma SlotAndLapIdentifyTicket(t: nat, u: nat, stride: nat, capacity: nat)
    requires capacity > 0 && stride > 0 && Coprime(stride, capacity)
    requires Idx(t, stride, capacity) == Idx(u, stride, capacity)
    requires Lap(t, capacity) == Lap(u, capacity)
    ensures t == u
  {
    SlotSharedIffCongruent(t, u, stride, capacity);
    assert t == capacity * (t / capacity) + t % capacity;
    assert u == capacity * (u / capacity) + u % capacity;
  }

  /** What the protocol needs to know about the assignment of tickets to slots. */
  datatype Layout = Layout(capacity: nat, slotOf: nat -> nat, lapOf: nat -> nat) {

    /** Marks a pair of tickets to be compared; it also keeps the quantifiers below
        from being instantiated for every pair in sight. */
    predicate Pair(t: nat, u: nat) { true }

    function Prev(t: nat): nat
      requires t >= capacity
    {
      t - capacity
    }

    ghost predicate Good() {
      && capacity > 0
      && (forall t: nat :: slotOf(t) < capacity)
      && (forall t: nat, u: nat {:trigger Pair(t, u)} ::
            && (slotOf(t) == slotOf(u) && lapOf(t) == lapOf(u) ==> t == u)
            && (lapOf(t) < lapOf(u) ==> t < u))
      && (forall t: nat {:trigger lapOf(t)} :: t < capacity ==> lapOf(t) == 0)
    }

    /** One capacity earlier: same slot, previous lap. */
    ghost predicate Periodic() {
      forall t: nat {:trigger Prev(t)} :: t >= capacity ==>
        slotOf(Prev(t)) == slotOf(t) && lapOf(Prev(t)) + 1 == lapOf(t)
    }
  }

  function StridedLayout(stride: nat, capacity: nat): Layout
    requires capacity > 0
  {
    Layout(capacity, (t: nat) => Idx(t, stride, capacity), (t: nat) => Lap(t, capacity))
  }

  lemma EarlierLap(t: nat, u: nat, capacity: nat)
    requires capacity > 0 && t / capacity < u / capacity
    ensures t < u
  {
    assert t == capacity * (t / capacity) + t % capacity;
    assert u == capacity * (u / capacity) + u % capacity;
    assert capacity * (u / capacity) >= capacity * (t / capacity + 1);
  }

  lemma OneLapBack(t: nat, stride: nat, capacity: nat)
    requires capacity > 0 && stride > 0 && Coprime(stride, capacity) && t >= capacity
    ensures Idx(t - capacity, stride, capacity) == Idx(t, stride, capacity)
    ensures Lap(t - capacity, capacity) + 1 == Lap(t, capacity)
  {
    var q, r := t / capacity, t % capacity;
    assert t - capacity == capacity * (q - 1) + r by {
      assert t == capacity * q + r;
      assert capacity * (q - 1) == capacity * q - capacity;
    }
    DivModUnique(t - capacity, capacity, q - 1, r);
    SlotSharedIffCongruent(t - capacity, t, stride, capacity);
  }

  lemma PairFacts(t: nat, u: nat, stride: nat, capacity: nat)
    requires capacity > 0 && stride > 0 && Coprime(stride, capacity)
    ensures Idx(t, stride, capacity) == Idx(u, stride, capacity) && Lap(t, capacity) == Lap(u, capacity) ==> t == u
    ensures Lap(t, capacity) < Lap(u, capacity) ==> t < u
  {
    if Idx(t, stride, capacity) == Idx(u, stride, capacity) && Lap(t, capacity) == Lap(u, capacity) {
      SlotAndLapIdentifyTicket(t, u, stride, capacity);
    }
    if Lap(t, capacity) < Lap(u, capacity) {
      EarlierLap(t, u, capacity);
    }
  }

  ghost predicate PairGood(l: Layout, t: nat, u: nat) {
    && l.slotOf(t) < l.capacity
    && (l.slotOf(t) == l.slotOf(u) && l.lapOf(t) == l.lapOf(u) ==> t == u)
    && (l.lapOf(t) < l.lapOf(u) ==> t < u)
    && (t < l.capacity ==> l.lapOf(t) == 0)
    && (t >= l.capacity ==> l.slotOf(l.Prev(t)) == l.slotOf(t) && l.lapOf(l.Prev(t)) + 1 == l.lapOf(t))
  }

  lemma StridedPairGood(stride: nat, capacity: nat, t: nat, u: nat)
    requires capacity > 0 && stride > 0 && Coprime(stride, capacity)
    ensures PairGood(StridedLayout(stride, capacity), t, u)
  {
    PairFacts(t, u, stride, capacity);
    if t < capacity {
      DivModUnique(t, capacity, 0, t);
    } else {
      OneLapBack(t, stride, capacity);
    }
  }

  lemma PairwiseIsGood(l: Layout)
    requires l.capacity > 0 && forall t: nat, u: nat :: PairGood(l, t, u)
    ensures l.Good() && l.Periodic()
  {
    forall t: nat, u: nat
      ensures l.slotOf(t) == l.slotOf(u) && l.lapOf(t) == l.lapOf(u) ==> t == u
      ensures l.lapOf(t) < l.lapOf(u) ==> t < u
    {
      assert PairGood(l, t, u);
    }
    forall t: nat ensures l.slotOf(t) < l.capacity && (t < l.capacity ==> l.lapOf(t) == 0) {
      assert PairGood(l, t, t);
    }
    forall t: nat {:trigger l.Prev(t)} | t >= l.capacity
      ensures l.slotOf(l.Prev(t)) == l.slotOf(t) && l.lapOf(l.Prev(t)) + 1 == l.lapOf(t)
    {
      assert PairGood(l, t, t);
    }
  }

  /** The layout MPMCQueue really uses has every property the protocol needs. */
  lemma StridedLayoutIsGood(stride: nat, capacity: nat)
    requires capacity > 0 && stride > 0 && Coprime(stride, capacity)
    ensures StridedLayout(stride, capacity).Good() && StridedLayout(stride, capacity).Periodic()
  {
    forall t: nat, u: nat ensures PairGood(StridedLayout(stride, capacity), t, u) {
      StridedPairGood(stride, capacity, t, u);
    }
    PairwiseIsGood(StridedLayout(stride, capacity));
  }

  const UINT64: nat := 0x1_0000_0000_0000_0000

  /** As the code computes it: the product wraps at 64 bits before the remainder is taken. */
  function Idx64(ticket: nat, stride: nat, capacity: nat): nat
    requires capacity > 0
  {
    ((ticket * stride) % UINT64) % capacity
  }

  lemma FitsIn64(t: nat, stride: nat, capacity: nat)
    requires capacity > 0 && t * stride < UINT64
    ensures Idx64(t, stride, capacity) == Idx(t, stride, capacity)
  {
    var product := t * stride;
    assert product % UINT64 == product;
  }

  /** While the product fits in 64 bits the code's slot and lap name the ticket. */
  lemma MachineIndexIdentifiesTicket(t: nat, u: nat, stride: nat, capacity: nat)
    requires capacity > 0 && stride > 0 && Coprime(stride, capacity)
    requires t * stride < UINT64 && u * stride < UINT64
    ensures Idx64(t, stride, capacity) == Idx64(u, stride, capacity) <==> t % capacity == u % capacity
    ensures Idx64(t, stride, capacity) == Idx64(u, stride, capacity) && Lap(t, capacity) == Lap(u, capacity) <==> t == u
  {
    FitsIn64(t, stride, capacity);
    FitsIn64(u, stride, capacity);
    SlotSharedIffCongruent(t, u, stride, capacity);
    if Idx64(t, stride, capacity) == Idx64(u, stride, capacity) && Lap(t, capacity) == Lap(u, capacity) {
      SlotAndLapIdentifyTicket(t, u, stride, capacity);
    }
  }
}
